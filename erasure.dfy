/**
 * The type-erasure demonstration: four procedures of different kinds (a
 * closure, a free function, a call-operator object and a bound member
 * function) held by rebindable handles in one array, invoked in slot order,
 * and rotated one slot to the left between rounds.
 *
 * Each procedure is a `void()` call that prints one line. Printing is
 * modelled as a trace: a call takes the lines printed so far and returns
 * them with its own line appended. The lines the program can print are a
 * datatype; `Line.Text` gives the characters of each.
 */
module Erasure {
  import opened Procedure

  /** A line the demonstration prints. */
  datatype Line = LambdaLine | FunctionLine | FunctorLine | MemberFunctionLine | EmptyLine {
    /** The characters of the line. */
    function Text(): string {
      match this
      case LambdaLine => "Lambda"
      case FunctionLine => "Function"
      case FunctorLine => "Functor"
      case MemberFunctionLine => "Member Function"
      case EmptyLine => ""
    }
  }

  /** The lines printed so far, oldest first. */
  type Trace = seq<Line>

  /** A `void()` adapter (`Procedural<void>`), over objects of type `T`. */
  type Adapter<!T> = Procedural<T, Trace, Trace>

  // ---------------------------------------------------------------------
  // The procedures of the demonstration
  // ---------------------------------------------------------------------

  /** The closure `Lambda`. */
  function Lambda(trace: Trace): Trace {
    trace + [LambdaLine]
  }

  /** The free function `Function`. */
  function Function(trace: Trace): Trace {
    trace + [FunctionLine]
  }

  /** The constant structure `Class`; `Object` is its one instance. */
  datatype Class = Object {
    /** `Class::operator()`. */
    function Apply(trace: Trace): Trace {
      trace + [FunctorLine]
    }

    /** `Class::member`. */
    function MemberFunction(trace: Trace): Trace {
      trace + [MemberFunctionLine]
    }
  }

  const LambdaProcedure: Adapter<Class> := ProcureObject(Lambda, Guide)
  const FunctionProcedure: Adapter<Class> := ProcureObject(Function, Guide)
  const FunctorProcedure: Adapter<Class> := ProcureObject((trace: Trace) => Object.Apply(trace), Guide)
  const MethodProcedure: Adapter<Class> :=
    ProcureMethod(false, Object, Member((instance: Class, trace: Trace) => instance.MemberFunction(trace)), Guide).value

  /** The initial contents of the `calls` array, slot by slot. */
  const Demonstration: seq<Adapter<Class>> := [LambdaProcedure, FunctionProcedure, FunctorProcedure, MethodProcedure]

  /** The line each slot of `Demonstration` prints. */
  const Tags: seq<Line> := [LambdaLine, FunctionLine, FunctorLine, MemberFunctionLine]

  /** `p` prints exactly `line` each time it is invoked, and nothing else. */
  ghost predicate Prints<T>(p: Adapter<T>, line: Line) {
    forall trace :: p.Invoke(trace) == trace + [line]
  }

  /** Slot `i` of `procedures` prints `lines[i]`. */
  ghost predicate Printing<T>(procedures: seq<Adapter<T>>, lines: seq<Line>) {
    |procedures| == |lines| && forall i :: 0 <= i < |procedures| ==> Prints(procedures[i], lines[i])
  }

  // ---------------------------------------------------------------------
  // Calling a procedure, and calling a sequence of them in order
  // ---------------------------------------------------------------------

  /** `CallProcedure`: invokes `call` through the common interface. */
  function CallProcedure<T>(call: Adapter<T>, trace: Trace): (r: Trace)
    ensures forall line :: Prints(call, line) ==> r == trace + [line]
  {
    call.Invoke(trace)
  }

  /** The trace left by invoking each of `procedures` once, first to last. */
  function Perform<T>(procedures: seq<Adapter<T>>, trace: Trace): Trace {
    if procedures == [] then trace
    else Perform(procedures[1..], CallProcedure(procedures[0], trace))
  }

  /** Invoking two runs of procedures one after the other. */
  lemma {:induction false} PerformAppend<T>(first: seq<Adapter<T>>, second: seq<Adapter<T>>, trace: Trace)
    ensures Perform(first + second, trace) == Perform(second, Perform(first, trace))
  {
    if first == [] {
      assert first + second == second;
    } else {
      assert (first + second)[0] == first[0];
      assert (first + second)[1..] == first[1..] + second;
      PerformAppend(first[1..], second, CallProcedure(first[0], trace));
    }
  }

  /** A run of procedures that each print one line prints those lines in order. */
  lemma {:induction false} PerformPrinting<T>(procedures: seq<Adapter<T>>, lines: seq<Line>, trace: Trace)
    requires Printing(procedures, lines)
    ensures Perform(procedures, trace) == trace + lines
  {
    if procedures != [] {
      assert Prints(procedures[0], lines[0]);
      assert Printing(procedures[1..], lines[1..]) by {
        forall i | 0 <= i < |procedures| - 1 ensures Prints(procedures[1..][i], lines[1..][i]) {
          assert procedures[1..][i] == procedures[i + 1];
        }
      }
      PerformPrinting(procedures[1..], lines[1..], trace + [lines[0]]);
      assert trace + [lines[0]] + lines[1..] == trace + lines;
    }
  }

  // ---------------------------------------------------------------------
  // Rotation of the call slots
  // ---------------------------------------------------------------------

  /** The order `ShuffleCalls` leaves the slots in. */
  function RotateLeft<X>(s: seq<X>): seq<X> {
    if |s| < 2 then s else s[1..] + [s[0]]
  }

  /** The order after `count` successive shuffles. */
  function Rotate<X>(s: seq<X>, count: nat): seq<X> {
    if count == 0 then s else RotateLeft(Rotate(s, count - 1))
  }

  /**
   * A shuffle leaves fewer than two slots alone; otherwise every slot takes
   * the value of its right neighbour and the last slot takes the first one.
   * Nothing is lost or duplicated.
   */
  lemma RotateLeftShape<X>(s: seq<X>)
    ensures |RotateLeft(s)| == |s|
    ensures |s| < 2 ==> RotateLeft(s) == s
    ensures forall i :: 0 <= i < |s| - 1 ==> RotateLeft(s)[i] == s[i + 1]
    ensures |s| > 0 ==> RotateLeft(s)[|s| - 1] == s[0]
    ensures multiset(RotateLeft(s)) == multiset(s)
  {
    if |s| >= 2 {
      assert s == [s[0]] + s[1..];
    }
  }

  /** After `count` shuffles, no more than the number of slots, slot `count` leads. */
  lemma {:induction false} RotateSplit<X>(s: seq<X>, count: nat)
    requires count <= |s|
    ensures Rotate(s, count) == s[count..] + s[..count]
  {
    if count == 0 {
      assert s[0..] + s[..0] == s;
    } else {
      RotateSplit(s, count - 1);
      var previous := s[count - 1..] + s[..count - 1];
      if |s| >= 2 {
        assert previous[1..] == s[count..] + s[..count - 1];
        assert s[..count - 1] + [s[count - 1]] == s[..count];
      } else {
        assert s[count..] + s[..count] == s == previous;
      }
    }
  }

  /** As many shuffles as there are slots restore the original order. */
  lemma RotateFull<X>(s: seq<X>)
    ensures Rotate(s, |s|) == s
  {
    RotateSplit(s, |s|);
    assert s[|s|..] + s[..|s|] == s;
  }

  /** Shuffling procedures and their lines alike keeps each slot printing its line. */
  lemma ShuffledPrinting<T>(procedures: seq<Adapter<T>>, lines: seq<Line>)
    requires Printing(procedures, lines)
    ensures Printing(RotateLeft(procedures), RotateLeft(lines))
  {
    RotateLeftShape(procedures);
    RotateLeftShape(lines);
    forall i | 0 <= i < |procedures| ensures Prints(RotateLeft(procedures)[i], RotateLeft(lines)[i]) {
      if i < |procedures| - 1 {
        assert Prints(procedures[i + 1], lines[i + 1]);
      } else {
        assert Prints(procedures[0], lines[0]);
      }
    }
  }

  /** The same after any number of shuffles. */
  lemma {:induction false} RotatePrinting<T>(procedures: seq<Adapter<T>>, lines: seq<Line>, count: nat)
    requires Printing(procedures, lines)
    ensures Printing(Rotate(procedures, count), Rotate(lines, count))
  {
    if count > 0 {
      RotatePrinting(procedures, lines, count - 1);
      ShuffledPrinting(Rotate(procedures, count - 1), Rotate(lines, count - 1));
    }
  }

  /** After one shuffle the slot that was first is invoked last. */
  lemma PerformShuffled<T>(procedures: seq<Adapter<T>>, trace: Trace)
    requires procedures != []
    ensures Perform(RotateLeft(procedures), trace)
         == CallProcedure(procedures[0], Perform(procedures[1..], trace))
  {
    PerformAppend(procedures[1..], [procedures[0]], trace);
  }

  /** After `count` shuffles the printed lines are the original lines rotated `count` times. */
  lemma ShuffledTrace<T>(procedures: seq<Adapter<T>>, lines: seq<Line>, count: nat, trace: Trace)
    requires Printing(procedures, lines)
    ensures Perform(Rotate(procedures, count), trace) == trace + Rotate(lines, count)
  {
    RotatePrinting(procedures, lines, count);
    PerformPrinting(Rotate(procedures, count), Rotate(lines, count), trace);
  }

  // ---------------------------------------------------------------------
  // Conventional: a rebindable, non-owning handle
  // ---------------------------------------------------------------------

  /**
   * `Conventional<void>`: holds a pointer to an adapter it does not own.
   * Assigning an adapter to it rebinds the pointer; converting it yields
   * the adapter it is bound to.
   */
  class Conventional<T> {
    var procedure: Adapter<T>

    /** Binds a new handle to `procedure`. */
    constructor (procedure: Adapter<T>)
      ensures this.procedure == procedure
    {
      this.procedure := procedure;
    }

    /** The copy constructor: the copy shares the original's adapter. */
    constructor Copy(copy: Conventional<T>)
      ensures procedure == copy.procedure
    {
      procedure := copy.procedure;
    }

    /** `operator const SameProcedural&()`: the adapter the handle is bound to. */
    function Target(): Adapter<T>
      reads this
    {
      procedure
    }

    /** `operator=`: rebinds this handle; no other handle changes. */
    method Assign(procedure: Adapter<T>)
      modifies this
      ensures this.procedure == procedure
    {
      this.procedure := procedure;
    }
  }

  /** The handles are distinct objects, as the elements of an array of values are. */
  predicate Distinct<T>(handles: seq<Conventional<T>>) {
    forall i, j :: 0 <= i < j < |handles| ==> handles[i] != handles[j]
  }

  /** The adapters the handles are bound to, slot by slot. */
  function Targets<T>(handles: seq<Conventional<T>>): seq<Adapter<T>>
    reads handles
  {
    seq(|handles|, i requires 0 <= i < |handles| reads handles => handles[i].procedure)
  }

  /**
   * `ShuffleCalls`: rotates the handles left by one slot, in place, by
   * rebinding each handle to its right neighbour's adapter and the last
   * one to a copy of the first.
   */
  method ShuffleCalls<T>(calls: array<Conventional<T>>)
    requires Distinct(calls[..])
    modifies calls[..]
    ensures calls[..] == old(calls[..])
    ensures Targets(calls[..]) == RotateLeft(old(Targets(calls[..])))
  {
    if calls.Length < 2 {
      return;
    }
    ghost var before := Targets(calls[..]);
    ghost var rotated := RotateLeft(before);
    var swap := new Conventional.Copy(calls[0]);
    for index := 1 to calls.Length
      invariant swap.procedure == before[0]
      invariant forall k :: 0 <= k < index - 1 ==> calls[k].procedure == rotated[k]
      invariant forall k :: index - 1 <= k < calls.Length ==> calls[k].procedure == before[k]
    {
      assert rotated[index - 1] == before[index];
      assert forall k :: 0 <= k < calls.Length && k != index - 1 ==> calls[k] != calls[index - 1];
      calls[index - 1].Assign(calls[index].Target());
    }
    assert rotated[calls.Length - 1] == before[0];
    calls[calls.Length - 1].Assign(swap.Target());
    assert Targets(calls[..]) == rotated;
  }

  /** `PerformCalls`: invokes every handle once, in slot order. */
  method PerformCalls<T>(calls: array<Conventional<T>>, trace: Trace) returns (output: Trace)
    ensures output == Perform(Targets(calls[..]), trace)
  {
    output := trace;
    for index := 0 to calls.Length
      invariant output == Perform(Targets(calls[..index]), trace)
    {
      assert Targets(calls[..index + 1]) == Targets(calls[..index]) + [calls[index].procedure];
      PerformAppend(Targets(calls[..index]), [calls[index].procedure], trace);
      output := CallProcedure(calls[index].Target(), output);
    }
    assert calls[..calls.Length] == calls[..];
  }

  // ---------------------------------------------------------------------
  // The demonstration program
  // ---------------------------------------------------------------------

  /** The four adapters print the four tags, slot by slot. */
  lemma DemonstrationPrints()
    ensures Printing(Demonstration, Tags)
  {
    assert Prints(LambdaProcedure, LambdaLine);
    assert Prints(FunctionProcedure, FunctionLine);
    assert Prints(FunctorProcedure, FunctorLine);
    assert Prints(MethodProcedure, MemberFunctionLine);
  }

  /** The first 20 lines `main` prints: its four rounds, each followed by an empty line. */
  const MainLines: seq<Line> := [
    LambdaLine, FunctionLine, FunctorLine, MemberFunctionLine, EmptyLine,
    FunctionLine, FunctorLine, MemberFunctionLine, LambdaLine, EmptyLine,
    FunctorLine, MemberFunctionLine, LambdaLine, FunctionLine, EmptyLine,
    MemberFunctionLine, LambdaLine, FunctionLine, FunctorLine, EmptyLine]

  /** The four tags, rotated once more per round, each round ending in an empty line, are `MainLines`. */
  lemma DemonstrationLines()
    ensures Tags + [EmptyLine] + RotateLeft(Tags) + [EmptyLine] + RotateLeft(RotateLeft(Tags)) + [EmptyLine]
          + RotateLeft(RotateLeft(RotateLeft(Tags))) + [EmptyLine] == MainLines
  {
    assert RotateLeft(Tags) == [FunctionLine, FunctorLine, MemberFunctionLine, LambdaLine];
    assert RotateLeft(RotateLeft(Tags)) == [FunctorLine, MemberFunctionLine, LambdaLine, FunctionLine];
    assert RotateLeft(RotateLeft(RotateLeft(Tags))) == [MemberFunctionLine, LambdaLine, FunctionLine, FunctorLine];
  }

  /** What is observed after each of `main`'s four rounds. */
  datatype Rounds<X> = Rounds(first: X, second: X, third: X, fourth: X)

  /** One round, on slots that print `lines`: the lines, then an empty line; after the shuffle the slots print the lines rotated. */
  lemma PrintedRound<T>(slots: seq<Adapter<T>>, lines: seq<Line>, trace: Trace)
    requires Printing(slots, lines)
    ensures Perform(slots, trace) + [EmptyLine] == trace + lines + [EmptyLine]
    ensures Printing(RotateLeft(slots), RotateLeft(lines))
  {
    PerformPrinting(slots, lines, trace);
    ShuffledPrinting(slots, lines);
  }

  /**
   * Four rounds of "invoke every slot, shuffle, print an empty line", started
   * from slots that print `lines`, print the lines rotated once more per round.
   */
  lemma RoundsPrint<T>(slots: seq<Adapter<T>>, lines: seq<Line>, after: Rounds<seq<Adapter<T>>>, printed: Rounds<Trace>)
    requires Printing(slots, lines)
    requires after.first == RotateLeft(slots) && printed.first == Perform(slots, []) + [EmptyLine]
    requires after.second == RotateLeft(after.first) && printed.second == Perform(after.first, printed.first) + [EmptyLine]
    requires after.third == RotateLeft(after.second) && printed.third == Perform(after.second, printed.second) + [EmptyLine]
    requires after.fourth == RotateLeft(after.third) && printed.fourth == Perform(after.third, printed.third) + [EmptyLine]
    ensures printed.fourth == lines + [EmptyLine] + RotateLeft(lines) + [EmptyLine] + RotateLeft(RotateLeft(lines)) + [EmptyLine]
                              + RotateLeft(RotateLeft(RotateLeft(lines))) + [EmptyLine]
  {
    var lines1 := RotateLeft(lines);
    var lines2 := RotateLeft(lines1);
    var lines3 := RotateLeft(lines2);
    PrintedRound(slots, lines, []);
    PrintedRound(after.first, lines1, printed.first);
    PrintedRound(after.second, lines2, printed.second);
    PrintedRound(after.third, lines3, printed.third);
    assert [] + lines == lines;
  }

  /** Four shuffles of four slots leave every slot where it started. */
  lemma RoundsRestore<X>(slots: seq<X>, after: Rounds<seq<X>>)
    requires |slots| == 4
    requires after.first == RotateLeft(slots) && after.second == RotateLeft(after.first)
    requires after.third == RotateLeft(after.second) && after.fourth == RotateLeft(after.third)
    ensures after.fourth == slots
  {
    assert Rotate(slots, 1) == after.first;
    assert Rotate(slots, 2) == after.second;
    assert Rotate(slots, 3) == after.third;
    assert Rotate(slots, 4) == after.fourth;
    RotateFull(slots);
  }

  /**
   * The declaration of `main`'s array: four new handles, bound in order to
   * the four adapters by the converting constructor.
   */
  method DeclareCalls<T>(p0: Adapter<T>, p1: Adapter<T>, p2: Adapter<T>, p3: Adapter<T>) returns (calls: array<Conventional<T>>)
    ensures fresh(calls) && forall i :: 0 <= i < calls.Length ==> fresh(calls[i])
    ensures Distinct(calls[..]) && Targets(calls[..]) == [p0, p1, p2, p3]
  {
    var c0 := new Conventional(p0);
    var c1 := new Conventional(p1);
    var c2 := new Conventional(p2);
    var c3 := new Conventional(p3);
    ghost var handles := [c0, c1, c2, c3];
    assert Distinct(handles) && Targets(handles) == [p0, p1, p2, p3];
    calls := new Conventional<T>[] [c0, c1, c2, c3];
    assert calls[..] == handles;
  }

  /** The statements `main` repeats: invoke every slot, shuffle, print an empty line. */
  method Round<T>(calls: array<Conventional<T>>, trace: Trace) returns (output: Trace)
    requires Distinct(calls[..])
    modifies calls[..]
    ensures calls[..] == old(calls[..])
    ensures Targets(calls[..]) == RotateLeft(old(Targets(calls[..])))
    ensures output == Perform(old(Targets(calls[..])), trace) + [EmptyLine]
  {
    output := PerformCalls(calls, trace);
    ShuffleCalls(calls);
    output := output + [EmptyLine];
  }

  /**
   * `main`: binds four handles to the four adapters, then four times invokes
   * every slot, shuffles, and ends the round with an empty line. Returns the
   * printed lines and the adapter in slot 0 at the end.
   */
  method Demonstrate() returns (output: Trace, first: Adapter<Class>)
    ensures output == MainLines
    ensures first == LambdaProcedure
  {
    var calls := DeclareCalls(LambdaProcedure, FunctionProcedure, FunctorProcedure, MethodProcedure);
    ghost var initial := Targets(calls[..]);
    assert Printing(initial, Tags) && initial[0] == LambdaProcedure by {
      DemonstrationPrints();
    }
    output := [];
    output := Round(calls, output);
    ghost var slots1, printed1 := Targets(calls[..]), output;
    output := Round(calls, output);
    ghost var slots2, printed2 := Targets(calls[..]), output;
    output := Round(calls, output);
    ghost var slots3, printed3 := Targets(calls[..]), output;
    output := Round(calls, output);
    ghost var slots4, printed4 := Targets(calls[..]), output;
    ghost var after := Rounds(slots1, slots2, slots3, slots4);
    RoundsPrint(initial, Tags, after, Rounds(printed1, printed2, printed3, printed4));
    RoundsRestore(initial, after);
    DemonstrationLines();
    first := calls[0].Target();
  }
}
