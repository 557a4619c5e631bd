# Stored procedure invocation, modelled in Dafny

The C++ header `procedure.hpp` lets any stored procedure be called through one
common interface, `Procedural<R, P...>`:

- a free function, a closure or an object with a call operator, wrapped by `Objective`;
- an object together with a pointer to one of its member functions, wrapped by `Methodic`.

Three `Procure` overloads build the adapters. `Guide<R, P...>` is a typed null
pointer constant whose only role is to fix the call's types. `erasure.cpp`
demonstrates the idea:

- Four adapters of different kinds are held by `Conventional` handles in one array.
- Each adapter prints its own tag.
- `main` calls every slot in order four times.
- After each round it rotates the slots one place to the left and prints an empty line.

The model has two modules:

- `Procedure` (`procedure.dfy`) covers the header. `Procedural` is a closed
  tagged union with the two final implementations `Objective` and `Methodic`.
  `Invoke` is `operator()`.
  - The member-function pointer is `Locative` = `Null | Member(call)`.
  - The `PROCEDURE_MODULE_NOTHROW` build option is a `noThrow` flag.
  - A throwing constructor returns `Failure(pointer)`, which stands for the thrown null pointer.
- `Erasure` (`erasure.dfy`) covers the demonstration.
  - Console output is a trace: a `void()` call takes the lines printed so far and returns them with its own line appended.
  - `Conventional` is a class whose one field, the borrowed adapter, is rebound by assignment.
  - `ShuffleCalls` and `PerformCalls` are loops over an array of such handles.
  - `Demonstrate` is `main`.

The specification functions are:

- `Perform`: the trace of calling each adapter once, first to last.
- `RotateLeft` and `Rotate`: the slot order after one shuffle, or after `count` shuffles.
- `Prints` and `Printing`: an adapter that appends exactly one given line, and a sequence of such adapters.

The methods are proved against these functions. The lemmas connect them:

- Rotations compose.
- A full cycle of shuffles restores the order.
- A printing run prints its lines in order.
- Shuffling the slots rotates the printed lines.

## Model

| member | source | states |
|---|---|---|
| Procedure.NewObjective | procedure.hpp:60-64 | The `Objective` built from a callable holds exactly that callable. Invoking it returns what the callable returns for the same arguments. |
| Procedure.NewMethodic | procedure.hpp:93-104 | Construction succeeds exactly when the member pointer is non-null. Without NOTHROW, a null pointer fails with that pointer as the error. With NOTHROW, a non-null pointer is the caller's obligation. A success holds the given object and member, and invoking it returns `(object.*member)(arguments)` for every argument. |
| Procedure.Procure | procedure.hpp:136-141 | `Procure(function)` wraps exactly that function. Invoking it equals calling the function directly. |
| Procedure.ProcureObject | procedure.hpp:156-162 | `Procure(object, guide)` wraps exactly `object`; the guide (the single null constant) plays no part. Invoking it equals calling the object. |
| Procedure.ProcureMethod | procedure.hpp:185-193 | `Procure(object, method, guide)` fails exactly when `Methodic`'s constructor does, with the null pointer. Otherwise it binds that object and member, and invoking it calls the member on the object. |
| Erasure.CallProcedure | erasure.cpp:51-54 | Calling an adapter that prints one line appends exactly that line to the trace. |
| Erasure.PerformAppend | erasure.cpp:69-70 | Calling two runs of adapters one after the other is calling their concatenation. This is the in-order step `PerformCalls`'s loop relies on. |
| Erasure.PerformPrinting | erasure.cpp:66-71 | A run of adapters in which slot `i` prints line `i` appends exactly those lines, in slot order. |
| Erasure.RotateLeftShape | erasure.cpp:59-63 | A shuffle keeps the length and leaves fewer than two slots alone. Otherwise slot `i` takes slot `i+1`'s value and the last slot takes the first one's. The multiset of values is unchanged. |
| Erasure.RotateSplit | erasure.cpp:56-64 | After `k` ≤ Length shuffles the order is `s[k..] + s[..k]`. |
| Erasure.RotateFull | erasure.cpp:56-64 | Length shuffles restore the original order. |
| Erasure.ShuffledPrinting | erasure.cpp:59-63 | Shuffling adapters and their lines alike keeps every slot printing its own line. |
| Erasure.RotatePrinting | erasure.cpp:59-63 | The same holds after any number of shuffles. |
| Erasure.PerformShuffled | erasure.cpp:56-71 | After one shuffle, the adapter that was first is called last. The others are called in their old order. |
| Erasure.ShuffledTrace | erasure.cpp:78-88 | After `k` shuffles of a printing run, one pass prints the original lines rotated `k` times. |
| Erasure.Conventional.constructor | erasure.cpp:30-37 | A new handle is bound to the adapter it was built from. Converting it back yields that adapter. |
| Erasure.Conventional.Copy | erasure.cpp:32-33 | A copy shares the original's adapter. |
| Erasure.Conventional.Assign | erasure.cpp:42-46 | Assignment rebinds this handle to the new adapter. Its frame, `this` only, leaves every other handle unchanged. |
| Erasure.ShuffleCalls | erasure.cpp:56-64 | Given distinct handles, the array keeps the same handles. Their adapters end up rotated left by one: the first adapter goes to the last slot, and fewer than two slots are left alone. |
| Erasure.PerformCalls | erasure.cpp:66-71 | The trace is exactly that of calling every slot's adapter once, in index order 0..Length-1. |
| Erasure.DemonstrationPrints | erasure.cpp:12-22 | The four demonstration adapters print "Lambda", "Function", "Functor" and "Member Function", slot by slot. |
| Erasure.DemonstrationLines | erasure.cpp:73-89 | The four rounds' lines, each round the previous one rotated left and followed by an empty line, are the first 20 lines `main` prints. |
| Erasure.PrintedRound | erasure.cpp:78-80 | One round on a printing run prints its lines and then an empty line. Afterwards the rotated slots print the rotated lines. |
| Erasure.RoundsPrint | erasure.cpp:78-89 | Four rounds, each calling every slot, shuffling and printing an empty line, print the lines rotated once more per round. |
| Erasure.RoundsRestore | erasure.cpp:78-89 | Four shuffles of the four slots bring every adapter back to its starting slot. |
| Erasure.DeclareCalls | erasure.cpp:75-77 | The array declaration yields four new, distinct handles, bound in order to the four given adapters. |
| Erasure.Round | erasure.cpp:78-80 | One round prints the trace of the slots in their current order, then an empty line. It leaves the slots rotated left by one. |
| Erasure.Demonstrate | erasure.cpp:73-89 | The first 20 lines `main` prints are exactly Lambda, Function, Functor, Member Function, an empty line, then the same rotated left once, twice and three times, each followed by an empty line. Afterwards slot 0 again holds the Lambda adapter. |

## Left out

- Console output (`cout << ... << endl`) is a trace of `Line` values; `Line.Text` gives each line's characters. I/O itself is not modelled.
- The last lines of `main` (erasure.cpp:90-95) are not modelled. They compare slot 0 with a fresh `Procure(Lambda, Guide<void>)` and print whether RTTI is enabled.
  - `ProcureComparably`, `ComparablyProcedural` and `Conventional::operator==` (erasure.cpp:19-22, 28, 38-41) are not part of this model. They are not defined in `procedure.hpp`, so their equality, and whether it depends on RTTI, cannot be seen.
  - The demonstration adapters are built with the `Procure` overloads of the same shapes instead: `Procure(object, guide)` for `Lambda`, `Function` and `Object`, and `Procure(object, method, guide)` for `&Class::member`. The one-argument `Procure(function)` is modelled but not used by `main`. `Demonstrate` returns slot 0's final adapter in place of the comparison.
- `Conventional<R, P...>` is specialised to `Conventional<void>`, the only instance the program uses. Its adapter type is `Procedural<T, Trace, Trace>`.
  - The type `T` of the object a `Methodic` is bound to stays a type parameter, because Dafny has no existential types.
  - All four demonstration adapters use `T = Class`.
- Template argument deduction and parameter packs (`Functional`, the types `Guide` carries) become Dafny type parameters. `Guide` is a datatype with exactly one value, the null constant.
- References are borrowed, not owned, and lifetimes are not modelled. Adapters and the objects they borrow are immutable values; `Class` and its member functions are `const` in the source.
- The header `procedure.hpp` does not refer to `PROCEDURE_MODULE_NORTTI` or `PROCEDURE_MODULE_NOSTDCPP`; erasure.cpp:4-5 only carries them as commented-out defines. So they have no counterpart. `PROCEDURE_MODULE_NOTHROW` is the `noThrow` flag.
- `Methodic` stores the member function the non-null pointer designates. An adapter holding a null member pointer can only arise with NOTHROW and a violated precondition, and it is not representable.
- Erasure.ShuffleCalls: requires the handles in the array to be distinct objects. A C++ array of `Conventional` values has distinct elements by construction. The Dafny array holds references, so the requirement states that fact.
- `calls[index - 1] = calls[index]` and `calls[Length - 1] = swap` use `Conventional`'s implicitly declared copy assignment, which copies the stored pointer. It is modelled as `Assign(other.Target())`, which has the same effect.
- Erasure.DeclareCalls, Erasure.Round: these split `main` into its array declaration and its repeated three-statement block. `Demonstrate` runs that block four times in sequence, as `main` does.
- `example.cpp` and the `test_*.cpp` benchmark programs are not part of this model. They depend on headers that are not shown (`function`, `test.conditions`) and on timing.
