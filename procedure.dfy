/**
 * Stored procedure invocation: any stored procedure (a free function, a
 * closure, an object with a call operator, or an object together with one of
 * its member functions) called through one common interface.
 *
 * The interface `Procedural<R, P...>` has exactly two final implementations,
 * `Objective` and `Methodic`, so it is modelled as a closed tagged union.
 * Adapters only borrow what they wrap and never change after construction,
 * which a datatype value captures directly.
 */
module Procedure {

  /**
   * A pointer to member function: either the null pointer, or the member of
   * a `T` it designates, which takes the object it is called on and the
   * call's parameters.
   */
  datatype Locative<!T, !P, R> = Null | Member(call: (T, P) -> R)

  /**
   * The deduction guide: a null pointer constant whose only role is to fix
   * the parameter and return types of a call. It has exactly one value.
   */
  datatype Guide<P, R> = Guide

  /** The outcome of a construction that may throw. */
  datatype Result<V, E> = Success(value: V) | Failure(error: E)

  /**
   * The common call interface, over parameters `P` and result `R`.
   *  - `Objective` borrows a callable object (or a function) and forwards
   *    the call to it unchanged.
   *  - `Methodic` borrows an object (`instance`) and the member function a
   *    non-null member pointer designates (`member`), and forwards the call
   *    as `(instance.*member)(arguments)`.
   * `T` is the type of the object a `Methodic` is bound to. Only
   * `NewMethodic` builds a `Methodic`, and only from a non-null pointer, so
   * every adapter can be invoked.
   */
  datatype Procedural<!T, !P, R> =
    | Objective(callable: P -> R)
    | Methodic(instance: T, member: (T, P) -> R)
  {
    /** `operator()`: one direct call into the borrowed procedure. */
    function Invoke(arguments: P): R {
      match this
      case Objective(callable) => callable(arguments)
      case Methodic(instance, member) => member(instance, arguments)
    }
  }

  /** The constructor of `Objective`: borrows `callable` and forwards every call to it. */
  function NewObjective<T, P(!new), R>(callable: P -> R): (r: Procedural<T, P, R>)
    ensures r.Objective? && r.callable == callable
    ensures forall arguments :: r.Invoke(arguments) == callable(arguments)
  {
    Objective(callable)
  }

  /**
   * The constructor of `Methodic`. `noThrow` stands for the build option
   * PROCEDURE_MODULE_NOTHROW. Without it, a null member pointer is rejected
   * by throwing that pointer; with it, no check is made, so a non-null member
   * pointer is the caller's obligation.
   */
  function NewMethodic<T, P(!new), R>(noThrow: bool, instance: T, member: Locative<T, P, R>)
    : (r: Result<Procedural<T, P, R>, Locative<T, P, R>>)
    requires noThrow ==> member.Member?
    ensures r.Success? <==> member.Member?
    ensures r.Failure? ==> !noThrow && r.error == member && member == Null
    ensures r.Success? ==> r.value.Methodic? && r.value.instance == instance && r.value.member == member.call
    ensures r.Success? ==> forall arguments :: r.value.Invoke(arguments) == member.call(instance, arguments)
  {
    if !noThrow && member.Null? then Failure(member) else Success(Methodic(instance, member.call))
  }

  /**
   * `Procure(function)`: an adapter over a function, whose parameter and
   * return types come from the function's own signature.
   */
  function Procure<T, P(!new), R>(fn: P -> R): (r: Procedural<T, P, R>)
    ensures r.Objective? && r.callable == fn
    ensures forall arguments :: r.Invoke(arguments) == fn(arguments)
  {
    NewObjective(fn)
  }

  /**
   * `Procure(object, guide)`: an adapter over a callable object; the guide
   * only fixes the types and plays no part in the result.
   */
  function ProcureObject<T, P(!new), R>(callable: P -> R, guide: Guide<P, R>): (r: Procedural<T, P, R>)
    ensures r.Objective? && r.callable == callable
    ensures forall arguments :: r.Invoke(arguments) == callable(arguments)
  {
    NewObjective(callable)
  }

  /**
   * `Procure(object, method, guide)`: a `Methodic` over `instance` and
   * `member`, built by its constructor, so it fails exactly as that does.
   */
  function ProcureMethod<T, P(!new), R>(noThrow: bool, instance: T, member: Locative<T, P, R>, guide: Guide<P, R>)
    : (r: Result<Procedural<T, P, R>, Locative<T, P, R>>)
    requires noThrow ==> member.Member?
    ensures r.Success? <==> member.Member?
    ensures r.Failure? ==> !noThrow && r.error == Null
    ensures r.Success? ==> r.value.Methodic? && r.value.instance == instance && r.value.member == member.call
    ensures r.Success? ==> forall arguments :: r.value.Invoke(arguments) == member.call(instance, arguments)
  {
    NewMethodic(noThrow, instance, member)
  }
}
