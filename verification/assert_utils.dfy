/**
 * The guard functions of `assert_utils.ts`. A JavaScript value that may be missing is a
 * `Nullable<T>`; a guard that throws returns `Fail(message)` (or `Failure(message)`).
 */
module AssertUtils {
  import opened Wrappers

  /** A JavaScript value that may be `undefined` or `null`. */
  datatype Nullable<+T> = Undefined | Null | Defined(value: T)

  /** `assert_exists`: throws exactly on `undefined` and `null`; every other value passes. */
  function AssertExists<T>(obj: Nullable<T>, assertion: string): (r: Outcome)
    ensures r.Fail? <==> !obj.Defined?
    ensures r.Fail? ==> r.error == assertion
  {
    if obj.Defined? then Pass else Fail(assertion)
  }

  /** `assert_never`: always throws, with the message `'unhandled case '` (the value is not part of it). */
  function AssertNever<T>(value: T): (r: Outcome)
    ensures r == Fail("unhandled case ")
  {
    Fail("unhandled case ")
  }

  /** `assert_true`: throws exactly when the flag is false. */
  function AssertTrue(value: bool, assertion: string): (r: Outcome)
    ensures r.Pass? <==> value
    ensures r.Fail? ==> r.error == assertion
  {
    if !value then Fail(assertion) else Pass
  }

  /** `unwrap`: the value itself when it exists, the error of `assert_exists` otherwise. */
  function Unwrap<T>(value: Nullable<T>, assertion: string): (r: Result<T>)
    ensures value.Defined? ==> r == Success(value.value)
    ensures !value.Defined? ==> r == Failure(assertion)
  {
    match AssertExists(value, assertion)
    case Fail(e) => Failure(e)
    case Pass => Success(value.value)
  }

  /** JavaScript's falsy values that are not missing (`0`, `""`, `false`) pass both existence guards. */
  lemma FalsyValuesExist(assertion: string)
    ensures AssertExists(Defined(0.0), assertion) == Pass
    ensures AssertExists(Defined(""), assertion) == Pass
    ensures AssertExists(Defined(false), assertion) == Pass
    ensures Unwrap(Defined(0.0), assertion) == Success(0.0)
    ensures Unwrap(Defined(""), assertion) == Success("")
    ensures Unwrap(Defined(false), assertion) == Success(false)
  {
  }
}
