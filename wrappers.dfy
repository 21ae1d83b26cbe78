// The service layer's result wrappers (Application/Wrappers/Result.cs) and
// the Option type used for nullable values throughout the model.

module Wrappers {

  /** A nullable reference or value: `None` stands for C#'s null. */
  datatype Option<T> = None | Some(value: T)

  /**
   * `Result<T>`: a success flag, a value that may be null, and the list of
   * error messages. `value == None` with `isSuccess` is the "success without
   * a value" that the controllers turn into 404.
   */
  datatype Result<T> = Result(isSuccess: bool, value: Option<T>, errors: seq<string>)

  /** The non-generic `Result`: a success flag and the error messages. */
  datatype UnitResult = UnitResult(isSuccess: bool, errors: seq<string>)

  /** `Result<T>.Success(value)`. */
  function Success<T>(v: T): (r: Result<T>)
    ensures r.isSuccess && r.value == Some(v) && r.errors == []
  {
    Result(true, Some(v), [])
  }

  /** `Result<T>.Failure(List<string>)`: the value is left at its default (null). */
  function Failure<T>(errors: seq<string>): (r: Result<T>)
    ensures !r.isSuccess && r.value == None && r.errors == errors
  {
    Result(false, None, errors)
  }

  /** `Result<T>.Failure(string)`: a one-message error list. */
  function FailureOf<T>(error: string): (r: Result<T>)
    ensures !r.isSuccess && r.value == None && r.errors == [error]
  {
    Failure([error])
  }

  /** `Result.Success()`. */
  function UnitSuccess(): (r: UnitResult)
    ensures r.isSuccess && r.errors == []
  {
    UnitResult(true, [])
  }

  /** `Result.Failure(List<string>)`. */
  function UnitFailure(errors: seq<string>): (r: UnitResult)
    ensures !r.isSuccess && r.errors == errors
  {
    UnitResult(false, errors)
  }

  /** `Result.Failure(string)`. */
  function UnitFailureOf(error: string): (r: UnitResult)
    ensures !r.isSuccess && r.errors == [error]
  {
    UnitFailure([error])
  }

  /**
   * The shape every factory produces: a success carries a value and no
   * errors, a failure carries no value.
   */
  predicate WellFormed<T>(r: Result<T>)
  {
    (r.isSuccess ==> r.value.Some? && r.errors == []) && (!r.isSuccess ==> r.value == None)
  }

  /** Every `Result<T>` built by a factory is well formed, and the flag alone tells which factory built it. */
  lemma FactoriesWellFormed<T>(v: T, errors: seq<string>, error: string)
    ensures WellFormed(Success(v)) && WellFormed(Failure<T>(errors)) && WellFormed(FailureOf<T>(error))
    ensures Success(v) != Failure<T>(errors) && Success(v) != FailureOf<T>(error)
  {
  }
}
