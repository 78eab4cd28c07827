/** The Python exception kinds the modelled code raises, and the Option/Result
    wrappers used for every operation that can raise one. */
module PyErrors {

  /** The exception classes raised by the modelled code (through `raiseAnError`,
      `raise`, or by Python/numpy on a bad index, key or shape). */
  datatype Error =
    | IOError
    | RuntimeError
    | KeyError
    | ValueError
    | IndexError
    | AttributeError

  datatype Option<+T> = None | Some(value: T) {
    predicate IsFailure() { None? }

    function PropagateFailure<U>(): Option<U>
      requires None?
    {
      None
    }

    function Extract(): T
      requires Some?
    {
      value
    }
  }

  /** Either a value or the exception that aborted the operation. */
  datatype Result<+T> = Ok(value: T) | Err(error: Error) {
    predicate IsFailure() { Err? }

    function PropagateFailure<U>(): Result<U>
      requires Err?
    {
      Err(error)
    }

    function Extract(): T
      requires Ok?
    {
      value
    }
  }

  /** An operation that returns nothing but may raise. */
  datatype Outcome = Pass | Fail(error: Error) {
    predicate IsFailure() { Fail? }

    function PropagateFailure<U>(): Result<U>
      requires Fail?
    {
      Err(error)
    }
  }

  function Need(condition: bool, error: Error): (r: Outcome)
    ensures r.Pass? <==> condition
  {
    if condition then Pass else Fail(error)
  }

  /** A loop over `rs[..k]` that raises the first error it meets and
      otherwise collects every value, in order. */
  function AllOrFirstError<T>(rs: seq<Result<T>>, k: nat): (r: Result<seq<T>>)
    requires k <= |rs|
    ensures r.Ok? <==> forall i | 0 <= i < k :: rs[i].Ok?
    ensures r.Ok? ==> |r.value| == k && forall i | 0 <= i < k :: rs[i] == Ok(r.value[i])
    ensures r.Err? ==> exists i | 0 <= i < k :: rs[i] == Err(r.error) && forall j | 0 <= j < i :: rs[j].Ok?
  {
    if k == 0 then Ok([])
    else
      var prev := AllOrFirstError(rs, k - 1);
      if prev.Err? then prev
      else if rs[k - 1].Err? then Err(rs[k - 1].error)
      else Ok(prev.value + [rs[k - 1].value])
  }

  /** Once a prefix fails, every longer prefix fails with the same error. */
  lemma {:induction false} FirstErrorStands<T>(rs: seq<Result<T>>, k: nat, k': nat)
    requires k <= k' <= |rs| && AllOrFirstError(rs, k).Err?
    ensures AllOrFirstError(rs, k') == AllOrFirstError(rs, k)
    decreases k' - k
  {
    if k < k' {
      FirstErrorStands(rs, k, k' - 1);
    }
  }
}
