/** Failure-carrying results and the few sequence facts that several components share. */
module Common {

  datatype Option<+T> = None | Some(value: T)

  /** The error classes the collaboration runtime raises, by class rather than by message. */
  datatype Error =
    | ValidationError
    | StaleRevisionError
    | SessionNotFoundError
    | SessionAlreadyExistsError
    | ReplayUnavailableError
    | AccessDeniedError
    | TaskExistsError
    | TaskCapacityError
    | GitOperationError

  datatype Result<+T> = Ok(value: T) | Err(error: Error)

  /** A full 40-character commit id; the shape is stated where it matters. */
  type Sha = string

  type Bytes = seq<bv8>

  function Last<T>(s: seq<T>): (x: T)
    requires |s| > 0
    ensures x in s
  {
    s[|s| - 1]
  }

  ghost predicate Distinct<T>(s: seq<T>) {
    forall i, j :: 0 <= i < j < |s| ==> s[i] != s[j]
  }

  ghost function Elements<T>(s: seq<T>): set<T> {
    set x | x in s
  }

  lemma {:induction false} DistinctSize<T>(s: seq<T>)
    requires Distinct(s)
    ensures |Elements(s)| == |s|
  {
    if s != [] {
      var front := s[..|s| - 1];
      DistinctSize(front);
      assert Elements(s) == Elements(front) + {Last(s)};
      assert Last(s) !in front;
    }
  }

  function Min(a: int, b: int): int {
    if a <= b then a else b
  }

  function Max(a: int, b: int): int {
    if a <= b then b else a
  }
}
