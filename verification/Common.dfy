/** Vocabulary shared by every module: identifiers, time, bytes, options and results. */
module Common {

  const UUID_SPACE: nat := 0x1_0000_0000_0000_0000_0000_0000_0000_0000

  /** A 128-bit identifier. */
  type Uuid = n: nat | n < UUID_SPACE

  /** Microseconds, the resolution of a database timestamp. */
  type Time = int

  const SECOND: Time := 1_000_000

  newtype Byte = n: int | 0 <= n < 256

  type Bytes = seq<Byte>

  datatype Option<+T> = None | Some(value: T)

  /** What a repository reports when it refuses a call. */
  datatype RepositoryError =
    | DatabaseError(detail: string)
    | NotFound
    | Conflict(reason: string)

  datatype Result<+T> = Ok(value: T) | Err(error: RepositoryError)

  /** COALESCE(first, second). */
  function Coalesce<T>(first: Option<T>, second: Option<T>): Option<T> {
    if first.Some? then first else second
  }

  function Max(a: int, b: int): int {
    if a < b then b else a
  }

  ghost predicate Distinct<T>(s: seq<T>) {
    forall i, j :: 0 <= i < j < |s| ==> s[i] != s[j]
  }

  lemma SubsetSize<T>(small: set<T>, big: set<T>)
    requires small <= big
    ensures |small| <= |big|
  {
    assert big == small + (big - small);
    assert |big| == |small| + |big - small|;
  }
}
