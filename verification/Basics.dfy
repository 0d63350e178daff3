/** Types shared by every component of the store. */
module Basics {
  datatype Option<+T> = None | Some(value: T)

  /** A C++ `char` holds one byte; a `std::string` is any sequence of them. */
  type Octet = c: char | c as int < 256 witness 'a'
  type Text = seq<Octet>

  /** Error codes that the modelled operations can return. */
  datatype ErrorCode = InvalidArgument | KeyNotFound | RegionNotFound | StoreNotFound | NotLeader | StaleEpoch | Internal

  datatype Status = Ok | Error(code: ErrorCode)
  datatype Result<+T> = Success(value: T) | Failure(code: ErrorCode)

  /** The largest 64-bit unsigned value: ids, terms and indices stay below it. */
  const MAX_U64: nat := 0xFFFF_FFFF_FFFF_FFFF

  /** A result with `xs` put before its elements. */
  function Prepend<T>(xs: seq<T>, r: Result<seq<T>>): Result<seq<T>> {
    match r
    case Failure(e) => Failure(e)
    case Success(rest) => Success(xs + rest)
  }

  ghost predicate Distinct(ids: seq<nat>) {
    forall i, j :: 0 <= i < j < |ids| ==> ids[i] != ids[j]
  }

  lemma Associate(a: Text, b: Text, c: Text)
    ensures a + b + c == a + (b + c)
  {}

  function Min(a: nat, b: nat): nat {
    if a < b then a else b
  }
}
