/** Vocabulary shared by the components: results, bytes, stable error codes and
    the few facts about sums, concatenations and duplicate-free sequences that
    several proofs use. */
module Common {

  datatype Option<+T> = None | Some(value: T)

  datatype Result<+T, +E> = Ok(value: T) | Err(error: E)

  type Byte = b: int | 0 <= b < 256
  type Bytes = seq<Byte>
  type Id = string
  type Positive = n: nat | n > 0 witness 1

  /** The stable error codes the modelled operations raise. */
  datatype ErrorCode =
    | InvalidRequest | ProtocolError | Busy | Unsupported | Unavailable | Timeout | Internal
    | Cancelled | SessionExpired | PayloadTooLarge | StructRange | ValueError

  // ---- sums ----

  function Sum(xs: seq<nat>): nat {
    if xs == [] then 0 else xs[0] + Sum(xs[1..])
  }

  lemma {:induction false} SumAppend(xs: seq<nat>, ys: seq<nat>)
    ensures Sum(xs + ys) == Sum(xs) + Sum(ys)
  {
    if xs == [] {
      assert xs + ys == ys;
    } else {
      SumAppend(xs[1..], ys);
      assert (xs + ys)[1..] == xs[1..] + ys;
    }
  }

  // ---- concatenation ----

  function Flatten<T>(xss: seq<seq<T>>): seq<T> {
    if xss == [] then [] else xss[0] + Flatten(xss[1..])
  }

  lemma {:induction false} FlattenAppend<T>(xss: seq<seq<T>>, yss: seq<seq<T>>)
    ensures Flatten(xss + yss) == Flatten(xss) + Flatten(yss)
  {
    if xss == [] {
      assert xss + yss == yss;
    } else {
      FlattenFirst(xss);
      FlattenFirst(xss + yss);
      FlattenAppend(xss[1..], yss);
      hide Flatten;
      assert (xss + yss)[1..] == xss[1..] + yss;
    }
  }

  lemma FlattenFirst<T>(xss: seq<seq<T>>)
    requires xss != []
    ensures Flatten(xss) == xss[0] + Flatten(xss[1..])
  {
  }

  // ---- duplicate-free sequences ----

  ghost predicate Distinct<T(!new)>(xs: seq<T>) {
    forall i, j :: 0 <= i < j < |xs| ==> xs[i] != xs[j]
  }

  function Elements<T>(xs: seq<T>): set<T> {
    set x | x in xs
  }
}
