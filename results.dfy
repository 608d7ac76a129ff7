/** Error-carrying results and optional values shared by the model. */
module Results {

  datatype Option<+T> = None | Some(value: T) {
    function GetOr(default: T): T {
      match this
      case Some(v) => v
      case None => default
    }
  }

  datatype Result<+R, +E> = Success(value: R) | Failure(error: E)
}

/** Python's slicing of a list or one-dimensional array with non-negative bounds. */
module PySeq {

  /** `s[lo:hi]` in Python: both bounds are clamped to the length, and an empty
      slice results when the clamped upper bound falls below the lower one. */
  function Slice<T>(s: seq<T>, lo: nat, hi: nat): (r: seq<T>)
    ensures hi <= |s| && lo <= hi ==> r == s[lo..hi]
    ensures |r| <= |s|
    ensures lo <= hi ==> (|r| == hi - lo <==> hi <= |s| || lo == hi)
  {
    var a := if lo < |s| then lo else |s|;
    var b := if hi < |s| then hi else |s|;
    if b < a then [] else s[a..b]
  }

  /** Sum of a sequence of counts, folded from the back as a running total is. */
  function Sum(xs: seq<nat>): nat
  {
    if xs == [] then 0 else Sum(xs[..|xs| - 1]) + xs[|xs| - 1]
  }

  /** A prefix followed by the next slice is the longer prefix. */
  lemma PrefixThenSlice<T>(s: seq<T>, prefix: seq<T>, lo: nat, hi: nat)
    requires lo <= hi <= |s| && prefix == s[..lo]
    ensures prefix + s[lo..hi] == s[..hi]
  {
    assert s[..lo] + s[lo..hi] == s[..hi];
  }

  /** Concatenation of a sequence of sequences, in order. */
  function Concat<T>(xss: seq<seq<T>>): seq<T>
  {
    if xss == [] then [] else Concat(xss[..|xss| - 1]) + xss[|xss| - 1]
  }
}
