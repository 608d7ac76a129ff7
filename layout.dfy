/** How `model` cuts its flat parameter vector into one block per component kind
    (witch/core.py, lines 38-48 and 114-168). */
module Layout {
  import opened Results
  import opened Fields
  import PySeq

  /** The fixed kind order of the parameter vector. */
  const ORDER: seq<Kind> :=
    [Isobeta, Gnfw, A10, Gaussian, EGaussian, Uniform, Exponential, Powerlaw, PowerlawCos]

  /** The static arguments n_isobeta, ..., n_powerlaw_cos. */
  datatype Counts = Counts(
    nIsobeta: nat, nGnfw: nat, nA10: nat, nGaussian: nat, nEGaussian: nat,
    nUniform: nat, nExponential: nat, nPowerlaw: nat, nPowerlawCos: nat)

  /** The arity constants N_PAR_*; there is no separate one for powerlaw_cos. */
  datatype Arities = Arities(
    isobeta: nat, gnfw: nat, a10: nat, gaussian: nat, egaussian: nat,
    uniform: nat, exponential: nat, powerlaw: nat)

  /** One entry of the layout descriptor: a kind with its count and arity. */
  datatype Slot = Slot(kind: Kind, count: nat, arity: nat)

  /** The layout `model` follows: the kinds in ORDER, each with its count and
      its arity; powerlaw_cos takes the power-law arity. */
  function Descriptor(c: Counts, ar: Arities): (d: seq<Slot>)
    ensures |d| == |ORDER|
    ensures forall i :: 0 <= i < |ORDER| ==>
      d[i] == Slot(ORDER[i], Count(c, ORDER[i]), Arity(ar, ORDER[i]))
  {
    [Slot(Isobeta, c.nIsobeta, ar.isobeta), Slot(Gnfw, c.nGnfw, ar.gnfw),
     Slot(A10, c.nA10, ar.a10), Slot(Gaussian, c.nGaussian, ar.gaussian),
     Slot(EGaussian, c.nEGaussian, ar.egaussian), Slot(Uniform, c.nUniform, ar.uniform),
     Slot(Exponential, c.nExponential, ar.exponential), Slot(Powerlaw, c.nPowerlaw, ar.powerlaw),
     Slot(PowerlawCos, c.nPowerlawCos, ar.powerlaw)]
  }

  datatype ModelError =
    | ParamsTooShort     // a block's slice is shorter than count * arity, so reshape raises
    | BeamLargerThanMap  // a negative pad width, so jnp.pad raises

  function Count(c: Counts, k: Kind): nat
  {
    match k
    case Isobeta => c.nIsobeta
    case Gnfw => c.nGnfw
    case A10 => c.nA10
    case Gaussian => c.nGaussian
    case EGaussian => c.nEGaussian
    case Uniform => c.nUniform
    case Exponential => c.nExponential
    case Powerlaw => c.nPowerlaw
    case PowerlawCos => c.nPowerlawCos
  }

  function Arity(ar: Arities, k: Kind): nat
  {
    match k
    case Isobeta => ar.isobeta
    case Gnfw => ar.gnfw
    case A10 => ar.a10
    case Gaussian => ar.gaussian
    case EGaussian => ar.egaussian
    case Uniform => ar.uniform
    case Exponential => ar.exponential
    case Powerlaw => ar.powerlaw
    case PowerlawCos => ar.powerlaw
  }

  /** A block after reshaping: one row of parameters per instance. */
  type Matrix = seq<seq<real>>

  /** The (1, 1) zero array a kind keeps when its count is zero. */
  const PLACEHOLDER: Matrix := [[0.0]]

  /** Number of entries slot i consumes. */
  function Delta(d: seq<Slot>, i: nat): nat
    requires i < |d|
  {
    d[i].count * d[i].arity
  }

  /** Where the block of slot i starts: the entries consumed by all slots before it. */
  function Offset(d: seq<Slot>, i: nat): nat
    requires i <= |d|
  {
    if i == 0 then 0 else Offset(d, i - 1) + Delta(d, i - 1)
  }

  /** Entries consumed by all slots together. */
  function Total(d: seq<Slot>): nat
  {
    Offset(d, |d|)
  }

  lemma {:induction false} OffsetMonotone(d: seq<Slot>, i: nat, j: nat)
    requires i <= j <= |d|
    ensures Offset(d, i) <= Offset(d, j)
  {
    if i < j {
      OffsetMonotone(d, i, j - 1);
    }
  }

  lemma OffsetsBounded(d: seq<Slot>)
    ensures forall i :: 0 <= i <= |d| ==> Offset(d, i) <= Total(d)
  {
    forall i | 0 <= i <= |d| ensures Offset(d, i) <= Total(d) {
      OffsetMonotone(d, i, |d|);
    }
  }

  /** Row-major reshape of n * a entries into n rows of a entries. */
  function Reshape(s: seq<real>, n: nat, a: nat): Matrix
    requires |s| == n * a
  {
    if n == 0 then [] else [s[..a]] + Reshape(s[a..], n - 1, a)
  }

  /** The inverse of Reshape: the rows laid end to end. */
  function Flatten(m: Matrix): seq<real>
  {
    if m == [] then [] else m[0] + Flatten(m[1..])
  }

  lemma {:induction false} FlattenReshape(s: seq<real>, n: nat, a: nat)
    requires |s| == n * a
    ensures |Reshape(s, n, a)| == n
    ensures forall j :: 0 <= j < n ==> |Reshape(s, n, a)[j]| == a
    ensures Flatten(Reshape(s, n, a)) == s
  {
    if n > 0 {
      FlattenReshape(s[a..], n - 1, a);
      assert s[..a] + s[a..] == s;
    }
  }

  lemma {:induction false} ReshapeRow(s: seq<real>, n: nat, a: nat, j: nat)
    requires |s| == n * a
    requires j < n
    ensures j * a + a <= n * a
    ensures |Reshape(s, n, a)| == n
    ensures Reshape(s, n, a)[j] == s[j * a .. j * a + a]
  {
    FlattenReshape(s, n, a);
    if j > 0 {
      ReshapeRow(s[a..], n - 1, a, j - 1);
      assert (j - 1) * a + a == j * a;
    }
  }

  /** The block of slot i, as `model` builds it. */
  function Block(params: seq<real>, d: seq<Slot>, i: nat): Matrix
    requires i < |d|
    requires Offset(d, i + 1) <= |params|
  {
    if d[i].count == 0 then PLACEHOLDER
    else Reshape(params[Offset(d, i) .. Offset(d, i + 1)], d[i].count, d[i].arity)
  }

  /** Every slot's block, or the error reshape raises when the vector is too short. */
  function Blocks(params: seq<real>, d: seq<Slot>): (r: Result<seq<Matrix>, ModelError>)
    ensures r.Success? ==> |r.value| == |d|
  {
    if |params| < Total(d) then Failure(ParamsTooShort)
    else
      OffsetsBounded(d);
      Success(seq(|d|, i requires 0 <= i < |d| => Block(params, d, i)))
  }

  /** A slot with instances reshapes the slice between its offsets. */
  lemma BlockOfSlice(params: seq<real>, d: seq<Slot>, i: nat)
    requires i < |d| && Offset(d, i + 1) <= |params| && d[i].count != 0
    ensures Offset(d, i) + Delta(d, i) == Offset(d, i + 1)
    ensures |PySeq.Slice(params, Offset(d, i), Offset(d, i + 1))| == Delta(d, i)
    ensures Block(params, d, i) == Reshape(PySeq.Slice(params, Offset(d, i), Offset(d, i + 1)), d[i].count, d[i].arity)
  {
  }

  /** Lines 114-168: nine conditional blocks advancing a running `start`. */
  method SliceParams(params: seq<real>, c: Counts, ar: Arities) returns (r: Result<seq<Matrix>, ModelError>)
    ensures r == Blocks(params, Descriptor(c, ar))
  {
    var d := Descriptor(c, ar);
    var blocks := seq(|ORDER|, _ => PLACEHOLDER);
    var start := 0;
    for i := 0 to |ORDER|
      invariant start == Offset(d, i) <= |params|
      invariant |blocks| == |ORDER|
      invariant forall j :: 0 <= j < i ==> Built(blocks, params, d, j)
      invariant forall j :: i <= j < |ORDER| ==> blocks[j] == PLACEHOLDER
    {
      var n := d[i].count;
      assert Offset(d, i + 1) == start + n * d[i].arity;
      var block := PLACEHOLDER;
      if n != 0 {
        var a := d[i].arity;
        var delta := n * a;
        var slice := PySeq.Slice(params, start, start + delta);
        if |slice| != delta {
          OffsetMonotone(d, i + 1, |d|);
          return Failure(ParamsTooShort);
        }
        BlockOfSlice(params, d, i);
        block := Reshape(slice, n, a);
        start := start + delta;
      }
      assert start == Offset(d, i + 1) <= |params|;
      assert block == Block(params, d, i);
      ghost var before := blocks;
      blocks := blocks[i := block];
      forall j | 0 <= j <= i ensures Built(blocks, params, d, j) {
        if j < i {
          assert Built(before, params, d, j);
        }
      }
    }
    OffsetsBounded(d);
    forall i | 0 <= i < |d| ensures blocks[i] == Block(params, d, i) {
      assert Built(blocks, params, d, i);
    }
    assert blocks == seq(|d|, i requires 0 <= i < |d| => Block(params, d, i));
    return Success(blocks);
  }

  /** Position j of the running list holds the block of slot j. */
  predicate Built(blocks: seq<Matrix>, params: seq<real>, d: seq<Slot>, j: nat)
    requires j < |d| == |blocks|
  {
    Offset(d, j + 1) <= |params| && blocks[j] == Block(params, d, j)
  }

  /** A successful layout holds, at position i, the block of slot i. */
  lemma BlockAt(params: seq<real>, d: seq<Slot>, i: nat)
    requires i < |d| && Blocks(params, d).Success?
    ensures Offset(d, i) + Delta(d, i) == Offset(d, i + 1) <= Total(d) <= |params|
    ensures |Blocks(params, d).value| == |d|
    ensures Blocks(params, d).value[i] == Block(params, d, i)
  {
    OffsetsBounded(d);
  }

  lemma SliceOfSlice(s: seq<real>, lo: nat, hi: nat, lo': nat, hi': nat)
    requires lo <= hi <= |s| && lo' <= hi' <= hi - lo
    ensures s[lo..hi][lo'..hi'] == s[lo + lo' .. lo + hi']
  {
    forall k | 0 <= k < hi' - lo' ensures s[lo..hi][lo'..hi'][k] == s[lo + lo' .. lo + hi'][k] {
    }
  }

  lemma BlockRow(params: seq<real>, d: seq<Slot>, i: nat, j: nat)
    requires i < |d| && Offset(d, i + 1) <= |params|
    requires j < d[i].count
    ensures |Block(params, d, i)| == d[i].count
    ensures Offset(d, i) + j * d[i].arity + d[i].arity <= Offset(d, i + 1)
    ensures Block(params, d, i)[j] ==
      params[Offset(d, i) + j * d[i].arity .. Offset(d, i) + j * d[i].arity + d[i].arity]
  {
    var n, a := d[i].count, d[i].arity;
    var o, o' := Offset(d, i), Offset(d, i + 1);
    assert o' == o + n * a;
    assert Block(params, d, i) == Reshape(params[o .. o'], n, a);
    RowOfSlice(params, o, o', n, a, j);
  }

  /** Row j of a reshaped slice is the slice's j-th run of a entries. */
  lemma RowOfSlice(params: seq<real>, o: nat, o': nat, n: nat, a: nat, j: nat)
    requires o <= o' <= |params| && o' - o == n * a && j < n
    ensures o + j * a + a <= o'
    ensures |Reshape(params[o .. o'], n, a)| == n
    ensures Reshape(params[o .. o'], n, a)[j] == params[o + j * a .. o + j * a + a]
  {
    var s := params[o .. o'];
    var lo := j * a;
    ReshapeRow(s, n, a, j);
    SliceOfSlice(params, o, o', lo, lo + a);
  }

  /** Instance j of slot i reads the `arity` entries starting at its block's
      offset plus j * arity. */
  lemma InstanceRow(params: seq<real>, d: seq<Slot>, i: nat, j: nat)
    requires i < |d| && Total(d) <= |params|
    requires j < d[i].count
    ensures Blocks(params, d).Success?
    ensures |Blocks(params, d).value| == |d|
    ensures |Blocks(params, d).value[i]| == d[i].count
    ensures Offset(d, i) + j * d[i].arity + d[i].arity <= Offset(d, i + 1) <= |params|
    ensures Blocks(params, d).value[i][j] ==
      params[Offset(d, i) + j * d[i].arity .. Offset(d, i) + j * d[i].arity + d[i].arity]
  {
    BlockAt(params, d, i);
    BlockRow(params, d, i, j);
  }

  /** Each block has count rows of arity entries; a zero-count slot keeps its
      placeholder and consumes nothing. */
  lemma BlockShape(params: seq<real>, d: seq<Slot>, i: nat)
    requires i < |d| && Blocks(params, d).Success?
    ensures Offset(d, i) + Delta(d, i) == Offset(d, i + 1) <= |params|
    ensures var b := Blocks(params, d).value[i];
      d[i].count == 0 ==> Offset(d, i + 1) == Offset(d, i) && b == PLACEHOLDER
    ensures var b := Blocks(params, d).value[i];
      d[i].count > 0 ==>
        && |b| == d[i].count
        && (forall j :: 0 <= j < |b| ==> |b[j]| == d[i].arity)
        && Flatten(b) == params[Offset(d, i) .. Offset(d, i + 1)]
  {
    BlockAt(params, d, i);
    if d[i].count > 0 {
      FlattenReshape(params[Offset(d, i) .. Offset(d, i + 1)], d[i].count, d[i].arity);
    }
  }

  /** The parameters actually read by the first i slots, block after block. */
  function Consumed(blocks: seq<Matrix>, d: seq<Slot>, i: nat): seq<real>
    requires i <= |d| == |blocks|
  {
    if i == 0 then []
    else Consumed(blocks, d, i - 1) + (if d[i - 1].count == 0 then [] else Flatten(blocks[i - 1]))
  }

  /** The blocks are consecutive and disjoint, and together they are exactly
      the first Total entries of the vector. */
  lemma BlocksTile(params: seq<real>, d: seq<Slot>, i: nat)
    requires i <= |d| && Blocks(params, d).Success?
    ensures |Blocks(params, d).value| == |d|
    ensures Offset(d, i) <= |params|
    ensures Consumed(Blocks(params, d).value, d, i) == params[..Offset(d, i)]
  {
    var b := Blocks(params, d).value;
    assert Total(d) <= |params|;
    forall k | 0 <= k < |d| ensures OwnSlice(b, d, params, k) {
      BlockShape(params, d, k);
    }
    Tiles(b, d, params, i);
  }

  /** Block k, when slot k has instances, flattens to the entries between its offsets. */
  predicate OwnSlice(b: seq<Matrix>, d: seq<Slot>, params: seq<real>, k: nat)
    requires k < |d| == |b|
  {
    d[k].count > 0 ==> Offset(d, k + 1) <= |params| && Flatten(b[k]) == params[Offset(d, k) .. Offset(d, k + 1)]
  }

  /** Blocks that each flatten to their own slice tile the vector's prefix. */
  lemma {:induction false} Tiles(b: seq<Matrix>, d: seq<Slot>, params: seq<real>, i: nat)
    requires |b| == |d| && i <= |d| && Total(d) <= |params|
    requires forall k :: 0 <= k < |d| ==> OwnSlice(b, d, params, k)
    ensures Offset(d, i) <= |params|
    ensures Consumed(b, d, i) == params[..Offset(d, i)]
  {
    OffsetMonotone(d, i, |d|);
    if i > 0 {
      var lo, hi := Offset(d, i - 1), Offset(d, i);
      assert hi == lo + d[i - 1].count * d[i - 1].arity;
      Tiles(b, d, params, i - 1);
      assert OwnSlice(b, d, params, i - 1);
      if d[i - 1].count == 0 {
        assert Consumed(b, d, i) == Consumed(b, d, i - 1) + [];
        assert params[lo..hi] == [];
      } else {
        assert Consumed(b, d, i) == Consumed(b, d, i - 1) + params[lo..hi];
      }
      PySeq.PrefixThenSlice(params, Consumed(b, d, i - 1), lo, hi);
    } else {
      assert Consumed(b, d, 0) == [] == params[..0];
    }
  }

  /** Entries beyond Total are never read: appending to the vector changes no block. */
  lemma ExtraParamsIgnored(params: seq<real>, extra: seq<real>, d: seq<Slot>)
    requires Total(d) <= |params|
    ensures Blocks(params + extra, d) == Blocks(params, d)
  {
    OffsetsBounded(d);
    forall i | 0 <= i < |d|
      ensures Block(params + extra, d, i) == Block(params, d, i)
    {
      assert (params + extra)[Offset(d, i) .. Offset(d, i + 1)]
          == params[Offset(d, i) .. Offset(d, i + 1)];
    }
    assert seq(|d|, i requires 0 <= i < |d| => Block(params + extra, d, i))
        == seq(|d|, i requires 0 <= i < |d| => Block(params, d, i));
  }
}
