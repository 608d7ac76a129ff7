/** Signature bookkeeping of witch/core.py: the argnum shifts (lines 426-434)
    and the static-argument indices found by `_get_static` (lines 54-59, 436-440). */
module Signatures {

  /** Parameter names of `model`, in the order inspect.signature lists them;
      the last one is the variadic *params. */
  const MODEL_SIGNATURE: seq<string> :=
    ["xyz", "n_isobeta", "n_gnfw", "n_a10", "n_gaussian", "n_egaussian", "n_uniform",
     "n_exponential", "n_powerlaw", "n_powerlaw_cos", "dz", "beam", "params"]

  /** The twelve leading parameters every wrapper shares with `model`. */
  const LEADING: seq<string> := MODEL_SIGNATURE[..12]

  const MODEL_TOD_SIGNATURE: seq<string> := LEADING + ["dx", "dy", "params"]
  const MODEL_GRAD_SIGNATURE: seq<string> := LEADING + ["argnums", "params"]
  const MODEL_TOD_GRAD_SIGNATURE: seq<string> := LEADING + ["dx", "dy", "argnums", "params"]

  /** The default prefix_list of `_get_static`. */
  const STATIC_PREFIXES: seq<string> := ["n_", "argnums"]

  /** `len(signature.parameters) - 1`: one less than the parameter count, the
      one being *params. */
  function ArgnumShift(signature: seq<string>): int
  {
    |signature| - 1
  }

  const ARGNUM_SHIFT: int := ArgnumShift(MODEL_SIGNATURE)
  const ARGNUM_SHIFT_TOD: int := ArgnumShift(MODEL_TOD_SIGNATURE)

  /** A positional argument of a call: one of the named leading parameters or
      one entry of *params. */
  datatype Arg = Leading(name: string) | Param(value: real)

  /** The positional arguments a call binds, in the numbering jax.jacfwd's
      argnums uses. */
  function PositionalArgs(signature: seq<string>, params: seq<real>): (args: seq<Arg>)
    requires |signature| >= 1
    ensures |args| == |signature| - 1 + |params|
  {
    seq(|signature| - 1, i requires 0 <= i < |signature| - 1 => Leading(signature[i]))
      + seq(|params|, i requires 0 <= i < |params| => Param(params[i]))
  }

  /** Positional argument number shift + r is entry r of *params, and every
      argument numbered below the shift is a leading one. */
  lemma ShiftSelectsParam(signature: seq<string>, params: seq<real>, r: nat)
    requires |signature| >= 1 && r < |params|
    ensures PositionalArgs(signature, params)[ArgnumShift(signature) + r] == Param(params[r])
    ensures forall a :: 0 <= a < ArgnumShift(signature) ==> PositionalArgs(signature, params)[a].Leading?
  {
  }

  /** The shifts are 12 for `model` and 14 for `model_tod`: the number of
      parameters listed before *params. */
  lemma Shifts()
    ensures ARGNUM_SHIFT == 12 && ARGNUM_SHIFT_TOD == 14
    ensures MODEL_SIGNATURE[ARGNUM_SHIFT] == "params" && "params" !in MODEL_SIGNATURE[..ARGNUM_SHIFT]
    ensures MODEL_TOD_SIGNATURE[ARGNUM_SHIFT_TOD] == "params" && "params" !in MODEL_TOD_SIGNATURE[..ARGNUM_SHIFT_TOD]
  {
    assert MODEL_SIGNATURE[..ARGNUM_SHIFT] == LEADING;
    assert MODEL_TOD_SIGNATURE[..ARGNUM_SHIFT_TOD] == LEADING + ["dx", "dy"];
  }

  /** `np.char.startswith(name, prefix)`. */
  predicate StartsWith(name: string, prefix: string)
  {
    |prefix| <= |name| && name[..|prefix|] == prefix
  }

  predicate AnyPrefix(name: string, prefixes: seq<string>)
  {
    exists q :: 0 <= q < |prefixes| && StartsWith(name, prefixes[q])
  }

  /** The boolean mask: which names start with one of the prefixes. */
  function Mask(names: seq<string>, prefixes: seq<string>): seq<bool>
  {
    seq(|names|, i requires 0 <= i < |names| => AnyPrefix(names[i], prefixes))
  }

  /** `np.where(mask)[0]`: the positions holding true, in order. */
  function Where(mask: seq<bool>): seq<nat>
  {
    if mask == [] then []
    else Where(mask[..|mask| - 1]) + if mask[|mask| - 1] then [|mask| - 1] else []
  }

  lemma {:induction false} WhereSpec(mask: seq<bool>)
    ensures forall j, j' :: 0 <= j < j' < |Where(mask)| ==> Where(mask)[j] < Where(mask)[j']
    ensures forall i :: i in Where(mask) <==> 0 <= i < |mask| && mask[i]
  {
    if mask != [] {
      var init := mask[..|mask| - 1];
      WhereSpec(init);
      assert forall i :: 0 <= i < |init| ==> init[i] == mask[i];
      assert forall j :: 0 <= j < |Where(init)| ==> Where(init)[j] in Where(init);
    }
  }

  /** Lines 54-59: `_get_static`. */
  method GetStatic(names: seq<string>, prefixes: seq<string>) returns (idx: seq<nat>)
    ensures idx == Where(Mask(names, prefixes))
    ensures forall j, j' :: 0 <= j < j' < |idx| ==> idx[j] < idx[j']
    ensures forall i :: i in idx <==> 0 <= i < |names| && AnyPrefix(names[i], prefixes)
  {
    var mask := seq(|names|, _ => false);
    for p := 0 to |prefixes|
      invariant |mask| == |names|
      invariant forall i :: 0 <= i < |names| ==>
        (mask[i] <==> exists q :: 0 <= q < p && StartsWith(names[i], prefixes[q]))
    {
      mask := seq(|names|, i requires 0 <= i < |names| => mask[i] || StartsWith(names[i], prefixes[p]));
    }
    assert mask == Mask(names, prefixes);
    idx := [];
    for i := 0 to |names|
      invariant idx == Where(mask[..i])
    {
      assert mask[..i + 1][..i] == mask[..i];
      if mask[i] {
        idx := idx + [i];
      }
    }
    assert mask[..|names|] == mask;
    WhereSpec(mask);
  }

  predicate Increasing(s: seq<nat>)
  {
    forall j, j' :: 0 <= j < j' < |s| ==> s[j] < s[j']
  }

  /** A strictly increasing sequence is determined by its elements. */
  lemma {:induction false} IncreasingUnique(a: seq<nat>, b: seq<nat>)
    requires Increasing(a) && Increasing(b)
    requires forall x :: x in a <==> x in b
    ensures a == b
  {
    if a != [] { assert a[0] in a; }
    if b != [] { assert b[0] in b; }
    if a != [] && b != [] {
      assert a[0] in b && b[0] in a;
      assert a[0] == b[0];
      forall x ensures x in a[1..] <==> x in b[1..] {
        assert x in a[1..] <==> x in a && x != a[0];
        assert x in b[1..] <==> x in b && x != b[0];
      }
      IncreasingUnique(a[1..], b[1..]);
      assert a == [a[0]] + a[1..] && b == [b[0]] + b[1..];
    }
  }

  lemma FirstCharDiffers(name: string, prefix: string)
    requires |name| > 0 && |prefix| > 0 && name[0] != prefix[0]
    ensures !StartsWith(name, prefix)
  {
    if |prefix| <= |name| {
      assert name[..|prefix|][0] == name[0];
    }
  }

  /** Where(mask) is the increasing list of the positions of its true entries. */
  lemma WhereIs(mask: seq<bool>, expected: seq<nat>)
    requires Increasing(expected)
    requires forall i :: i in expected <==> 0 <= i < |mask| && mask[i]
    ensures Where(mask) == expected
  {
    WhereSpec(mask);
    IncreasingUnique(Where(mask), expected);
  }

  /** Of the shared leading names, exactly the nine counts are static, and of
      the trailing names only `argnums` is. */
  lemma LeadingMask()
    ensures Mask(LEADING, STATIC_PREFIXES) ==
      [false, true, true, true, true, true, true, true, true, true, false, false]
    ensures !AnyPrefix("params", STATIC_PREFIXES)
    ensures !AnyPrefix("dx", STATIC_PREFIXES) && !AnyPrefix("dy", STATIC_PREFIXES)
    ensures AnyPrefix("argnums", STATIC_PREFIXES)
  {
    var counts := [false, true, true, true, true, true, true, true, true, true, false, false];
    forall i | 0 <= i < 12 ensures AnyPrefix(LEADING[i], STATIC_PREFIXES) == counts[i] {
      if counts[i] {
        assert StartsWith(LEADING[i], STATIC_PREFIXES[0]);
      } else {
        FirstCharDiffers(LEADING[i], STATIC_PREFIXES[0]);
        FirstCharDiffers(LEADING[i], STATIC_PREFIXES[1]);
      }
    }
    FirstCharDiffers("params", STATIC_PREFIXES[0]);
    FirstCharDiffers("params", STATIC_PREFIXES[1]);
    FirstCharDiffers("dx", STATIC_PREFIXES[0]);
    FirstCharDiffers("dx", STATIC_PREFIXES[1]);
    FirstCharDiffers("dy", STATIC_PREFIXES[0]);
    FirstCharDiffers("dy", STATIC_PREFIXES[1]);
    assert StartsWith("argnums", STATIC_PREFIXES[1]);
  }

  lemma MaskAppend(names: seq<string>, tail: seq<string>, prefixes: seq<string>)
    ensures Mask(names + tail, prefixes) == Mask(names, prefixes) + Mask(tail, prefixes)
  {
  }

  const COUNT_MASK: seq<bool> := [false, true, true, true, true, true, true, true, true, true, false, false]
  const COUNT_INDICES: seq<nat> := [1, 2, 3, 4, 5, 6, 7, 8, 9]

  lemma CountMaskWhere()
    ensures Where(COUNT_MASK) == COUNT_INDICES
  {
    WhereIs(COUNT_MASK, COUNT_INDICES);
  }

  lemma WhereSnoc(m: seq<bool>, b: bool)
    ensures Where(m + [b]) == Where(m) + if b then [|m|] else []
  {
    assert (m + [b])[..|m|] == m;
  }

  lemma TodTailMask()
    ensures Mask(["dx", "dy", "params"], STATIC_PREFIXES) == [false, false, false]
  {
    LeadingMask();
  }

  lemma GradTailMask()
    ensures Mask(["argnums", "params"], STATIC_PREFIXES) == [true, false]
  {
    LeadingMask();
  }

  lemma TodGradTailMask()
    ensures Mask(["dx", "dy", "argnums", "params"], STATIC_PREFIXES) == [false, false, true, false]
  {
    LeadingMask();
  }

  lemma ModelStatic()
    ensures Where(Mask(MODEL_SIGNATURE, STATIC_PREFIXES)) == COUNT_INDICES
  {
    LeadingMask();
    assert MODEL_SIGNATURE == LEADING + ["params"];
    MaskAppend(LEADING, ["params"], STATIC_PREFIXES);
    assert Mask(["params"], STATIC_PREFIXES) == [false];
    CountMaskWhere();
    WhereSnoc(COUNT_MASK, false);
  }

  lemma ModelTodStatic()
    ensures Where(Mask(MODEL_TOD_SIGNATURE, STATIC_PREFIXES)) == COUNT_INDICES
  {
    var tail := ["dx", "dy", "params"];
    LeadingMask();
    TodTailMask();
    MaskAppend(LEADING, tail, STATIC_PREFIXES);
    assert Mask(MODEL_TOD_SIGNATURE, STATIC_PREFIXES) == COUNT_MASK + [false, false, false];
    WhereTail(COUNT_MASK, [false, false, false]);
    assert [false, false, false][..2] == [false, false] && [false, false][..1] == [false];
    assert TailTrues(COUNT_MASK, [false]) == [];
    assert TailTrues(COUNT_MASK, [false, false]) == [];
    assert TailTrues(COUNT_MASK, [false, false, false]) == [];
    CountMaskWhere();
  }

  lemma ModelGradStatic()
    ensures Where(Mask(MODEL_GRAD_SIGNATURE, STATIC_PREFIXES)) == COUNT_INDICES + [12]
  {
    var tail := ["argnums", "params"];
    LeadingMask();
    GradTailMask();
    MaskAppend(LEADING, tail, STATIC_PREFIXES);
    assert Mask(MODEL_GRAD_SIGNATURE, STATIC_PREFIXES) == COUNT_MASK + [true, false];
    WhereTail(COUNT_MASK, [true, false]);
    CountMaskWhere();
  }

  lemma ModelTodGradStatic()
    ensures Where(Mask(MODEL_TOD_GRAD_SIGNATURE, STATIC_PREFIXES)) == COUNT_INDICES + [14]
  {
    var tail := ["dx", "dy", "argnums", "params"];
    LeadingMask();
    TodGradTailMask();
    MaskAppend(LEADING, tail, STATIC_PREFIXES);
    assert Mask(MODEL_TOD_GRAD_SIGNATURE, STATIC_PREFIXES) == COUNT_MASK + [false, false, true, false];
    WhereTail(COUNT_MASK, [false, false, true, false]);
    assert [false, false, true, false][..3] == [false, false, true];
    assert [false, false, true][..2] == [false, false] && [false, false][..1] == [false];
    assert TailTrues(COUNT_MASK, [false]) == [];
    assert TailTrues(COUNT_MASK, [false, false]) == [];
    assert TailTrues(COUNT_MASK, [false, false, true]) == [14];
    assert TailTrues(COUNT_MASK, [false, false, true, false]) == [14];
    CountMaskWhere();
  }

  /** The true positions of a mask's tail, counted from the start of the whole mask. */
  function TailTrues(m: seq<bool>, t: seq<bool>): seq<nat>
  {
    if t == [] then []
    else TailTrues(m, t[..|t| - 1]) + if t[|t| - 1] then [|m| + |t| - 1] else []
  }

  /** Appending a tail appends the positions of its true entries. */
  lemma {:induction false} WhereTail(m: seq<bool>, t: seq<bool>)
    ensures Where(m + t) == Where(m) + TailTrues(m, t)
  {
    if t == [] {
      assert m + t == m;
    } else {
      var init := t[..|t| - 1];
      WhereTail(m, init);
      assert m + t == (m + init) + [t[|t| - 1]];
      WhereSnoc(m + init, t[|t| - 1]);
    }
  }

  /** The static argument indices of the four jitted functions: the nine
      counts, plus `argnums` in the gradient wrappers. */
  lemma StaticArgnums()
    ensures Where(Mask(MODEL_SIGNATURE, STATIC_PREFIXES)) == [1, 2, 3, 4, 5, 6, 7, 8, 9]
    ensures Where(Mask(MODEL_TOD_SIGNATURE, STATIC_PREFIXES)) == [1, 2, 3, 4, 5, 6, 7, 8, 9]
    ensures Where(Mask(MODEL_GRAD_SIGNATURE, STATIC_PREFIXES)) == [1, 2, 3, 4, 5, 6, 7, 8, 9, 12]
    ensures Where(Mask(MODEL_TOD_GRAD_SIGNATURE, STATIC_PREFIXES)) == [1, 2, 3, 4, 5, 6, 7, 8, 9, 14]
  {
    ModelStatic();
    ModelTodStatic();
    ModelGradStatic();
    ModelTodGradStatic();
  }
}
