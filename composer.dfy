/** The composer `model` and its TOD wrapper `model_tod` (witch/core.py, lines 62-272). */
module Composer {
  import opened Results
  import opened Fields
  import opened Layout

  /** The shape of the sparse coordinate grid xyz: xyz[0].shape[0],
      xyz[1].shape[1] and xyz[2].shape[2]. */
  datatype GridShape = GridShape(nx: nat, ny: nat, nz: nat)

  /** Position of the Gaussian kind in ORDER. */
  const GAUSSIAN_SLOT: nat := 3

  /** The first n instance rows of a block as additive profile evaluations. */
  function Profiles(k: Kind, block: Matrix, n: nat): seq<Field>
    requires n <= |block|
  {
    seq(n, r requires 0 <= r < n => Profile(k, block[r]))
  }

  /** The first n instance rows of a block as updates of kind k. */
  function Steps(k: Kind, block: Matrix, n: nat): seq<(Kind, seq<real>)>
    requires n <= |block|
  {
    seq(n, r requires 0 <= r < n => (k, block[r]))
  }

  /** `for i in range(n): acc = jnp.add(acc, profile(*block[i], xyz))`. */
  function AddProfiles(acc: Field, k: Kind, block: Matrix, n: nat): Field
    requires n <= |block|
  {
    if n == 0 then acc else Sum(AddProfiles(acc, k, block, n - 1), Profile(k, block[n - 1]))
  }

  /** `for i in range(n): acc = add_kind(acc, xyz, *block[i])`. */
  function ApplyUpdates(acc: Field, k: Kind, block: Matrix, n: nat): Field
    requires n <= |block|
  {
    if n == 0 then acc else Updated(k, ApplyUpdates(acc, k, block, n - 1), block[n - 1])
  }

  /** One kind's instance loop. */
  function Contribute(acc: Field, s: Slot, block: Matrix): Field
    requires s.count <= |block|
  {
    if Additive(s.kind) then AddProfiles(acc, s.kind, block, s.count)
    else ApplyUpdates(acc, s.kind, block, s.count)
  }

  /** Every slot has at least as many rows as its instance loop reads. */
  predicate Fits(blocks: seq<Matrix>, d: seq<Slot>)
  {
    |blocks| == |d| && forall i :: 0 <= i < |d| ==> d[i].count <= |blocks[i]|
  }

  /** The pressure accumulator after the instance loops of the first i slots. */
  function Accumulated(blocks: seq<Matrix>, d: seq<Slot>, i: nat): Field
    requires Fits(blocks, d) && i <= |d|
  {
    if i == 0 then Zeros else Contribute(Accumulated(blocks, d, i - 1), d[i - 1], blocks[i - 1])
  }

  lemma BlocksFit(params: seq<real>, d: seq<Slot>)
    requires Blocks(params, d).Success?
    ensures Fits(Blocks(params, d).value, d)
  {
    forall i | 0 <= i < |d| ensures d[i].count <= |Blocks(params, d).value[i]| {
      BlockShape(params, d, i);
    }
  }

  /** Lines 170-196: the nine instance loops over the pressure accumulator. */
  method AccumulatePressure(blocks: seq<Matrix>, d: seq<Slot>) returns (pressure: Field)
    requires Fits(blocks, d)
    ensures pressure == Accumulated(blocks, d, |d|)
  {
    pressure := Zeros;
    for i := 0 to |d|
      invariant pressure == Accumulated(blocks, d, i)
    {
      var s := d[i];
      ghost var before := pressure;
      for r := 0 to s.count
        invariant pressure == (if Additive(s.kind) then AddProfiles(before, s.kind, blocks[i], r)
                                                   else ApplyUpdates(before, s.kind, blocks[i], r))
      {
        if Additive(s.kind) {
          pressure := Sum(pressure, Profile(s.kind, blocks[i][r]));
        } else {
          pressure := Updated(s.kind, pressure, blocks[i][r]);
        }
      }
    }
  }

  /** `int((target - size) / 2)`: Python's int() truncates the true quotient toward zero. */
  function LeadingPad(target: nat, size: nat): int
  {
    var diff := target - size;
    if diff >= 0 then diff / 2 else -((-diff) / 2)
  }

  /** `target - size - leading`. */
  function TrailingPad(target: nat, size: nat): int
  {
    target - size - LeadingPad(target, size)
  }

  /** Lines 201-210: jnp.pad of the beam with the leading and trailing widths
      of each axis, which raises on a negative width. */
  function PadBeam(beam: Beam, rows: nat, cols: nat): (r: Result<Beam, ModelError>)
    ensures r.Success? <==> beam.rows <= rows && beam.cols <= cols
    ensures r.Success? ==> r.value.rows == rows && r.value.cols == cols
    ensures r.Failure? ==> r.error == BeamLargerThanMap
  {
    var top, bottom := LeadingPad(rows, beam.rows), TrailingPad(rows, beam.rows);
    var left, right := LeadingPad(cols, beam.cols), TrailingPad(cols, beam.cols);
    if top < 0 || bottom < 0 || left < 0 || right < 0 then Failure(BeamLargerThanMap)
    else
      var h, w := top + beam.rows + bottom, left + beam.cols + right;
      Success(Array2(h, w,
        seq(h, i requires 0 <= i < h =>
          seq(w, j requires 0 <= j < w =>
            if top <= i < top + beam.rows && left <= j < left + beam.cols
            then beam.data[i - top][j - left] else 0.0))))
  }

  /** The field `model` returns, or the error it raises. */
  function ModelSpec(grid: GridShape, c: Counts, ar: Arities, dz: real, beam: Beam, params: seq<real>)
    : Result<Field, ModelError>
  {
    var d := Descriptor(c, ar);
    match Blocks(params, d)
    case Failure(e) => Failure(e)
    case Success(blocks) =>
      BlocksFit(params, d);
      var projected := Integrated(Accumulated(blocks, d, |d|), dz);
      match PadBeam(beam, grid.nx, grid.ny)
      case Failure(e) => Failure(e)
      case Success(kernel) =>
        Success(AddProfiles(Convolved(projected, kernel), Gaussian, blocks[GAUSSIAN_SLOT], c.nGaussian))
  }

  /** Lines 62-217: `model`. */
  method Model(grid: GridShape, c: Counts, ar: Arities, dz: real, beam: Beam, params: seq<real>)
    returns (r: Result<Field, ModelError>)
    ensures r == ModelSpec(grid, c, ar, dz, beam, params)
  {
    var parsed := SliceParams(params, c, ar);
    if parsed.Failure? {
      return Failure(parsed.error);
    }
    var blocks := parsed.value;
    BlocksFit(params, Descriptor(c, ar));
    var pressure := AccumulatePressure(blocks, Descriptor(c, ar));
    var ip := Integrated(pressure, dz);
    var padded := PadBeam(beam, grid.nx, grid.ny);
    if padded.Failure? {
      return Failure(padded.error);
    }
    ip := Convolved(ip, padded.value);
    ghost var convolved := ip;
    for i := 0 to c.nGaussian
      invariant ip == AddProfiles(convolved, Gaussian, blocks[GAUSSIAN_SLOT], i)
    {
      ip := Sum(ip, Profile(Gaussian, blocks[GAUSSIAN_SLOT][i]));
    }
    return Success(ip);
  }

  /** Lines 220-272: `model_tod` is `model` followed by bilinear interpolation
      at the detector pixel coordinates. */
  function ModelTod(grid: GridShape, c: Counts, ar: Arities, dz: real, beam: Beam,
                    dx: seq<real>, dy: seq<real>, params: seq<real>): (r: Result<Field, ModelError>)
    ensures r.Success? <==> ModelSpec(grid, c, ar, dz, beam, params).Success?
    ensures r.Failure? ==> r.error == ModelSpec(grid, c, ar, dz, beam, params).error
    ensures r.Success? ==> r.value == Interpolated(ModelSpec(grid, c, ar, dz, beam, params).value, dx, dy)
  {
    match ModelSpec(grid, c, ar, dz, beam, params)
    case Failure(e) => Failure(e)
    case Success(ip) => Success(Interpolated(ip, dx, dy))
  }

  // ---------------------------------------------------------------------------
  // Accumulation order and multiplicity

  /** The additive profile evaluations of the first i slots, slot after slot. */
  function AddedTerms(blocks: seq<Matrix>, d: seq<Slot>, i: nat): seq<Field>
    requires Fits(blocks, d) && i <= |d|
  {
    if i == 0 then [] else
      var s := d[i - 1];
      AddedTerms(blocks, d, i - 1) + (if Additive(s.kind) then Profiles(s.kind, blocks[i - 1], s.count) else [])
  }

  /** The updates of the first i slots, slot after slot. */
  function AppliedUpdates(blocks: seq<Matrix>, d: seq<Slot>, i: nat): seq<(Kind, seq<real>)>
    requires Fits(blocks, d) && i <= |d|
  {
    if i == 0 then [] else
      var s := d[i - 1];
      AppliedUpdates(blocks, d, i - 1) + (if Additive(s.kind) then [] else Steps(s.kind, blocks[i - 1], s.count))
  }

  /** No additive kind comes after an updating one. */
  predicate AdditiveFirst(d: seq<Slot>)
  {
    forall i, j :: 0 <= i < j < |d| && Additive(d[j].kind) ==> Additive(d[i].kind)
  }

  lemma UpdatesOfUpdated(f: Field)
    ensures f.Updated? <==> Updates(f) != []
    ensures !f.Updated? ==> UpdateBase(f) == f
  {
  }

  lemma {:induction false} AddProfilesShape(acc: Field, k: Kind, block: Matrix, n: nat)
    requires n <= |block|
    ensures SumBase(AddProfiles(acc, k, block, n)) == SumBase(acc)
    ensures Addends(AddProfiles(acc, k, block, n)) == Addends(acc) + Profiles(k, block, n)
    ensures !acc.Updated? ==> !AddProfiles(acc, k, block, n).Updated?
  {
    if n > 0 {
      AddProfilesShape(acc, k, block, n - 1);
      assert Profiles(k, block, n) == Profiles(k, block, n - 1) + [Profile(k, block[n - 1])];
    }
  }

  lemma {:induction false} ApplyUpdatesShape(acc: Field, k: Kind, block: Matrix, n: nat)
    requires n <= |block|
    ensures UpdateBase(ApplyUpdates(acc, k, block, n)) == UpdateBase(acc)
    ensures Updates(ApplyUpdates(acc, k, block, n)) == Updates(acc) + Steps(k, block, n)
  {
    if n > 0 {
      ApplyUpdatesShape(acc, k, block, n - 1);
      assert Steps(k, block, n) == Steps(k, block, n - 1) + [(k, block[n - 1])];
    }
  }

  lemma {:induction false} NoUpdatesYet(blocks: seq<Matrix>, d: seq<Slot>, i: nat)
    requires Fits(blocks, d) && i <= |d|
    requires forall j :: 0 <= j < i ==> Additive(d[j].kind)
    ensures AppliedUpdates(blocks, d, i) == []
  {
    if i > 0 {
      NoUpdatesYet(blocks, d, i - 1);
    }
  }

  /** The accumulator starts at zero, receives every additive profile in slot
      and instance order, and then every update in slot and instance order. */
  lemma {:induction false} AccumulationOrder(blocks: seq<Matrix>, d: seq<Slot>, i: nat)
    requires Fits(blocks, d) && AdditiveFirst(d) && i <= |d|
    ensures SumBase(UpdateBase(Accumulated(blocks, d, i))) == Zeros
    ensures Addends(UpdateBase(Accumulated(blocks, d, i))) == AddedTerms(blocks, d, i)
    ensures Updates(Accumulated(blocks, d, i)) == AppliedUpdates(blocks, d, i)
  {
    if i > 0 {
      AccumulationOrder(blocks, d, i - 1);
      var prev := Accumulated(blocks, d, i - 1);
      var s := d[i - 1];
      assert s.count <= |blocks[i - 1]|;
      assert Accumulated(blocks, d, i) == Contribute(prev, s, blocks[i - 1]);
      if Additive(s.kind) {
        assert forall j :: 0 <= j < i - 1 ==> Additive(d[j].kind);
        NoUpdatesYet(blocks, d, i - 1);
        AdditiveStep(prev, s.kind, blocks[i - 1], s.count);
        assert AddedTerms(blocks, d, i) == AddedTerms(blocks, d, i - 1) + Profiles(s.kind, blocks[i - 1], s.count);
        assert AppliedUpdates(blocks, d, i) == AppliedUpdates(blocks, d, i - 1) + [];
      } else {
        ApplyUpdatesShape(prev, s.kind, blocks[i - 1], s.count);
        assert AddedTerms(blocks, d, i) == AddedTerms(blocks, d, i - 1) + [];
        assert AppliedUpdates(blocks, d, i) == AppliedUpdates(blocks, d, i - 1) + Steps(s.kind, blocks[i - 1], s.count);
      }
    }
  }

  /** Profiles added to an accumulator that holds no update extend its sum
      and leave it free of updates. */
  lemma AdditiveStep(prev: Field, k: Kind, block: Matrix, n: nat)
    requires n <= |block| && Updates(prev) == []
    ensures var next := AddProfiles(prev, k, block, n);
      && Updates(next) == []
      && SumBase(UpdateBase(next)) == SumBase(UpdateBase(prev))
      && Addends(UpdateBase(next)) == Addends(UpdateBase(prev)) + Profiles(k, block, n)
  {
    UpdatesOfUpdated(prev);
    AddProfilesShape(prev, k, block, n);
    UpdatesOfUpdated(AddProfiles(prev, k, block, n));
  }

  lemma DescriptorAdditiveFirst(c: Counts, ar: Arities)
    ensures AdditiveFirst(Descriptor(c, ar))
  {
    var d := Descriptor(c, ar);
    forall i, j | 0 <= i < j < |d| && Additive(d[j].kind) ensures Additive(d[i].kind) {
    }
  }

  /** For the layout of `model`, the reference sequences name the kinds in ORDER. */
  lemma DescriptorTerms(b: seq<Matrix>, c: Counts, ar: Arities)
    requires Fits(b, Descriptor(c, ar))
    ensures |b| == |ORDER|
    ensures c.nIsobeta <= |b[0]| && c.nGnfw <= |b[1]| && c.nA10 <= |b[2]| && c.nGaussian <= |b[3]|
    ensures c.nEGaussian <= |b[4]| && c.nUniform <= |b[5]| && c.nExponential <= |b[6]|
    ensures c.nPowerlaw <= |b[7]| && c.nPowerlawCos <= |b[8]|
    ensures AddedTerms(b, Descriptor(c, ar), |ORDER|) ==
      Profiles(Isobeta, b[0], c.nIsobeta) + Profiles(Gnfw, b[1], c.nGnfw)
      + Profiles(A10, b[2], c.nA10) + Profiles(Gaussian, b[3], c.nGaussian)
      + Profiles(EGaussian, b[4], c.nEGaussian)
    ensures AppliedUpdates(b, Descriptor(c, ar), |ORDER|) ==
      Steps(Uniform, b[5], c.nUniform) + Steps(Exponential, b[6], c.nExponential)
      + Steps(Powerlaw, b[7], c.nPowerlaw) + Steps(PowerlawCos, b[8], c.nPowerlawCos)
  {
    var d := Descriptor(c, ar);
    assert d[0].count <= |b[0]| && d[1].count <= |b[1]| && d[2].count <= |b[2]|;
    assert d[3].count <= |b[3]| && d[4].count <= |b[4]| && d[5].count <= |b[5]|;
    assert d[6].count <= |b[6]| && d[7].count <= |b[7]| && d[8].count <= |b[8]|;
    assert AddedTerms(b, d, 1) == Profiles(Isobeta, b[0], c.nIsobeta);
    assert AddedTerms(b, d, 2) == AddedTerms(b, d, 1) + Profiles(Gnfw, b[1], c.nGnfw);
    assert AddedTerms(b, d, 3) == AddedTerms(b, d, 2) + Profiles(A10, b[2], c.nA10);
    assert AddedTerms(b, d, 4) == AddedTerms(b, d, 3) + Profiles(Gaussian, b[3], c.nGaussian);
    assert AddedTerms(b, d, 5) == AddedTerms(b, d, 4) + Profiles(EGaussian, b[4], c.nEGaussian);
    assert AddedTerms(b, d, 6) == AddedTerms(b, d, 5);
    assert AddedTerms(b, d, 7) == AddedTerms(b, d, 6);
    assert AddedTerms(b, d, 8) == AddedTerms(b, d, 7);
    assert AddedTerms(b, d, 9) == AddedTerms(b, d, 8);
    NoUpdatesYet(b, d, 5);
    assert AppliedUpdates(b, d, 6) == Steps(Uniform, b[5], c.nUniform);
    assert AppliedUpdates(b, d, 7) == AppliedUpdates(b, d, 6) + Steps(Exponential, b[6], c.nExponential);
    assert AppliedUpdates(b, d, 8) == AppliedUpdates(b, d, 7) + Steps(Powerlaw, b[7], c.nPowerlaw);
  }

  /** The composed field, observed: a sum of the Gaussian instances over the
      convolved projection of a pressure accumulator that starts at zero,
      receives the isobeta, gnfw, a10, gaussian and egaussian instances in that
      order and then the uniform, exponential, powerlaw and powerlaw_cos updates
      in that order. Every Gaussian instance is thus applied twice. */
  lemma ModelStructure(grid: GridShape, c: Counts, ar: Arities, dz: real, beam: Beam, params: seq<real>)
    requires ModelSpec(grid, c, ar, dz, beam, params).Success?
    ensures Blocks(params, Descriptor(c, ar)).Success?
    ensures Fits(Blocks(params, Descriptor(c, ar)).value, Descriptor(c, ar))
    ensures var b := Blocks(params, Descriptor(c, ar)).value;
      var m := ModelSpec(grid, c, ar, dz, beam, params).value;
      && c.nGaussian <= |b[GAUSSIAN_SLOT]|
      && Addends(m) == Profiles(Gaussian, b[GAUSSIAN_SLOT], c.nGaussian)
      && SumBase(m) == Convolved(Integrated(Accumulated(b, Descriptor(c, ar), |ORDER|), dz),
                                 PadBeam(beam, grid.nx, grid.ny).value)
    ensures var b := Blocks(params, Descriptor(c, ar)).value;
      var p := Accumulated(b, Descriptor(c, ar), |ORDER|);
      && c.nIsobeta <= |b[0]| && c.nGnfw <= |b[1]| && c.nA10 <= |b[2]| && c.nGaussian <= |b[3]|
      && c.nEGaussian <= |b[4]| && c.nUniform <= |b[5]| && c.nExponential <= |b[6]|
      && c.nPowerlaw <= |b[7]| && c.nPowerlawCos <= |b[8]|
      && SumBase(UpdateBase(p)) == Zeros
      && Addends(UpdateBase(p)) ==
           Profiles(Isobeta, b[0], c.nIsobeta) + Profiles(Gnfw, b[1], c.nGnfw)
           + Profiles(A10, b[2], c.nA10) + Profiles(Gaussian, b[3], c.nGaussian)
           + Profiles(EGaussian, b[4], c.nEGaussian)
      && Updates(p) ==
           Steps(Uniform, b[5], c.nUniform) + Steps(Exponential, b[6], c.nExponential)
           + Steps(Powerlaw, b[7], c.nPowerlaw) + Steps(PowerlawCos, b[8], c.nPowerlawCos)
  {
    var d := Descriptor(c, ar);
    var b := Blocks(params, d).value;
    BlocksFit(params, d);
    DescriptorAdditiveFirst(c, ar);
    AccumulationOrder(b, d, |d|);
    DescriptorTerms(b, c, ar);
    var kernel := PadBeam(beam, grid.nx, grid.ny).value;
    var projected := Integrated(Accumulated(b, d, |d|), dz);
    AddProfilesShape(Convolved(projected, kernel), Gaussian, b[GAUSSIAN_SLOT], c.nGaussian);
  }

  /** Instances of kind k among the first i slots. */
  function KindInstances(d: seq<Slot>, i: nat, k: Kind): nat
    requires i <= |d|
  {
    if i == 0 then 0
    else KindInstances(d, i - 1, k) + if d[i - 1].kind == k then d[i - 1].count else 0
  }

  lemma {:induction false} AddProfilesCount(acc: Field, k': Kind, block: Matrix, n: nat, k: Kind)
    requires n <= |block|
    ensures ProfileCount(AddProfiles(acc, k', block, n), k) == ProfileCount(acc, k) + if k' == k then n else 0
    ensures UpdateCount(AddProfiles(acc, k', block, n), k) == UpdateCount(acc, k)
  {
    if n > 0 {
      AddProfilesCount(acc, k', block, n - 1, k);
    }
  }

  lemma {:induction false} ApplyUpdatesCount(acc: Field, k': Kind, block: Matrix, n: nat, k: Kind)
    requires n <= |block|
    ensures ProfileCount(ApplyUpdates(acc, k', block, n), k) == ProfileCount(acc, k)
    ensures UpdateCount(ApplyUpdates(acc, k', block, n), k) == UpdateCount(acc, k) + if k' == k then n else 0
  {
    if n > 0 {
      ApplyUpdatesCount(acc, k', block, n - 1, k);
    }
  }

  /** The accumulator holds each additive kind's instances once as profile
      evaluations and each updating kind's instances once as updates. */
  lemma {:induction false} AccumulatedCount(blocks: seq<Matrix>, d: seq<Slot>, i: nat, k: Kind)
    requires Fits(blocks, d) && i <= |d|
    ensures ProfileCount(Accumulated(blocks, d, i), k) == if Additive(k) then KindInstances(d, i, k) else 0
    ensures UpdateCount(Accumulated(blocks, d, i), k) == if Additive(k) then 0 else KindInstances(d, i, k)
  {
    if i > 0 {
      AccumulatedCount(blocks, d, i - 1, k);
      var s := d[i - 1];
      if Additive(s.kind) {
        AddProfilesCount(Accumulated(blocks, d, i - 1), s.kind, blocks[i - 1], s.count, k);
      } else {
        ApplyUpdatesCount(Accumulated(blocks, d, i - 1), s.kind, blocks[i - 1], s.count, k);
      }
    }
  }

  lemma DescriptorInstances(c: Counts, ar: Arities, k: Kind)
    ensures KindInstances(Descriptor(c, ar), |ORDER|, k) == Count(c, k)
  {
    var d := Descriptor(c, ar);
    assert KindInstances(d, 1, k) == if k == Isobeta then c.nIsobeta else 0;
    assert KindInstances(d, 2, k) == KindInstances(d, 1, k) + if k == Gnfw then c.nGnfw else 0;
    assert KindInstances(d, 3, k) == KindInstances(d, 2, k) + if k == A10 then c.nA10 else 0;
    assert KindInstances(d, 4, k) == KindInstances(d, 3, k) + if k == Gaussian then c.nGaussian else 0;
    assert KindInstances(d, 5, k) == KindInstances(d, 4, k) + if k == EGaussian then c.nEGaussian else 0;
    assert KindInstances(d, 6, k) == KindInstances(d, 5, k) + if k == Uniform then c.nUniform else 0;
    assert KindInstances(d, 7, k) == KindInstances(d, 6, k) + if k == Exponential then c.nExponential else 0;
    assert KindInstances(d, 8, k) == KindInstances(d, 7, k) + if k == Powerlaw then c.nPowerlaw else 0;
    assert KindInstances(d, 9, k) == KindInstances(d, 8, k) + if k == PowerlawCos then c.nPowerlawCos else 0;
  }

  /** Each additive kind is evaluated once per instance, except the Gaussian,
      which is evaluated twice per instance; each updating kind is applied once
      per instance. A kind with count zero contributes nothing. */
  lemma ModelMultiplicity(grid: GridShape, c: Counts, ar: Arities, dz: real, beam: Beam, params: seq<real>, k: Kind)
    requires ModelSpec(grid, c, ar, dz, beam, params).Success?
    ensures var m := ModelSpec(grid, c, ar, dz, beam, params).value;
      ProfileCount(m, k) == (if k == Gaussian then 2 * c.nGaussian else if Additive(k) then Count(c, k) else 0)
    ensures var m := ModelSpec(grid, c, ar, dz, beam, params).value;
      UpdateCount(m, k) == if Additive(k) then 0 else Count(c, k)
  {
    ModelSpecValue(grid, c, ar, dz, beam, params);
    ComposedCount(Blocks(params, Descriptor(c, ar)).value, c, ar, dz, PadBeam(beam, grid.nx, grid.ny).value, k);
  }

  /** The counts of ModelMultiplicity, on the composed field itself. */
  lemma ComposedCount(b: seq<Matrix>, c: Counts, ar: Arities, dz: real, kernel: Beam, k: Kind)
    requires Fits(b, Descriptor(c, ar)) && c.nGaussian <= |b[GAUSSIAN_SLOT]|
    ensures var d := Descriptor(c, ar);
      var m := AddProfiles(Convolved(Integrated(Accumulated(b, d, |d|), dz), kernel), Gaussian, b[GAUSSIAN_SLOT], c.nGaussian);
      && ProfileCount(m, k) == (if k == Gaussian then 2 * c.nGaussian else if Additive(k) then Count(c, k) else 0)
      && UpdateCount(m, k) == if Additive(k) then 0 else Count(c, k)
  {
    var d := Descriptor(c, ar);
    var acc := Accumulated(b, d, |d|);
    var base := Convolved(Integrated(acc, dz), kernel);
    AccumulatedCount(b, d, |d|, k);
    DescriptorInstances(c, ar, k);
    assert ProfileCount(base, k) == ProfileCount(acc, k) && UpdateCount(base, k) == UpdateCount(acc, k);
    AddProfilesCount(base, Gaussian, b[GAUSSIAN_SLOT], c.nGaussian, k);
  }

  /** A successful `model` is the Gaussian instances added over the convolved
      projection of the accumulated pressure. */
  lemma ModelSpecValue(grid: GridShape, c: Counts, ar: Arities, dz: real, beam: Beam, params: seq<real>)
    requires ModelSpec(grid, c, ar, dz, beam, params).Success?
    ensures Blocks(params, Descriptor(c, ar)).Success? && PadBeam(beam, grid.nx, grid.ny).Success?
    ensures Fits(Blocks(params, Descriptor(c, ar)).value, Descriptor(c, ar))
    ensures var b := Blocks(params, Descriptor(c, ar)).value;
      var d := Descriptor(c, ar);
      && c.nGaussian <= |b[GAUSSIAN_SLOT]|
      && ModelSpec(grid, c, ar, dz, beam, params).value ==
           AddProfiles(Convolved(Integrated(Accumulated(b, d, |d|), dz), PadBeam(beam, grid.nx, grid.ny).value),
                       Gaussian, b[GAUSSIAN_SLOT], c.nGaussian)
  {
    BlocksFit(params, Descriptor(c, ar));
  }

  // ---------------------------------------------------------------------------
  // Layout of `model`, errors and beam padding

  /** The vector `model` reads has sum(count * arity) entries over the nine
      kinds, powerlaw_cos taking the power-law arity. */
  lemma DescriptorTotal(c: Counts, ar: Arities)
    ensures Total(Descriptor(c, ar)) ==
      c.nIsobeta * ar.isobeta + c.nGnfw * ar.gnfw + c.nA10 * ar.a10
      + c.nGaussian * ar.gaussian + c.nEGaussian * ar.egaussian + c.nUniform * ar.uniform
      + c.nExponential * ar.exponential + c.nPowerlaw * ar.powerlaw + c.nPowerlawCos * ar.powerlaw
  {
    var d := Descriptor(c, ar);
    assert Offset(d, 9) == Offset(d, 8) + c.nPowerlawCos * ar.powerlaw;
    assert Offset(d, 8) == Offset(d, 7) + c.nPowerlaw * ar.powerlaw;
    assert Offset(d, 7) == Offset(d, 6) + c.nExponential * ar.exponential;
    assert Offset(d, 6) == Offset(d, 5) + c.nUniform * ar.uniform;
    assert Offset(d, 5) == Offset(d, 4) + c.nEGaussian * ar.egaussian;
    assert Offset(d, 4) == Offset(d, 3) + c.nGaussian * ar.gaussian;
    assert Offset(d, 3) == Offset(d, 2) + c.nA10 * ar.a10;
    assert Offset(d, 2) == Offset(d, 1) + c.nGnfw * ar.gnfw;
    assert Offset(d, 1) == c.nIsobeta * ar.isobeta;
  }

  /** `model` fails exactly when the vector is shorter than the layout needs
      (reshape raises first) or the beam exceeds the projected map (pad raises). */
  lemma ModelErrors(grid: GridShape, c: Counts, ar: Arities, dz: real, beam: Beam, params: seq<real>)
    ensures ModelSpec(grid, c, ar, dz, beam, params).Success? <==>
      Total(Descriptor(c, ar)) <= |params| && beam.rows <= grid.nx && beam.cols <= grid.ny
    ensures |params| < Total(Descriptor(c, ar)) ==>
      ModelSpec(grid, c, ar, dz, beam, params) == Failure(ParamsTooShort)
    ensures Total(Descriptor(c, ar)) <= |params| && !(beam.rows <= grid.nx && beam.cols <= grid.ny) ==>
      ModelSpec(grid, c, ar, dz, beam, params) == Failure(BeamLargerThanMap)
  {
  }

  /** Entries past the layout's total are never read: no length check is made. */
  lemma ModelIgnoresExtraParams(grid: GridShape, c: Counts, ar: Arities, dz: real, beam: Beam,
                                params: seq<real>, extra: seq<real>)
    requires Total(Descriptor(c, ar)) <= |params|
    ensures ModelSpec(grid, c, ar, dz, beam, params + extra) == ModelSpec(grid, c, ar, dz, beam, params)
  {
    ExtraParamsIgnored(params, extra, Descriptor(c, ar));
  }

  /** The leading pad is half the difference rounded down and the trailing pad
      takes the rest, so the pads are non-negative exactly when the beam fits,
      they restore the map size, and the trailing one is never smaller and at
      most one larger. */
  lemma PadSplit(target: nat, size: nat)
    ensures LeadingPad(target, size) >= 0 && TrailingPad(target, size) >= 0 <==> size <= target
    ensures size <= target ==>
      && LeadingPad(target, size) == (target - size) / 2
      && LeadingPad(target, size) + size + TrailingPad(target, size) == target
      && (TrailingPad(target, size) == LeadingPad(target, size)
          || TrailingPad(target, size) == LeadingPad(target, size) + 1)
  {
  }

  /** The padded beam is centred: entry `(a, b)` of the beam sits at
      `((rows - beam.rows) / 2 + a, (cols - beam.cols) / 2 + b)`, every other
      entry is zero, and each margin after the beam equals the one before it
      or is one wider. */
  lemma PaddedBeamCentred(beam: Beam, rows: nat, cols: nat)
    requires PadBeam(beam, rows, cols).Success?
    ensures var padded := PadBeam(beam, rows, cols).value;
      var top, left := (rows - beam.rows) / 2, (cols - beam.cols) / 2;
      && 0 <= top && 0 <= left
      && (forall a, b :: 0 <= a < beam.rows && 0 <= b < beam.cols ==>
            padded.data[top + a][left + b] == beam.data[a][b])
      && (forall i, j ::
            0 <= i < rows && 0 <= j < cols && !(top <= i < top + beam.rows && left <= j < left + beam.cols) ==>
            padded.data[i][j] == 0.0)
      && (rows - beam.rows - top == top || rows - beam.rows - top == top + 1)
      && (cols - beam.cols - left == left || cols - beam.cols - left == left + 1)
  {
    PadSplit(rows, beam.rows);
    PadSplit(cols, beam.cols);
  }
}
