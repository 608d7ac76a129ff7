/** The gradient wrappers of witch/core.py: `model_grad` (lines 275-342) and
    `model_tod_grad` (lines 345-423). Each evaluates the model, asks
    forward-mode differentiation for the requested positional arguments and
    scatters those rows into a zero array with one row per entry of *params. */
module Gradients {
  import opened Results
  import opened Fields
  import opened Layout
  import opened Composer
  import opened Signatures

  /** A prediction together with its padded gradient, one row per parameter. */
  datatype WithGradient = WithGradient(pred: Field, grad: seq<Field>)

  /** The rows `jax.jacfwd(f, argnums=argnums)` returns for a value `pred`:
      one partial derivative per requested argument, in argnums order. */
  function Jacobian(pred: Field, argnums: seq<nat>): (rows: seq<Field>)
    ensures |rows| == |argnums|
    ensures forall j :: 0 <= j < |argnums| ==> rows[j] == Partial(pred, argnums[j])
  {
    seq(|argnums|, j requires 0 <= j < |argnums| => Partial(pred, argnums[j]))
  }

  /** The padded gradient row r: the partial derivative in positional argument
      shift + r when that argument was requested, zeros otherwise. */
  function PaddedRow(pred: Field, argnums: seq<nat>, shift: nat, r: nat): Field
  {
    if shift + r in argnums then Partial(pred, shift + r) else Zeros
  }

  /** `jnp.zeros((n,) + shape).at[argnums - shift].set(rows)`. Targets must be
      rows of the zero array; a target named twice receives the same row both
      times, so the order of the writes does not matter. */
  method Scatter(n: nat, argnums: seq<nat>, shift: nat, rows: seq<Field>) returns (padded: seq<Field>)
    requires |rows| == |argnums|
    requires forall j :: 0 <= j < |argnums| ==> shift <= argnums[j] < shift + n
    requires forall j, k :: 0 <= j < |argnums| && 0 <= k < |argnums| && argnums[j] == argnums[k] ==> rows[j] == rows[k]
    ensures |padded| == n
    ensures forall j :: 0 <= j < |argnums| ==> padded[argnums[j] - shift] == rows[j]
    ensures forall r :: 0 <= r < n && shift + r !in argnums ==> padded[r] == Zeros
  {
    padded := seq(n, _ => Zeros);
    var j := 0;
    while j < |argnums|
      invariant 0 <= j <= |argnums|
      invariant |padded| == n
      invariant forall k :: 0 <= k < j ==> padded[argnums[k] - shift] == rows[k]
      invariant forall r :: 0 <= r < n && shift + r !in argnums[..j] ==> padded[r] == Zeros
    {
      padded := padded[argnums[j] - shift := rows[j]];
      assert argnums[..j + 1] == argnums[..j] + [argnums[j]];
      j := j + 1;
    }
    assert argnums[..j] == argnums;
  }

  /** The scattered Jacobian is the padded gradient row by row. */
  lemma ScatteredJacobian(pred: Field, argnums: seq<nat>, shift: nat, n: nat, padded: seq<Field>)
    requires forall j :: 0 <= j < |argnums| ==> shift <= argnums[j] < shift + n
    requires |padded| == n
    requires forall j :: 0 <= j < |argnums| ==> padded[argnums[j] - shift] == Jacobian(pred, argnums)[j]
    requires forall r :: 0 <= r < n && shift + r !in argnums ==> padded[r] == Zeros
    ensures padded == seq(n, r requires 0 <= r < n => PaddedRow(pred, argnums, shift, r))
  {
    forall r | 0 <= r < n
      ensures padded[r] == PaddedRow(pred, argnums, shift, r)
    {
      if shift + r in argnums {
        var j :| 0 <= j < |argnums| && argnums[j] == shift + r;
        assert padded[argnums[j] - shift] == Partial(pred, argnums[j]);
      }
    }
  }

  /** The specification of both wrappers: the prediction `base` computes, and
      the padded gradient over the n entries of *params. */
  function GradSpec(base: Result<Field, ModelError>, argnums: seq<nat>, shift: nat, n: nat)
    : Result<WithGradient, ModelError>
  {
    match base
    case Failure(e) => Failure(e)
    case Success(pred) =>
      Success(WithGradient(pred, seq(n, r requires 0 <= r < n => PaddedRow(pred, argnums, shift, r))))
  }

  /** Lines 275-342: `model_grad`. */
  method ModelGrad(grid: GridShape, c: Counts, ar: Arities, dz: real, beam: Beam,
                   argnums: seq<nat>, params: seq<real>) returns (r: Result<WithGradient, ModelError>)
    requires forall j :: 0 <= j < |argnums| ==> ARGNUM_SHIFT <= argnums[j] < ARGNUM_SHIFT + |params|
    ensures r == GradSpec(ModelSpec(grid, c, ar, dz, beam, params), argnums, ARGNUM_SHIFT, |params|)
  {
    Shifts();
    var pred := Model(grid, c, ar, dz, beam, params);
    if pred.Failure? {
      return Failure(pred.error);
    }
    var rows := Jacobian(pred.value, argnums);
    var padded := Scatter(|params|, argnums, ARGNUM_SHIFT, rows);
    ScatteredJacobian(pred.value, argnums, ARGNUM_SHIFT, |params|, padded);
    r := Success(WithGradient(pred.value, padded));
  }

  /** Lines 345-423: `model_tod_grad`, the same over `model_tod` and its shift. */
  method ModelTodGrad(grid: GridShape, c: Counts, ar: Arities, dz: real, beam: Beam,
                      dx: seq<real>, dy: seq<real>, argnums: seq<nat>, params: seq<real>)
    returns (r: Result<WithGradient, ModelError>)
    requires forall j :: 0 <= j < |argnums| ==> ARGNUM_SHIFT_TOD <= argnums[j] < ARGNUM_SHIFT_TOD + |params|
    ensures r == GradSpec(ModelTod(grid, c, ar, dz, beam, dx, dy, params), argnums, ARGNUM_SHIFT_TOD, |params|)
  {
    Shifts();
    var pred := ModelTod(grid, c, ar, dz, beam, dx, dy, params);
    if pred.Failure? {
      return Failure(pred.error);
    }
    var rows := Jacobian(pred.value, argnums);
    var padded := Scatter(|params|, argnums, ARGNUM_SHIFT_TOD, rows);
    ScatteredJacobian(pred.value, argnums, ARGNUM_SHIFT_TOD, |params|, padded);
    r := Success(WithGradient(pred.value, padded));
  }

  /** The padded gradient has one row per entry of *params; row p is the
      derivative in positional argument shift + p, which is exactly entry p
      of *params, when that argument was requested, and zero otherwise; the
      prediction is the one the model returns and its errors pass through. */
  lemma GradRows(signature: seq<string>, base: Result<Field, ModelError>, argnums: seq<nat>, params: seq<real>)
    requires |signature| >= 1
    ensures GradSpec(base, argnums, ArgnumShift(signature), |params|).Success? <==> base.Success?
    ensures base.Failure? ==> GradSpec(base, argnums, ArgnumShift(signature), |params|).error == base.error
    ensures base.Success? ==>
      var g := GradSpec(base, argnums, ArgnumShift(signature), |params|).value;
      g.pred == base.value && |g.grad| == |params| &&
      forall p :: 0 <= p < |params| ==>
        (g.grad[p].Partial? <==> ArgnumShift(signature) + p in argnums) &&
        (g.grad[p].Partial? ==>
           g.grad[p].of == base.value &&
           PositionalArgs(signature, params)[g.grad[p].argnum] == Param(params[p]))
  {
    if base.Success? {
      forall p | 0 <= p < |params| {
        ShiftSelectsParam(signature, params, p);
      }
    }
  }

  /** The gradient rows of model_grad and model_tod_grad address the right
      entries of *params: shift 12 past the leading arguments of `model`,
      shift 14 past those of `model_tod`. */
  lemma WrapperShifts(base: Result<Field, ModelError>, argnums: seq<nat>, params: seq<real>, p: nat)
    requires base.Success? && p < |params|
    ensures var g := GradSpec(base, argnums, ARGNUM_SHIFT, |params|).value.grad[p];
      g.Partial? ==> g.argnum == 12 + p && PositionalArgs(MODEL_SIGNATURE, params)[g.argnum] == Param(params[p])
    ensures var g := GradSpec(base, argnums, ARGNUM_SHIFT_TOD, |params|).value.grad[p];
      g.Partial? ==> g.argnum == 14 + p && PositionalArgs(MODEL_TOD_SIGNATURE, params)[g.argnum] == Param(params[p])
  {
    Shifts();
    GradRows(MODEL_SIGNATURE, base, argnums, params);
    GradRows(MODEL_TOD_SIGNATURE, base, argnums, params);
  }
}
