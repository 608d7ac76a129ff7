/** Symbolic values of the composer's fields.

    The profile functions, the line-of-sight quadrature, the FFT convolution,
    the bilinear interpolation and forward-mode differentiation are numeric
    routines outside this model. Each becomes a free constructor of `Field`,
    so a field value records exactly which operations built it, in which
    order and how often; nothing is assumed about the numbers they produce. */
module Fields {

  /** The nine component kinds the composer knows about. */
  datatype Kind =
    | Isobeta | Gnfw | A10 | Gaussian | EGaussian
    | Uniform | Exponential | Powerlaw | PowerlawCos

  /** Additive kinds return a field that is summed into the accumulator;
      the others take the accumulator and return an updated one. */
  predicate Additive(k: Kind)
  {
    k.Isobeta? || k.Gnfw? || k.A10? || k.Gaussian? || k.EGaussian?
  }

  /** A two-dimensional numeric array with its shape. */
  datatype Array2 = Array2(rows: nat, cols: nat, data: seq<seq<real>>)
  {
    predicate Shaped()
    {
      |data| == rows && forall i :: 0 <= i < rows ==> |data[i]| == cols
    }
  }

  type Beam = b: Array2 | b.Shaped() witness Array2(0, 0, [])

  datatype Field =
    | Zeros                                                 // jnp.zeros of the needed shape
    | Sum(acc: Field, term: Field)                          // jnp.add(acc, term)
    | Profile(kind: Kind, row: seq<real>)                   // isobeta(*row, xyz), gaussian(*row, xyz), ...
    | Updated(kind: Kind, base: Field, row: seq<real>)      // add_uniform(base, xyz, *row), ...
    | Integrated(volume: Field, dz: real)                   // trapz(volume, dx=dz, axis=-1)
    | Convolved(projected: Field, kernel: Beam)             // fft_conv(map, kernel)
    | Interpolated(projected: Field, dx: seq<real>, dy: seq<real>)  // bilinear_interp(dx, dy, x, y, map)
    | Partial(of: Field, argnum: nat)                       // derivative of `of` in positional argument argnum

  /** The terms added on top of the innermost non-sum field, oldest first. */
  function Addends(f: Field): seq<Field>
  {
    if f.Sum? then Addends(f.acc) + [f.term] else []
  }

  /** The innermost field below a chain of additions. */
  function SumBase(f: Field): Field
  {
    if f.Sum? then SumBase(f.acc) else f
  }

  /** The updates applied on top of the innermost non-update field, oldest first. */
  function Updates(f: Field): seq<(Kind, seq<real>)>
  {
    if f.Updated? then Updates(f.base) + [(f.kind, f.row)] else []
  }

  /** The innermost field below a chain of updates. */
  function UpdateBase(f: Field): Field
  {
    if f.Updated? then UpdateBase(f.base) else f
  }

  /** How many evaluations of an additive profile of kind `k` the field contains. */
  function ProfileCount(f: Field, k: Kind): nat
  {
    match f
    case Zeros => 0
    case Sum(a, t) => ProfileCount(a, k) + ProfileCount(t, k)
    case Profile(k', _) => if k' == k then 1 else 0
    case Updated(_, b, _) => ProfileCount(b, k)
    case Integrated(v, _) => ProfileCount(v, k)
    case Convolved(m, _) => ProfileCount(m, k)
    case Interpolated(m, _, _) => ProfileCount(m, k)
    case Partial(g, _) => ProfileCount(g, k)
  }

  /** How many updates of kind `k` the field contains. */
  function UpdateCount(f: Field, k: Kind): nat
  {
    match f
    case Zeros => 0
    case Sum(a, t) => UpdateCount(a, k) + UpdateCount(t, k)
    case Profile(_, _) => 0
    case Updated(k', b, _) => UpdateCount(b, k) + if k' == k then 1 else 0
    case Integrated(v, _) => UpdateCount(v, k)
    case Convolved(m, _) => UpdateCount(m, k)
    case Interpolated(m, _, _) => UpdateCount(m, k)
    case Partial(g, _) => UpdateCount(g, k)
  }
}
