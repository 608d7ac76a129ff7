/** The parameter table of scratch/mcmc_check.py: the loop over the configured
    models that flattens their parameters into one vector with its labels,
    fit flags, priors and name-to-position maps (lines 169-212), and the
    simulation loop that hands each model function its consecutive slice of
    that vector (lines 236-240). */
module ParamTable {
  import opened Results
  import opened Fields
  import PySeq

  /** The `priors` entry of a parameter: its type and its evaluated value. */
  datatype PriorCfg = PriorCfg(kind: string, value: seq<real>)

  /** One entry of a model's `parameters` mapping. `text` is the configured
      value as written, `value` what evaluating it gives; `reEval` is false
      when the key is absent. */
  datatype ParCfg = ParCfg(name: string, text: string, value: real, toFit: bool,
                           prior: Option<PriorCfg>, reEval: bool)

  /** One entry of the `models` mapping; `sub` is absent unless configured. */
  datatype ModelCfg = ModelCfg(name: string, parameters: seq<ParCfg>, sub: Option<bool>)

  /** What the loop leaves behind. `localIdx[m]` is the `_par_idx` built for
      model m. */
  datatype Table = Table(
    npars: seq<nat>,
    labels: seq<string>,
    params: seq<real>,
    toFit: seq<bool>,
    priors: seq<Option<string>>,
    priorVals: seq<Option<seq<real>>>,
    reEval: seq<Option<string>>,
    parIdx: map<string, nat>,
    localIdx: seq<map<string, nat>>,
    subtract: seq<bool>)

  /** A parameter as the loop meets it: its model's number and name, and its
      position within that model. */
  datatype Entry = Entry(model: nat, modelName: string, pos: nat, par: ParCfg)

  /** `mname + "-" + name`. */
  function Key(modelName: string, name: string): string
  {
    modelName + "-" + name
  }

  function EntryKey(e: Entry): string
  {
    Key(e.modelName, e.par.name)
  }

  /** The parameters of model number m, in their configured order. */
  function Entries(cfg: ModelCfg, m: nat): (es: seq<Entry>)
    ensures |es| == |cfg.parameters|
    ensures forall p :: 0 <= p < |es| ==> es[p] == Entry(m, cfg.name, p, cfg.parameters[p])
  {
    seq(|cfg.parameters|, p requires 0 <= p < |cfg.parameters| => Entry(m, cfg.name, p, cfg.parameters[p]))
  }

  /** All parameters of all models, model after model. */
  function Flat(models: seq<ModelCfg>): seq<Entry>
  {
    if models == [] then []
    else Flat(models[..|models| - 1]) + Entries(models[|models| - 1], |models| - 1)
  }

  /** The number of parameters of each model. */
  function Counts(models: seq<ModelCfg>): (ns: seq<nat>)
    ensures |ns| == |models|
    ensures forall m :: 0 <= m < |models| ==> ns[m] == |models[m].parameters|
  {
    seq(|models|, m requires 0 <= m < |models| => |models[m].parameters|)
  }

  /** The `subtract` flag of each model: its `sub` entry, true when absent. */
  function Subtracts(models: seq<ModelCfg>): (flags: seq<bool>)
    ensures |flags| == |models|
    ensures forall m :: 0 <= m < |models| ==> flags[m] == models[m].sub.GetOr(true)
  {
    seq(|models|, m requires 0 <= m < |models| => models[m].sub.GetOr(true))
  }

  /** Where model m's parameters begin in the flat vector. */
  function Start(npars: seq<nat>, m: nat): nat
    requires m <= |npars|
  {
    PySeq.Sum(npars[..m])
  }

  /** A dictionary filled by assigning `d[key(es[i])] = i` for i in order:
      a later entry with the same key overwrites an earlier one. */
  function IndexMap(es: seq<Entry>): map<string, nat>
  {
    if es == [] then map[]
    else IndexMap(es[..|es| - 1])[EntryKey(es[|es| - 1]) := |es| - 1]
  }

  /** The `priors`, `prior_vals` and `re_eval` entries the loop records for a
      parameter: None where the configuration has no prior, or no true
      `re_eval`; the configured text of the value where it does. */
  function PriorOf(e: Entry): Option<string>
  {
    if e.par.prior.Some? then Some(e.par.prior.value.kind) else None
  }

  function PriorValOf(e: Entry): Option<seq<real>>
  {
    if e.par.prior.Some? then Some(e.par.prior.value.value) else None
  }

  function ReEvalOf(e: Entry): Option<string>
  {
    if e.par.reEval then Some(e.par.text) else None
  }

  /** The per-parameter lists, entry i describing parameter i of `es`. */
  predicate Columns(labels: seq<string>, params: seq<real>, toFit: seq<bool>, priors: seq<Option<string>>,
                    priorVals: seq<Option<seq<real>>>, reEval: seq<Option<string>>, es: seq<Entry>)
  {
    && |labels| == |params| == |toFit| == |priors| == |priorVals| == |reEval| == |es|
    && forall i :: 0 <= i < |es| ==>
         && labels[i] == es[i].par.name
         && params[i] == es[i].par.value
         && toFit[i] == es[i].par.toFit
         && priors[i] == PriorOf(es[i])
         && priorVals[i] == PriorValOf(es[i])
         && reEval[i] == ReEvalOf(es[i])
  }

  lemma ColumnsStep(labels: seq<string>, params: seq<real>, toFit: seq<bool>, priors: seq<Option<string>>,
                    priorVals: seq<Option<seq<real>>>, reEval: seq<Option<string>>, es: seq<Entry>, e: Entry)
    requires Columns(labels, params, toFit, priors, priorVals, reEval, es)
    ensures Columns(labels + [e.par.name], params + [e.par.value], toFit + [e.par.toFit], priors + [PriorOf(e)],
                    priorVals + [PriorValOf(e)], reEval + [ReEvalOf(e)], es + [e])
  {
  }

  /** The table the loop builds from the configured models. */
  predicate IsTableOf(t: Table, models: seq<ModelCfg>)
  {
    var flat := Flat(models);
    && t.npars == Counts(models)
    && Columns(t.labels, t.params, t.toFit, t.priors, t.priorVals, t.reEval, flat)
    && t.parIdx == IndexMap(flat)
    && |t.localIdx| == |models|
    && (forall m :: 0 <= m < |models| ==> t.localIdx[m] == IndexMap(Entries(models[m], m)))
    && t.subtract == Subtracts(models)
  }

  lemma FlatStep(models: seq<ModelCfg>, m: nat)
    requires m < |models|
    ensures Flat(models[..m + 1]) == Flat(models[..m]) + Entries(models[m], m)
  {
    assert models[..m + 1][..m] == models[..m];
  }

  lemma CountsStep(models: seq<ModelCfg>, m: nat)
    requires m < |models|
    ensures Counts(models[..m + 1]) == Counts(models[..m]) + [|models[m].parameters|]
  {
    var a, b := Counts(models[..m + 1]), Counts(models[..m]) + [|models[m].parameters|];
    assert |a| == |b|;
    forall i | 0 <= i < |a| ensures a[i] == b[i] {
      if i < m {
        assert models[..m + 1][i] == models[..m][i];
      }
    }
  }

  lemma SubtractsStep(models: seq<ModelCfg>, m: nat)
    requires m < |models|
    ensures Subtracts(models[..m + 1]) == Subtracts(models[..m]) + [models[m].sub.GetOr(true)]
  {
    var a, b := Subtracts(models[..m + 1]), Subtracts(models[..m]) + [models[m].sub.GetOr(true)];
    assert |a| == |b|;
    forall i | 0 <= i < |a| ensures a[i] == b[i] {
      if i < m {
        assert models[..m + 1][i] == models[..m][i];
      }
    }
  }

  /** The `_par_idx` of each model. */
  function LocalMaps(models: seq<ModelCfg>): (maps: seq<map<string, nat>>)
    ensures |maps| == |models|
    ensures forall m :: 0 <= m < |models| ==> maps[m] == IndexMap(Entries(models[m], m))
  {
    seq(|models|, m requires 0 <= m < |models| => IndexMap(Entries(models[m], m)))
  }

  lemma LocalMapsStep(models: seq<ModelCfg>, m: nat)
    requires m < |models|
    ensures LocalMaps(models[..m + 1]) == LocalMaps(models[..m]) + [IndexMap(Entries(models[m], m))]
  {
    var a, b := LocalMaps(models[..m + 1]), LocalMaps(models[..m]) + [IndexMap(Entries(models[m], m))];
    assert |a| == |b|;
    forall i | 0 <= i < |a| ensures a[i] == b[i] {
      if i < m {
        assert models[..m + 1][i] == models[..m][i];
      }
    }
  }

  lemma IndexMapStep(es: seq<Entry>, e: Entry)
    ensures IndexMap(es + [e]) == IndexMap(es)[EntryKey(e) := |es|]
  {
    var all := es + [e];
    assert all != [] && all[|all| - 1] == e;
    assert all[..|all| - 1] == es;
  }

  /** The table after the body of the inner loop of lines 170-191 has run
      for one parameter: its label, value, fit flag, prior, prior value and
      re-evaluation text are appended, and `par_idx` maps its key to its
      position in the flat vector. */
  function Recorded(t: Table, e: Entry): Table
  {
    t.(labels := t.labels + [e.par.name], params := t.params + [e.par.value],
       toFit := t.toFit + [e.par.toFit], priors := t.priors + [PriorOf(e)],
       priorVals := t.priorVals + [PriorValOf(e)], reEval := t.reEval + [ReEvalOf(e)],
       parIdx := t.parIdx[EntryKey(e) := |t.params|])
  }

  /** A table that describes the entries `es` describes `es + [e]` once `e`
      is recorded. */
  lemma RecordedStep(t: Table, es: seq<Entry>, e: Entry)
    requires Columns(t.labels, t.params, t.toFit, t.priors, t.priorVals, t.reEval, es)
    requires t.parIdx == IndexMap(es)
    ensures var u := Recorded(t, e);
      && Columns(u.labels, u.params, u.toFit, u.priors, u.priorVals, u.reEval, es + [e])
      && u.parIdx == IndexMap(es + [e])
      && u.npars == t.npars && u.localIdx == t.localIdx && u.subtract == t.subtract
  {
    ColumnsStep(t.labels, t.params, t.toFit, t.priors, t.priorVals, t.reEval, es, e);
    IndexMapStep(es, e);
  }

  /** The body of the inner loop of lines 170-191 for one parameter. */
  method Record(t: Table, e: Entry) returns (t': Table)
    ensures t' == Recorded(t, e)
  {
    var par := e.par;
    var prior: Option<string>, priorVal: Option<seq<real>>, again: Option<string>;
    if par.prior.Some? {
      prior, priorVal := Some(par.prior.value.kind), Some(par.prior.value.value);
    } else {
      prior, priorVal := None, None;
    }
    if par.reEval {
      again := Some(par.text);
    } else {
      again := None;
    }
    t' := t.(labels := t.labels + [par.name], params := t.params + [par.value], toFit := t.toFit + [par.toFit],
             priors := t.priors + [prior], priorVals := t.priorVals + [priorVal], reEval := t.reEval + [again],
             parIdx := t.parIdx[Key(e.modelName, par.name) := |t.params|]);
  }

  lemma AppendOne(a: seq<Entry>, b: seq<Entry>, e: Entry)
    ensures a + (b + [e]) == (a + b) + [e]
  {
  }

  /** The inner loop of lines 170-191 for model number m: its parameters are
      appended to the per-parameter lists and entered in `par_idx`, and its
      own `_par_idx` is built. */
  method AddParameters(t: Table, model: ModelCfg, m: nat, ghost done: seq<Entry>)
    returns (t': Table, local: map<string, nat>)
    requires Columns(t.labels, t.params, t.toFit, t.priors, t.priorVals, t.reEval, done)
    requires t.parIdx == IndexMap(done)
    ensures Columns(t'.labels, t'.params, t'.toFit, t'.priors, t'.priorVals, t'.reEval, done + Entries(model, m))
    ensures t'.parIdx == IndexMap(done + Entries(model, m))
    ensures local == IndexMap(Entries(model, m))
    ensures t'.npars == t.npars && t'.localIdx == t.localIdx && t'.subtract == t.subtract
  {
    t', local := t, map[];
    ghost var mine: seq<Entry> := [];
    ghost var now := done;
    var p := 0;
    while p < |model.parameters|
      invariant 0 <= p <= |model.parameters|
      invariant mine == Entries(model, m)[..p]
      invariant now == done + mine
      invariant Columns(t'.labels, t'.params, t'.toFit, t'.priors, t'.priorVals, t'.reEval, now)
      invariant t'.parIdx == IndexMap(now)
      invariant local == IndexMap(mine)
      invariant t'.npars == t.npars && t'.localIdx == t.localIdx && t'.subtract == t.subtract
    {
      var e := Entry(m, model.name, p, model.parameters[p]);
      RecordedStep(t', now, e);
      IndexMapStep(mine, e);
      AppendOne(done, mine, e);
      EntriesStep(model, m, p);
      t' := Record(t', e);
      local := local[EntryKey(e) := p];
      mine, now := mine + [e], now + [e];
      p := p + 1;
    }
    assert Entries(model, m)[..p] == Entries(model, m);
  }

  lemma EntriesStep(model: ModelCfg, m: nat, p: nat)
    requires p < |model.parameters|
    ensures Entries(model, m)[..p + 1] == Entries(model, m)[..p] + [Entry(m, model.name, p, model.parameters[p])]
  {
    var es := Entries(model, m);
    assert es[..p + 1] == es[..p] + [es[p]];
  }

  /** Lines 169-212: the table-building loop, whose lists and dictionaries
      are kept together in one `Table`. The function objects, the rewriting
      of helper `func` strings and the evaluation of configured expressions
      are not part of this model. */
  method BuildTable(models: seq<ModelCfg>) returns (t: Table)
    ensures IsTableOf(t, models)
  {
    t := Table([], [], [], [], [], [], [], map[], [], []);
    ghost var done: seq<Entry> := [];
    var m := 0;
    while m < |models|
      invariant 0 <= m <= |models|
      invariant done == Flat(models[..m])
      invariant t.npars == Counts(models[..m])
      invariant Columns(t.labels, t.params, t.toFit, t.priors, t.priorVals, t.reEval, done)
      invariant t.parIdx == IndexMap(done)
      invariant t.localIdx == LocalMaps(models[..m])
      invariant t.subtract == Subtracts(models[..m])
    {
      var model := models[m];
      t := t.(npars := t.npars + [|model.parameters|]);
      var local;
      t, local := AddParameters(t, model, m, done);
      done := done + Entries(model, m);
      FlatStep(models, m);
      CountsStep(models, m);
      SubtractsStep(models, m);
      LocalMapsStep(models, m);
      t := t.(localIdx := t.localIdx + [local]);
      t := t.(subtract := t.subtract + [model.sub.GetOr(true)]);
      m := m + 1;
    }
    assert models[..m] == models;
  }

  // ---------------------------------------------------------------------------
  // What the table means

  lemma CountsPrefix(models: seq<ModelCfg>, n: nat)
    requires n <= |models|
    ensures Counts(models[..n]) == Counts(models)[..n]
  {
  }

  /** Each model contributes its parameters, so the flat vector has
      `sum(npars)` entries. */
  lemma {:induction false} FlatLength(models: seq<ModelCfg>)
    ensures |Flat(models)| == PySeq.Sum(Counts(models))
  {
    if models != [] {
      var n := |models| - 1;
      FlatLength(models[..n]);
      CountsPrefix(models, n);
    }
  }

  /** Parameter p of model m sits in the flat vector after all parameters of
      the models before m. */
  lemma {:induction false} FlatAt(models: seq<ModelCfg>, m: nat, p: nat)
    requires m < |models| && p < |models[m].parameters|
    ensures Start(Counts(models), m) + p < |Flat(models)|
    ensures Flat(models)[Start(Counts(models), m) + p] == Entry(m, models[m].name, p, models[m].parameters[p])
  {
    var n := |models| - 1;
    var init := models[..n];
    var front, last := Flat(init), Entries(models[n], n);
    assert Flat(models) == front + last;
    CountsPrefix(models, n);
    FlatLength(init);
    var i := Start(Counts(models), m) + p;
    if m < n {
      FlatAt(init, m, p);
      assert Counts(init)[..m] == Counts(models)[..m];
      assert i < |front| && front[i] == Entry(m, models[m].name, p, models[m].parameters[p]);
    } else {
      assert Counts(models)[..m] == Counts(init);
      assert i == |front| + p && last[p] == Entry(m, models[m].name, p, models[m].parameters[p]);
    }
  }

  /** A key is in the dictionary exactly when some entry carries it, and it
      maps to the last such entry. */
  lemma IndexMapLast(es: seq<Entry>, k: string)
    ensures k in IndexMap(es) <==> exists i :: 0 <= i < |es| && EntryKey(es[i]) == k
    ensures k in IndexMap(es) ==>
      var i := IndexMap(es)[k];
      i < |es| && EntryKey(es[i]) == k && forall j :: i < j < |es| ==> EntryKey(es[j]) != k
  {
    IndexMapKeys(es, k);
    IndexMapValue(es, k);
  }

  lemma {:induction false} IndexMapKeys(es: seq<Entry>, k: string)
    ensures k in IndexMap(es) <==> exists i :: 0 <= i < |es| && EntryKey(es[i]) == k
  {
    if es != [] {
      var n := |es| - 1;
      var init := es[..n];
      IndexMapKeys(init, k);
      assert IndexMap(es) == IndexMap(init)[EntryKey(es[n]) := n];
      if k != EntryKey(es[n]) {
        if k in IndexMap(es) {
          var i :| 0 <= i < n && EntryKey(init[i]) == k;
          assert EntryKey(es[i]) == k;
        }
        if exists i :: 0 <= i < |es| && EntryKey(es[i]) == k {
          var i :| 0 <= i < |es| && EntryKey(es[i]) == k;
          assert EntryKey(init[i]) == k;
        }
      }
    }
  }

  lemma {:induction false} IndexMapValue(es: seq<Entry>, k: string)
    ensures k in IndexMap(es) ==>
      var i := IndexMap(es)[k];
      i < |es| && EntryKey(es[i]) == k && forall j :: i < j < |es| ==> EntryKey(es[j]) != k
  {
    if es != [] {
      var n := |es| - 1;
      var init := es[..n];
      IndexMapValue(init, k);
      assert IndexMap(es) == IndexMap(init)[EntryKey(es[n]) := n];
      if k != EntryKey(es[n]) && k in IndexMap(es) {
        var last := IndexMap(init)[k];
        assert IndexMap(es)[k] == last && EntryKey(init[last]) == k;
        forall j | last < j < |es| ensures EntryKey(es[j]) != k {
          if j < n {
            assert EntryKey(init[j]) != k;
          }
        }
      }
    }
  }

  /** With no two entries sharing a key, entry i's key maps to i. */
  lemma IndexMapDistinct(es: seq<Entry>, i: nat)
    requires forall a, b :: 0 <= a < b < |es| ==> EntryKey(es[a]) != EntryKey(es[b])
    requires i < |es|
    ensures EntryKey(es[i]) in IndexMap(es) && IndexMap(es)[EntryKey(es[i])] == i
  {
    IndexMapLast(es, EntryKey(es[i]));
  }

  /** The mapping keys are the names of the configuration: model names are
      distinct, and so are parameter names within one model. */
  predicate NamesDistinct(models: seq<ModelCfg>)
  {
    && (forall a, b :: 0 <= a < b < |models| ==> models[a].name != models[b].name)
    && (forall m :: 0 <= m < |models| ==> ParamNamesDistinct(models[m]))
  }

  /** The parameter names of one model differ, as the keys of one YAML
      mapping do. */
  predicate ParamNamesDistinct(cfg: ModelCfg)
  {
    forall a, b :: 0 <= a < b < |cfg.parameters| ==> cfg.parameters[a].name != cfg.parameters[b].name
  }

  /** Within one model the key determines the parameter name. */
  lemma KeyCancels(modelName: string, x: string, y: string)
    requires Key(modelName, x) == Key(modelName, y)
    ensures x == y
  {
    var n := |modelName| + 1;
    assert |x| == |y|;
    forall k | 0 <= k < |x| ensures x[k] == y[k] {
      assert x[k] == Key(modelName, x)[n + k];
      assert y[k] == Key(modelName, y)[n + k];
    }
  }

  /** No two parameters of all models share a global key. */
  predicate KeysDistinct(models: seq<ModelCfg>)
  {
    forall a, b :: 0 <= a < b < |Flat(models)| ==> EntryKey(Flat(models)[a]) != EntryKey(Flat(models)[b])
  }

  /** `par_idx[mname + "-" + name]` is where that parameter's value sits in
      `params`, given that no two global keys coincide, and the value found
      there is the configured one. */
  lemma ParIdxPosition(t: Table, models: seq<ModelCfg>, m: nat, p: nat)
    requires IsTableOf(t, models) && KeysDistinct(models)
    requires m < |models| && p < |models[m].parameters|
    ensures Key(models[m].name, models[m].parameters[p].name) in t.parIdx
    ensures Start(t.npars, m) + p < |t.params|
    ensures t.parIdx[Key(models[m].name, models[m].parameters[p].name)] == Start(t.npars, m) + p
    ensures t.params[Start(t.npars, m) + p] == models[m].parameters[p].value
    ensures t.labels[Start(t.npars, m) + p] == models[m].parameters[p].name
  {
    assert t.npars == Counts(models) && t.parIdx == IndexMap(Flat(models));
    FlatKey(models, m, p);
    ValueAt(t, models, m, p);
  }

  /** The same on the flat entries alone: the key of parameter p of model m
      maps to its flat position. */
  lemma FlatKey(models: seq<ModelCfg>, m: nat, p: nat)
    requires KeysDistinct(models)
    requires m < |models| && p < |models[m].parameters|
    ensures Start(Counts(models), m) + p < |Flat(models)|
    ensures Key(models[m].name, models[m].parameters[p].name) in IndexMap(Flat(models))
    ensures IndexMap(Flat(models))[Key(models[m].name, models[m].parameters[p].name)] == Start(Counts(models), m) + p
  {
    var flat := Flat(models);
    var i := Start(Counts(models), m) + p;
    FlatAt(models, m, p);
    assert EntryKey(flat[i]) == Key(models[m].name, models[m].parameters[p].name);
    IndexMapDistinct(flat, i);
  }

  /** `_par_idx[mname + "-" + name]` is the parameter's position within its
      own model. Only the names inside that model need to differ: keys of
      different models may collide without disturbing it. */
  lemma LocalIdxPosition(t: Table, models: seq<ModelCfg>, m: nat, p: nat)
    requires IsTableOf(t, models)
    requires m < |models| && ParamNamesDistinct(models[m])
    requires p < |models[m].parameters|
    ensures var key := Key(models[m].name, models[m].parameters[p].name);
      key in t.localIdx[m] && t.localIdx[m][key] == p
  {
    var cfg := models[m];
    var mine := Entries(cfg, m);
    forall a, b | 0 <= a < b < |mine| ensures EntryKey(mine[a]) != EntryKey(mine[b]) {
      if EntryKey(mine[a]) == EntryKey(mine[b]) {
        KeyCancels(cfg.name, cfg.parameters[a].name, cfg.parameters[b].name);
      }
    }
    IndexMapDistinct(mine, p);
  }

  /** With distinct global keys, the local position is the global index minus
      the parameters of the models before it. */
  lemma LocalGlobalOffset(t: Table, models: seq<ModelCfg>, m: nat, p: nat)
    requires IsTableOf(t, models) && KeysDistinct(models)
    requires m < |models| && p < |models[m].parameters|
    ensures var key := Key(models[m].name, models[m].parameters[p].name);
      && key in t.localIdx[m] && key in t.parIdx
      && t.localIdx[m][key] == t.parIdx[key] - Start(t.npars, m)
  {
    var cfg := models[m];
    forall a, b | 0 <= a < b < |cfg.parameters| ensures cfg.parameters[a].name != cfg.parameters[b].name {
      FlatAt(models, m, a);
      FlatAt(models, m, b);
    }
    LocalIdxPosition(t, models, m, p);
    ParIdxPosition(t, models, m, p);
  }

  /** Two configured models whose keys collide: model "a-b" with parameter
      "c" and model "a" with parameter "b-c" both give "a-b-c". */
  function CollidingModels(): seq<ModelCfg>
  {
    [ModelCfg("a-b", [ParCfg("c", "1", 1.0, true, None, false)], None),
     ModelCfg("a", [ParCfg("b-c", "2", 2.0, true, None, false)], None)]
  }

  lemma CollidingFlat()
    ensures Flat(CollidingModels()) ==
      [Entry(0, "a-b", 0, CollidingModels()[0].parameters[0]), Entry(1, "a", 0, CollidingModels()[1].parameters[0])]
  {
    var models := CollidingModels();
    assert models[..1][..0] == [];
    assert models[..1] == [models[0]];
    assert Flat(models[..1]) == [Entry(0, "a-b", 0, models[0].parameters[0])];
  }

  lemma CollidingKeys()
    ensures |Flat(CollidingModels())| == 2
    ensures EntryKey(Flat(CollidingModels())[0]) == "a-b-c" == EntryKey(Flat(CollidingModels())[1])
  {
    CollidingFlat();
    assert Key("a-b", "c") == "a-b-c";
    assert Key("a", "b-c") == "a-b-c";
  }

  lemma KeysCollide()
    ensures !KeysDistinct(CollidingModels())
    ensures IndexMap(Flat(CollidingModels())) == map["a-b-c" := 1]
  {
    CollidingKeys();
    SameKeyTwice(Flat(CollidingModels()), "a-b-c");
  }

  /** Two entries under one key leave that key mapped to the second. */
  lemma SameKeyTwice(es: seq<Entry>, k: string)
    requires |es| == 2 && EntryKey(es[0]) == k == EntryKey(es[1])
    ensures IndexMap(es) == map[k := 1]
  {
    var e0, e1 := es[0], es[1];
    assert es == [e0] + [e1];
    IndexMapStep([], e0);
    assert [] + [e0] == [e0];
    IndexMapStep([e0], e1);
    assert map[k := 0][k := 1] == map[k := 1];
  }

  lemma CollidingNames()
    ensures NamesDistinct(CollidingModels())
  {
    var models := CollidingModels();
    assert models[0].name != models[1].name by {
      assert |models[0].name| == 3 && |models[1].name| == 1;
    }
    assert |models[0].parameters| == 1 && |models[1].parameters| == 1;
  }

  /** The names of a configuration being distinct does not make the keys
      distinct; where two keys coincide the later parameter wins. */
  lemma KeysCanCollide()
    ensures NamesDistinct(CollidingModels())
    ensures !KeysDistinct(CollidingModels())
    ensures IndexMap(Flat(CollidingModels())) == map["a-b-c" := 1]
  {
    CollidingNames();
    KeysCollide();
  }

  // ---------------------------------------------------------------------------
  // Handing out the slices

  /** What the simulation loop adds to a time-ordered data vector: the output
      of model function m on the slice `params[start:start + npars[m]]`. */
  function SliceFor(npars: seq<nat>, params: seq<real>, m: nat): seq<real>
    requires m < |npars|
  {
    PySeq.Slice(params, Start(npars, m), Start(npars, m) + npars[m])
  }

  lemma StartStep(npars: seq<nat>, m: nat)
    requires m < |npars|
    ensures Start(npars, m + 1) == Start(npars, m) + npars[m]
  {
    assert npars[..m + 1][..m] == npars[..m];
  }

  /** Lines 236-240: `model = 0`, then for each model function in turn
      `model += fun(params[start:start + n], tod)[...]; start += n`. The model
      functions, with the data vector they read, are the parameter `fun`. */
  method Simulate(npars: seq<nat>, params: seq<real>, fun: (nat, seq<real>) -> Field)
    returns (model: Field, start: nat)
    ensures SumBase(model) == Zeros
    ensures Addends(model) == seq(|npars|, m requires 0 <= m < |npars| => fun(m, SliceFor(npars, params, m)))
    ensures start == PySeq.Sum(npars)
  {
    model := Zeros;
    start := 0;
    var m := 0;
    while m < |npars|
      invariant 0 <= m <= |npars|
      invariant start == Start(npars, m)
      invariant SumBase(model) == Zeros
      invariant Addends(model) == seq(m, k requires 0 <= k < m => fun(k, SliceFor(npars, params, k)))
    {
      var n := npars[m];
      ghost var outs := Addends(model);
      var out := fun(m, PySeq.Slice(params, start, start + n));
      model := Sum(model, out);
      assert Addends(model) == outs + [out];
      ghost var next := seq(m + 1, k requires 0 <= k < m + 1 => fun(k, SliceFor(npars, params, k)));
      assert outs + [out] == next by {
        forall k | 0 <= k < m + 1 ensures (outs + [out])[k] == next[k] {
          if k < m {
            assert (outs + [out])[k] == outs[k] == fun(k, SliceFor(npars, params, k));
          } else {
            assert out == fun(m, SliceFor(npars, params, m));
          }
        }
      }
      StartStep(npars, m);
      start := start + n;
      m := m + 1;
    }
    assert npars[..m] == npars;
  }

  /** When the counts add up to the vector's length, the slices are
      consecutive, each has its model's count of entries, and together they
      are exactly the vector. */
  lemma SlicesTile(npars: seq<nat>, params: seq<real>)
    requires PySeq.Sum(npars) == |params|
    ensures forall m :: 0 <= m < |npars| ==>
      Start(npars, m) + npars[m] <= |params| &&
      SliceFor(npars, params, m) == params[Start(npars, m)..Start(npars, m) + npars[m]]
    ensures PySeq.Concat(Slices(npars, params, |npars|)) == params
  {
    forall m | 0 <= m < |npars| ensures Start(npars, m) + npars[m] <= |params| {
      SliceInRange(npars, params, m);
    }
    PrefixSlices(npars, params, |npars|);
    assert npars[..|npars|] == npars;
  }

  lemma SliceInRange(npars: seq<nat>, params: seq<real>, m: nat)
    requires PySeq.Sum(npars) == |params| && m < |npars|
    ensures Start(npars, m) + npars[m] <= |params|
    ensures SliceFor(npars, params, m) == params[Start(npars, m)..Start(npars, m) + npars[m]]
  {
    StartStep(npars, m);
    StartBounded(npars, m + 1);
  }

  /** The slices of the first n models, in model order. */
  function Slices(npars: seq<nat>, params: seq<real>, n: nat): (xs: seq<seq<real>>)
    requires n <= |npars|
    ensures |xs| == n
    ensures forall m :: 0 <= m < n ==> xs[m] == SliceFor(npars, params, m)
  {
    seq(n, m requires 0 <= m < n => SliceFor(npars, params, m))
  }

  lemma SlicesStep(npars: seq<nat>, params: seq<real>, n: nat)
    requires 0 < n <= |npars|
    ensures Slices(npars, params, n)[..n - 1] == Slices(npars, params, n - 1)
  {
    var a, b := Slices(npars, params, n)[..n - 1], Slices(npars, params, n - 1);
    assert |a| == |b|;
    forall m | 0 <= m < n - 1 ensures a[m] == b[m] {
    }
  }

  lemma {:induction false} PrefixSlices(npars: seq<nat>, params: seq<real>, n: nat)
    requires n <= |npars| && PySeq.Sum(npars) == |params|
    ensures Start(npars, n) <= |params|
    ensures PySeq.Concat(Slices(npars, params, n)) == params[..Start(npars, n)]
  {
    StartBounded(npars, n);
    if n > 0 {
      var lo, hi := Start(npars, n - 1), Start(npars, n);
      var xs := Slices(npars, params, n);
      PrefixSlices(npars, params, n - 1);
      SliceInRange(npars, params, n - 1);
      StartStep(npars, n - 1);
      SlicesStep(npars, params, n);
      assert PySeq.Concat(xs) == PySeq.Concat(xs[..n - 1]) + xs[n - 1];
      assert xs[n - 1] == params[lo..hi];
      PySeq.PrefixThenSlice(params, PySeq.Concat(xs[..n - 1]), lo, hi);
    } else {
      assert PySeq.Concat(Slices(npars, params, 0)) == [] == params[..0];
    }
  }

  lemma {:induction false} StartBounded(npars: seq<nat>, n: nat)
    requires n <= |npars|
    ensures Start(npars, n) <= PySeq.Sum(npars)
    decreases |npars| - n
  {
    if n < |npars| {
      StartStep(npars, n);
      StartBounded(npars, n + 1);
    } else {
      assert npars[..n] == npars;
    }
  }

  /** The configured values of a model's parameters, in their order. */
  function Values(cfg: ModelCfg): (vs: seq<real>)
    ensures |vs| == |cfg.parameters|
    ensures forall p :: 0 <= p < |vs| ==> vs[p] == cfg.parameters[p].value
  {
    seq(|cfg.parameters|, p requires 0 <= p < |cfg.parameters| => cfg.parameters[p].value)
  }

  /** Model m receives exactly its own configured values, in their order. */
  lemma ModelReceivesOwnParameters(t: Table, models: seq<ModelCfg>, m: nat)
    requires IsTableOf(t, models) && m < |models|
    ensures SliceFor(t.npars, t.params, m) == Values(models[m])
  {
    var vs := Values(models[m]);
    var lo := Start(t.npars, m);
    FlatLength(models);
    assert t.npars == Counts(models) && t.npars[m] == |vs|;
    SliceInRange(t.npars, t.params, m);
    forall p | 0 <= p < |vs| ensures lo + p < |t.params| && t.params[lo + p] == vs[p] {
      ValueAt(t, models, m, p);
    }
    var slice := SliceFor(t.npars, t.params, m);
    assert slice == t.params[lo..lo + |vs|];
    RunOf(t.params, lo, vs);
  }

  /** Entries `lo` onwards that agree with `vs` form the slice `vs`. */
  lemma RunOf(s: seq<real>, lo: nat, vs: seq<real>)
    requires lo + |vs| <= |s|
    requires forall p :: 0 <= p < |vs| ==> s[lo + p] == vs[p]
    ensures s[lo..lo + |vs|] == vs
  {
    var run := s[lo..lo + |vs|];
    forall p | 0 <= p < |vs| ensures run[p] == vs[p] {
      assert run[p] == s[lo + p];
    }
  }

  /** Entry `Start(m) + p` of the table's columns describes parameter p of
      model m. */
  lemma ValueAt(t: Table, models: seq<ModelCfg>, m: nat, p: nat)
    requires IsTableOf(t, models)
    requires m < |models| && p < |models[m].parameters|
    ensures Start(t.npars, m) + p < |t.params|
    ensures t.params[Start(t.npars, m) + p] == models[m].parameters[p].value
    ensures t.labels[Start(t.npars, m) + p] == models[m].parameters[p].name
  {
    var flat := Flat(models);
    assert t.npars == Counts(models);
    var i := Start(Counts(models), m) + p;
    FlatAt(models, m, p);
    assert Columns(t.labels, t.params, t.toFit, t.priors, t.priorVals, t.reEval, flat);
    assert t.params[i] == flat[i].par.value && t.labels[i] == flat[i].par.name;
  }
}
