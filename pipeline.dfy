/** The stages both record builders (`BuildCharges`, `BuildCredits`)
    run over the records they fetch: the configured formatters, mergers
    and filters, each list in order, then the summary. */
module Pipeline {
  import opened Wrappers
  import opened PyStrings
  import opened PyJson
  import opened Records
  import opened DataRules
  import opened DataProcessor

  // ---------------------------------------------------------------------
  // Sub-lists of records

  /** Every element of a selection is an element of the list it selects
      from, at an index below the number of verdicts. */
  lemma {:induction false} SelectFrom(rs: seq<Record>, vs: seq<bool>, b: bool)
    requires |vs| <= |rs|
    ensures forall x :: x in Select(rs, vs, b) ==> exists j :: 0 <= j < |vs| && rs[j] == x
    decreases |vs|
  {
    if vs != [] {
      SelectFrom(rs, vs[..|vs| - 1], b);
    }
  }

  /** A selection from a list without repeats has no repeats. */
  lemma {:induction false} SelectDistinct(rs: seq<Record>, vs: seq<bool>, b: bool)
    requires |vs| <= |rs| && Distinct(rs)
    ensures Distinct(Select(rs, vs, b))
    decreases |vs|
  {
    if vs != [] {
      var k := |vs| - 1;
      var front := Select(rs, vs[..k], b);
      SelectDistinct(rs, vs[..k], b);
      if vs[k] == b {
        SelectFrom(rs, vs[..k], b);
        DistinctAt(rs, k);
        assert rs[k] !in front by {
          forall x | x in front
            ensures x != rs[k]
          {
            var j :| 0 <= j < k && rs[j] == x;
          }
        }
        var s := front + [rs[k]];
        assert Select(rs, vs, b) == s;
        assert s[..|s| - 1] == front && s[|s| - 1] == rs[k];
      } else {
        assert Select(rs, vs, b) == front;
      }
    }
  }

  /** The rejected-record list only grows, and only by records of `pool`. */
  ghost predicate Grown(before: seq<Record>, after: seq<Record>, pool: seq<Record>)
  {
    |before| <= |after| && after[..|before|] == before &&
    forall x :: x in after[|before|..] ==> x in pool
  }

  lemma GrownTrans(a: seq<Record>, b: seq<Record>, c: seq<Record>, pool: seq<Record>, sub: seq<Record>)
    requires Grown(a, b, pool) && Grown(b, c, sub)
    requires forall x :: x in sub ==> x in pool
    ensures Grown(a, c, pool)
  {
    assert c[..|a|] == b[..|b|][..|a|];
    forall x | x in c[|a|..]
      ensures x in pool
    {
      var i :| |a| <= i < |c| && c[i] == x;
      if i < |b| {
        assert b[i] == x;
        assert x in b[|a|..];
      } else {
        assert x in c[|b|..];
      }
    }
  }

  /** Two selections by the same verdicts have the same length. */
  lemma {:induction false} SelectSameLength<T, U>(a: seq<T>, b: seq<U>, vs: seq<bool>, c: bool)
    requires |vs| <= |a| && |vs| <= |b|
    ensures |Select(a, vs, c)| == |Select(b, vs, c)|
    decreases |vs|
  {
    if vs != [] {
      SelectSameLength(a, b, vs[..|vs| - 1], c);
    }
  }

  /** When every kept record holds its dict, the contents of the kept
      records are the kept dicts. */
  lemma {:induction false} SelectContents(pool: seq<Record>, vals: seq<Dict>, vs: seq<bool>)
    requires |vs| <= |pool| && |vs| <= |vals|
    requires forall j :: 0 <= j < |vs| && vs[j] ==> pool[j].fields == vals[j]
    ensures Contents(Select(pool, vs, true)) == Select(vals, vs, true)
    decreases |vs|
  {
    if vs != [] {
      var k := |vs| - 1;
      var front := Select(pool, vs[..k], true);
      SelectContents(pool, vals, vs[..k]);
      if vs[k] {
        assert Select(pool, vs, true) == front + [pool[k]];
        assert Contents(front + [pool[k]]) == Contents(front) + [pool[k].fields];
      } else {
        assert Select(pool, vs, true) == front;
      }
    }
  }

  /** Records still in play, with the dicts they hold. */
  datatype Narrowed = Narrowed(records: seq<Record>, vals: seq<Dict>)

  /** What one filter keeps of `n`: the records (and their dicts) that
      pass `rule`, in order; an empty pool is kept as it is once the rule
      has a name; the rule's name, its test data or a check that fails
      fails the filter. */
  function Kept(rule: Dict, environ: map<string, string>, dataDir: Option<map<string, Json>>, n: Narrowed): (r: Result<Narrowed>)
    requires |n.records| == |n.vals|
    ensures r.Ok? ==> |r.value.records| == |r.value.vals|
  {
    var name :- NameOf(rule);
    if n.records == [] then Ok(Narrowed([], []))
    else
      var t :- TestData(rule, dataDir);
      var run := FilterRun(n.vals, Checker(rule, environ, t), LogConfig(rule));
      if run.err.Some? then Err(run.err.value)
      else
        SelectSameLength(n.records, n.vals, run.verdicts, true);
        Ok(Narrowed(Select(n.records, run.verdicts, true), Select(n.vals, run.verdicts, true)))
  }

  /** The filters `rules` in order, each on what the previous one kept;
      the first rule that is not a dict or that fails ends the chain. */
  function FilterChain(rules: seq<Result<Dict>>, environ: map<string, string>, dataDir: Option<map<string, Json>>, n: Narrowed): (r: Result<Narrowed>)
    requires |n.records| == |n.vals|
    ensures r.Ok? ==> |r.value.records| == |r.value.vals|
    decreases |rules|
  {
    if rules == [] then Ok(n)
    else
      var rule :- rules[0];
      var m :- Kept(rule, environ, dataDir, n);
      FilterChain(rules[1..], environ, dataDir, m)
  }

  /** A kept list is a list without repeats drawn from the pool. */
  lemma KeptFrom(rule: Dict, environ: map<string, string>, dataDir: Option<map<string, Json>>, n: Narrowed)
    requires |n.records| == |n.vals| && Distinct(n.records)
    ensures var r := Kept(rule, environ, dataDir, n);
      r.Ok? ==> Distinct(r.value.records) && forall x :: x in r.value.records ==> x in n.records
  {
    var r := Kept(rule, environ, dataDir, n);
    if r.Ok? && n.records != [] {
      var run := FilterRun(n.vals, Checker(rule, environ, TestData(rule, dataDir).value), LogConfig(rule));
      SelectDistinct(n.records, run.verdicts, true);
      SelectFrom(n.records, run.verdicts, true);
    }
  }

  /** What a chain of filters keeps is a list without repeats drawn from
      the pool it started with. */
  lemma {:induction false} FilterChainFrom(rules: seq<Result<Dict>>, environ: map<string, string>, dataDir: Option<map<string, Json>>, n: Narrowed)
    requires |n.records| == |n.vals| && Distinct(n.records)
    ensures var r := FilterChain(rules, environ, dataDir, n);
      r.Ok? ==> Distinct(r.value.records) && forall x :: x in r.value.records ==> x in n.records
    decreases |rules|
  {
    if rules != [] && rules[0].Ok? {
      var m := Kept(rules[0].value, environ, dataDir, n);
      KeptFrom(rules[0].value, environ, dataDir, n);
      if m.Ok? {
        FilterChainFrom(rules[1..], environ, dataDir, m.value);
      }
    }
  }

  /** `general_filter_function(pool, rule)` seen from the caller: what
      it hands back is what `Kept` keeps of the pool, the kept records
      hold the kept dicts, and what it logs comes from the pool. */
  method FilterPool(p: Processor, pool: seq<Record>, rule: Dict) returns (r: Result<seq<Record>>)
    requires p.Valid() && Distinct(pool)
    modifies p, set x | x in pool
    ensures p.Valid()
    ensures var k := Kept(rule, p.environ, p.dataDir, Narrowed(pool, old(Contents(pool))));
      (k.Err? ==> r == Err(k.error)) &&
      (k.Ok? ==> r == Ok(k.value.records) && Contents(k.value.records) == k.value.vals)
    ensures Grown(old(p.errorData), p.errorData, pool)
  {
    ghost var vals := Contents(pool);
    ghost var e0 := p.errorData;
    r := p.GeneralFilter(pool, rule);
    if NameOf(rule).Ok? && pool != [] {
      ghost var t := TestData(rule, p.dataDir);
      if t.Ok? {
        ghost var run := FilterRun(vals, Checker(rule, p.environ, t.value), LogConfig(rule));
        SelectFrom(pool, run.verdicts, false);
        assert p.errorData[|e0|..] == (if LogMessage(rule).Some? then Select(pool, run.verdicts, false) else []);
        if run.err.None? {
          SelectContents(pool, vals, run.verdicts);
        }
      }
    }
  }

  // ---------------------------------------------------------------------
  // Stage configurations

  /** The configurations of one stage: `settings[section][key]` when
      `section in settings` and `key in settings[section]`, no
      configurations otherwise. */
  function StageConfigs(settings: Dict, section: string, key: string): (r: Result<seq<Json>>)
    ensures section !in settings ==> r == Ok([])
    ensures section in settings && settings[section].JObj? ==>
      r == (if key !in settings[section].fields then Ok([]) else Iterated(settings[section].fields[key]))
    ensures section in settings && (settings[section].JNull? || settings[section].JBool? || settings[section].JNum?) ==>
      r == Err(TypeError)
  {
    if section !in settings then Ok([])
    else
      var present :- In(JStr(key), settings[section]);
      if !present then Ok([])
      else
        var configs :- Subscript(settings[section], JStr(key));
        Iterated(configs)
  }

  /** A configuration used as a dict: anything else fails at its first
      `config[...]`. */
  function ConfigDict(c: Json): (r: Result<Dict>)
    ensures r.Ok? <==> c.JObj?
    ensures r.Err? ==> r.error == TypeError
  {
    if c.JObj? then Ok(c.fields) else Err(TypeError)
  }

  // ---------------------------------------------------------------------
  // Formatters and mergers

  /** How a rewriting stage reads one configuration: the error it raises,
      `None` for a configuration it passes over, or its per-record
      rewrite. */
  type StageStep = Dict -> Result<Option<Dict -> Result<Dict>>>

  /** `update_field_value` reads its configuration, then rewrites every record. */
  function FormatterStep(conf: Dict): (r: Result<Option<Dict -> Result<Dict>>>)
    ensures r.Ok? <==> UpdateStep(conf).Ok?
    ensures r.Ok? ==> r.value == Some(UpdateStep(conf).value)
  {
    var step :- UpdateStep(conf);
    Ok(Some(step))
  }

  /** `merge_field_data` reads its configuration; a merge type other than
      FIELD or FILE is passed over. */
  function MergerStep(dataDir: Option<map<string, Json>>): (f: StageStep)
    ensures forall conf :: f(conf) == MergeStep(conf, dataDir)
  {
    conf => MergeStep(conf, dataDir)
  }

  /** The record contents after a rewriting stage has run each of the
      configurations `configs` in order over records with contents
      `vals`; the first error stops the stage. */
  function Rewritten(vals: seq<Dict>, configs: seq<Json>, stepOf: StageStep): Result<seq<Dict>>
    decreases |configs|
  {
    if configs == [] then Ok(vals)
    else
      var conf :- ConfigDict(configs[0]);
      var step :- stepOf(conf);
      if step.None? then Rewritten(vals, configs[1..], stepOf)
      else
        var p := ApplyAll(vals, step.value);
        if p.err.Some? then Err(p.err.value) else Rewritten(p.done, configs[1..], stepOf)
  }

  /** A rewriting stage neither adds nor drops records. */
  lemma {:induction false} RewrittenLength(vals: seq<Dict>, configs: seq<Json>, stepOf: StageStep)
    ensures Rewritten(vals, configs, stepOf).Ok? ==> |Rewritten(vals, configs, stepOf).value| == |vals|
    decreases |configs|
  {
    if configs != [] && ConfigDict(configs[0]).Ok? && stepOf(configs[0].fields).Ok? {
      var step := stepOf(configs[0].fields).value;
      if step.None? {
        RewrittenLength(vals, configs[1..], stepOf);
      } else {
        RewrittenLength(ApplyAll(vals, step.value).done, configs[1..], stepOf);
      }
    }
  }

  /** A configuration that is not a dict stops the stage with a
      TypeError, whatever came before it, once the records are empty. */
  lemma {:induction false} RewrittenEmpty(configs: seq<Json>, stepOf: StageStep, i: int)
    requires 0 <= i < |configs| && !configs[i].JObj?
    ensures Rewritten([], configs, stepOf).Err?
    decreases i
  {
    if i > 0 && configs[0].JObj? && stepOf(configs[0].fields).Ok? {
      RewrittenEmpty(configs[1..], stepOf, i - 1);
      var step := stepOf(configs[0].fields).value;
      if step.Some? {
        assert ApplyAll([], step.value).done == [];
      }
    }
  }

  /** One configuration of a rewriting stage that goes through: the stage
      carries on from the rewritten records. */
  lemma RewrittenNext(vals: seq<Dict>, configs: seq<Json>, stepOf: StageStep, after: seq<Dict>)
    requires configs != [] && configs[0].JObj? && stepOf(configs[0].fields).Ok?
    requires stepOf(configs[0].fields).value.None? ==> after == vals
    requires stepOf(configs[0].fields).value.Some? ==>
      ApplyAll(vals, stepOf(configs[0].fields).value.value) == Partial(after, None)
    ensures Rewritten(vals, configs, stepOf) == Rewritten(after, configs[1..], stepOf)
  {
  }

  /** One configuration of a rewriting stage that fails: the stage stops
      with its error. */
  lemma RewrittenStops(vals: seq<Dict>, configs: seq<Json>, stepOf: StageStep)
    requires configs != []
    ensures !configs[0].JObj? ==> Rewritten(vals, configs, stepOf) == Err(TypeError)
    ensures configs[0].JObj? && stepOf(configs[0].fields).Err? ==>
      Rewritten(vals, configs, stepOf) == Err(stepOf(configs[0].fields).error)
    ensures (configs[0].JObj? && stepOf(configs[0].fields).Ok? && stepOf(configs[0].fields).value.Some? &&
             ApplyAll(vals, stepOf(configs[0].fields).value.value).err.Some?) ==>
      Rewritten(vals, configs, stepOf) == Err(ApplyAll(vals, stepOf(configs[0].fields).value.value).err.value)
  {
  }

  /** One formatter: `update_field_value(fines, config)`, where `config`
      heads the configurations `rest` still to run. */
  method FormatOnce(p: Processor, fines: seq<Record>, config: Json, ghost rest: seq<Json>) returns (r: Result<seq<Record>>)
    requires Distinct(fines) && rest != [] && rest[0] == config
    modifies fines
    ensures r.Ok? ==> r.value == fines
    ensures r.Ok? ==> Rewritten(old(Contents(fines)), rest, FormatterStep) == Rewritten(Contents(fines), rest[1..], FormatterStep)
    ensures r.Err? ==> Rewritten(old(Contents(fines)), rest, FormatterStep) == Err(r.error)
  {
    ghost var before := Contents(fines);
    RewrittenStops(before, rest, FormatterStep);
    var conf :- ConfigDict(config);
    r := p.UpdateFieldValue(fines, conf);
    if r.Ok? {
      assert before[|before|..] == [];
      RewrittenNext(before, rest, FormatterStep, Contents(fines));
    }
  }

  /** The `*_formatters` loop: `update_field_value` with each
      configuration in turn. The list itself is handed on. */
  method Formatters(p: Processor, fines: seq<Record>, configs: seq<Json>) returns (r: Result<seq<Record>>)
    requires Distinct(fines)
    modifies fines
    ensures var w := Rewritten(old(Contents(fines)), configs, FormatterStep);
      (r.Ok? <==> w.Ok?) && (r.Ok? ==> r.value == fines && Contents(fines) == w.value) &&
      (r.Err? ==> r.error == w.error)
  {
    ghost var whole := Rewritten(Contents(fines), configs, FormatterStep);
    r := Ok(fines);
    var i := 0;
    while i < |configs| && r.Ok?
      invariant 0 <= i <= |configs|
      invariant r.Ok? ==> r.value == fines && whole == Rewritten(Contents(fines), configs[i..], FormatterStep)
      invariant r.Err? ==> whole == Err(r.error)
    {
      r := FormatOnce(p, fines, configs[i], configs[i..]);
      assert configs[i..][1..] == configs[i + 1..];
      i := i + 1;
    }
  }

  /** One merger: `merge_field_data(fines, config)`, where `config` heads
      the configurations `rest` still to run. */
  method MergeOnce(p: Processor, fines: seq<Record>, config: Json, ghost rest: seq<Json>) returns (r: Result<seq<Record>>)
    requires Distinct(fines) && rest != [] && rest[0] == config
    modifies fines
    ensures r.Ok? ==> r.value == fines
    ensures r.Ok? ==>
      Rewritten(old(Contents(fines)), rest, MergerStep(p.dataDir)) == Rewritten(Contents(fines), rest[1..], MergerStep(p.dataDir))
    ensures r.Err? ==> Rewritten(old(Contents(fines)), rest, MergerStep(p.dataDir)) == Err(r.error)
  {
    ghost var before := Contents(fines);
    ghost var stepOf := MergerStep(p.dataDir);
    RewrittenStops(before, rest, stepOf);
    var conf :- ConfigDict(config);
    assert stepOf(conf) == MergeStep(conf, p.dataDir);
    r := p.MergeFieldData(fines, conf);
    if r.Ok? {
      assert before[|before|..] == [];
      RewrittenNext(before, rest, stepOf, Contents(fines));
    }
  }

  /** The `*_mergers` loop: `merge_field_data` with each configuration in
      turn. The list itself is handed on. */
  method Mergers(p: Processor, fines: seq<Record>, configs: seq<Json>) returns (r: Result<seq<Record>>)
    requires Distinct(fines)
    modifies fines
    ensures var w := Rewritten(old(Contents(fines)), configs, MergerStep(p.dataDir));
      (r.Ok? <==> w.Ok?) && (r.Ok? ==> r.value == fines && Contents(fines) == w.value) &&
      (r.Err? ==> r.error == w.error)
  {
    ghost var whole := Rewritten(Contents(fines), configs, MergerStep(p.dataDir));
    r := Ok(fines);
    var i := 0;
    while i < |configs| && r.Ok?
      invariant 0 <= i <= |configs|
      invariant r.Ok? ==> r.value == fines && whole == Rewritten(Contents(fines), configs[i..], MergerStep(p.dataDir))
      invariant r.Err? ==> whole == Err(r.error)
    {
      r := MergeOnce(p, fines, configs[i], configs[i..]);
      assert configs[i..][1..] == configs[i + 1..];
      i := i + 1;
    }
  }

  // ---------------------------------------------------------------------
  // Filters

  /** The filter configurations of a stage, each used as a dict. */
  function ConfigRules(configs: seq<Json>): (r: seq<Result<Dict>>)
    ensures |r| == |configs| && forall i :: 0 <= i < |configs| ==> r[i] == ConfigDict(configs[i])
  {
    seq(|configs|, i requires 0 <= i < |configs| => ConfigDict(configs[i]))
  }

  /** The `*_filters` loop: `general_filter_function` with each
      configuration in turn, each on the previous one's output. */
  method Filters(p: Processor, fines: seq<Record>, configs: seq<Json>) returns (r: Result<seq<Record>>)
    requires p.Valid() && Distinct(fines)
    modifies p, set x | x in fines
    ensures p.Valid()
    ensures var w := FilterChain(ConfigRules(configs), p.environ, p.dataDir, Narrowed(fines, old(Contents(fines))));
      (w.Err? ==> r == Err(w.error)) &&
      (w.Ok? ==> r == Ok(w.value.records) && Contents(w.value.records) == w.value.vals)
    ensures Grown(old(p.errorData), p.errorData, fines)
    ensures configs == [] ==>
      p.filterData == old(p.filterData) && p.errorData == old(p.errorData) &&
      Contents(fines) == old(Contents(fines))
  {
    ghost var rules := ConfigRules(configs);
    ghost var whole := FilterChain(rules, p.environ, p.dataDir, Narrowed(fines, Contents(fines)));
    ghost var e0 := p.errorData;
    if configs == [] {
      return Ok(fines);
    }
    var current := fines;
    var i := 0;
    while i < |configs|
      invariant 0 <= i <= |configs|
      invariant p.Valid() && Distinct(current)
      invariant forall x :: x in current ==> x in fines
      invariant whole == FilterChain(rules[i..], p.environ, p.dataDir, Narrowed(current, Contents(current)))
      invariant Grown(e0, p.errorData, fines)
    {
      var conf := ConfigDict(configs[i]);
      if conf.Err? {
        return Err(conf.error);
      }
      ghost var n := Narrowed(current, Contents(current));
      ghost var e1 := p.errorData;
      KeptFrom(conf.value, p.environ, p.dataDir, n);
      var out := FilterPool(p, current, conf.value);
      GrownTrans(e0, e1, p.errorData, fines, current);
      if out.Err? {
        return Err(out.error);
      }
      assert rules[i..][1..] == rules[i + 1..];
      current := out.value;
      i := i + 1;
    }
    return Ok(current);
  }

  // ---------------------------------------------------------------------
  // The API merges

  /** `PATRON_MERGE_SETTINGS` of both builders. */
  const PatronMerge: Dict :=
    map["merge_type" := JStr("API"), "api_call" := JStr("{{FOLIO}}/users/{{ID}}"),
        "filter_field" := JStr("userId"), "new_field" := JStr("patron"),
        "api_action" := JStr("BATCH"), "api_root" := JBool(false)]

  /** `MATERIAL_MERGE_SETTINGS` of both builders. */
  const MaterialMerge: Dict :=
    map["merge_type" := JStr("API"), "api_call" := JStr("{{FOLIO}}/material-types?limit=1000"),
        "filter_field" := JStr("materialTypeId"), "new_field" := JStr("material"),
        "api_action" := JStr("FLATTEN"), "api_root" := JStr("mtypes")]

  /** `merge_field_data` knows only FIELD and FILE, so both API merges
      pass the records over: no patron or material data is merged. */
  lemma ApiMergesPassOver(dataDir: Option<map<string, Json>>)
    ensures MergeStep(PatronMerge, dataDir) == Ok(None)
    ensures MergeStep(MaterialMerge, dataDir) == Ok(None)
  {
    assert Upper("API") == "API";
  }

  /** The builders' two API merges, `merge_field_data(fines, ...)` with
      the patron settings and with the material settings, in the order
      `patronFirst` says: the records come back as they went in. */
  method ApiMerges(p: Processor, fines: seq<Record>, patronFirst: bool) returns (r: seq<Record>)
    requires Distinct(fines)
    modifies set x | x in fines
    ensures r == fines && Contents(fines) == old(Contents(fines))
  {
    ApiMergesPassOver(p.dataDir);
    var first := if patronFirst then PatronMerge else MaterialMerge;
    var second := if patronFirst then MaterialMerge else PatronMerge;
    var merged := p.MergeFieldData(fines, first);
    r := merged.value;
    merged := p.MergeFieldData(r, second);
    r := merged.value;
  }

  // ---------------------------------------------------------------------
  // The summary

  /** What `get_filter_data()` hands back for the counters `c`. */
  function Counters(c: map<string, int>): (r: Option<map<string, int>>)
    ensures r.None? <==> c == map[]
    ensures r.Some? ==> r.value == c
  {
    if c == map[] then None else Some(c)
  }

  /** `summary.update(get_filter_data())` as written: after a run in
      which no filter ran the counters are `None`, and `dict.update(None)`
      raises TypeError. */
  function AddCountersAsWritten(summary: Dict, counters: Option<map<string, int>>): (r: Result<Dict>)
    ensures r.Err? <==> counters.None?
    ensures r.Err? ==> r.error == TypeError
  {
    match counters
    case None => Err(TypeError)
    case Some(c) => Ok(AddCounters(summary, counters))
  }

  /** A job without filters never gets its counters: a fresh rule engine
      has none, so the as-written update fails. */
  lemma NoFiltersRaiseAsWritten(summary: Dict)
    ensures AddCountersAsWritten(summary, Counters(map[])) == Err(TypeError)
  {
  }

  /** `summary.update(get_filter_data() or {})`: the counters, as
      numbers, over the summary; a run without filters adds nothing. */
  function AddCounters(summary: Dict, counters: Option<map<string, int>>): (r: Dict)
    ensures counters.None? ==> r == summary
    ensures counters.Some? ==> r.Keys == summary.Keys + counters.value.Keys
    ensures counters.Some? ==> forall k :: k in r ==>
      r[k] == if k in counters.value then JNum(counters.value[k]) else summary[k]
  {
    match counters
    case None => summary
    case Some(c) => summary + map k | k in c :: JNum(c[k])
  }

  /** The corrected update agrees with the as-written one wherever that
      one does not fail. */
  lemma AddCountersAgrees(summary: Dict, counters: Option<map<string, int>>)
    ensures AddCountersAsWritten(summary, counters).Ok? ==>
      AddCountersAsWritten(summary, counters).value == AddCounters(summary, counters)
  {
  }

  /** The keys `gen_data_summary` writes for the labels `charge` and
      `errors`. */
  function SummaryKeys(): set<string>
  {
    {"charge_total", "charge_remaining", "charge_record_count", "charge_owner_stats",
     "errors_total", "errors_remaining", "errors_record_count", "errors_owner_stats"}
  }

  /** The builders' summary: the counters over `summary`, then the
      `charge` summary of the surviving records and the `errors` summary
      of the rejected ones. */
  function Summarised(summary: Dict, counters: Option<map<string, int>>, vals: seq<Dict>, errs: seq<Dict>): Result<Dict>
  {
    var charge :- SummaryOf(vals);
    var errors :- SummaryOf(errs);
    Ok(AddCounters(summary, counters) + SummaryDict(charge, "charge") + SummaryDict(errors, "errors"))
  }

  /** The entries `gen_data_summary` writes for the label `charge`. */
  lemma ChargeSummaryKeys(s: Summary)
    ensures var d := SummaryDict(s, "charge");
      d.Keys == {"charge_total", "charge_remaining", "charge_record_count", "charge_owner_stats"} &&
      d["charge_record_count"] == JNum(s.count)
  {
    assert "charge" + "_total" == "charge_total";
    assert "charge" + "_remaining" == "charge_remaining";
    assert "charge" + "_record_count" == "charge_record_count";
    assert "charge" + "_owner_stats" == "charge_owner_stats";
  }

  /** The entries `gen_data_summary` writes for the label `errors`. */
  lemma ErrorsSummaryKeys(s: Summary)
    ensures var d := SummaryDict(s, "errors");
      d.Keys == {"errors_total", "errors_remaining", "errors_record_count", "errors_owner_stats"} &&
      d["errors_record_count"] == JNum(s.count)
  {
    assert "errors" + "_total" == "errors_total";
    assert "errors" + "_remaining" == "errors_remaining";
    assert "errors" + "_record_count" == "errors_record_count";
    assert "errors" + "_owner_stats" == "errors_owner_stats";
  }

  /** No summary key is a counter name. */
  lemma SummaryKeysAreNotCounters(k: string)
    requires CounterName(k)
    ensures k !in SummaryKeys()
  {
    assert k[..6] == "passed" || k[..6] == "failed";
    assert "charge_total"[..6] == "charge_remaining"[..6] == "charge_record_count"[..6] == "charge_owner_stats"[..6] == "charge";
    assert "errors_total"[..6] == "errors_remaining"[..6] == "errors_record_count"[..6] == "errors_owner_stats"[..6] == "errors";
  }

  /** What the summary holds: its keys, the two record counts, every
      counter, and every earlier entry that no counter or summary key
      replaces. */
  lemma SummarisedMeaning(summary: Dict, counters: Option<map<string, int>>, vals: seq<Dict>, errs: seq<Dict>)
    requires counters.Some? ==> CountersPaired(counters.value)
    ensures var r := Summarised(summary, counters, vals, errs);
      (r.Ok? <==> SummaryOf(vals).Ok? && SummaryOf(errs).Ok?) &&
      (r.Ok? ==>
        r.value.Keys == summary.Keys + SummaryKeys() + (if counters.Some? then counters.value.Keys else {}) &&
        r.value["charge_record_count"] == JNum(|vals|) && r.value["errors_record_count"] == JNum(|errs|) &&
        (forall k :: k in summary && k !in SummaryKeys() && (counters.None? || k !in counters.value) ==>
          r.value[k] == summary[k]) &&
        (counters.Some? ==> forall k :: k in counters.value ==> r.value[k] == JNum(counters.value[k])))
  {
    var r := Summarised(summary, counters, vals, errs);
    if r.Ok? {
      SummaryOfMeaning(vals);
      SummaryOfMeaning(errs);
      ChargeSummaryKeys(SummaryOf(vals).value);
      ErrorsSummaryKeys(SummaryOf(errs).value);
      if counters.Some? {
        forall k | k in counters.value
          ensures k !in SummaryKeys()
        {
          SummaryKeysAreNotCounters(k);
        }
      }
    }
  }

  /** `__filter_data` of a new builder: the counts that open the summary. */
  const InitialSummary: Dict :=
    map["reportedRecordCount" := JNum(0), "uniquePatronCount" := JNum(0), "rawRecordCount" := JNum(0)]

  /** The builders' own counts are neither counters nor summary keys, so
      the summary keeps them. */
  lemma OwnCountsKept(k: string)
    requires k in InitialSummary
    ensures !CounterName(k) && k !in SummaryKeys()
  {
    assert k == "reportedRecordCount" || k == "uniquePatronCount" || k == "rawRecordCount";
    assert k[..6] == "report" || k[..6] == "unique" || k[..6] == "rawRec";
  }

  /** What a builder's summary holds after the counters and the two
      record summaries went in: the raw record count, the two record
      counts, every rule counter and the patron count, if there was one. */
  lemma SummaryCounts(summary: Dict, base: Dict, counters: map<string, int>, data: seq<Dict>, error: seq<Dict>, raw: nat)
    requires "rawRecordCount" in base && base["rawRecordCount"] == JNum(raw)
    requires CountersPaired(counters)
    requires Summarised(base, Counters(counters), data, error) == Ok(summary)
    ensures "rawRecordCount" in summary && summary["rawRecordCount"] == JNum(raw)
    ensures "charge_record_count" in summary && summary["charge_record_count"] == JNum(|data|)
    ensures "errors_record_count" in summary && summary["errors_record_count"] == JNum(|error|)
    ensures "uniquePatronCount" in base ==> "uniquePatronCount" in summary && summary["uniquePatronCount"] == base["uniquePatronCount"]
    ensures forall k :: k in counters ==> k in summary && summary[k] == JNum(counters[k])
  {
    SummarisedMeaning(base, Counters(counters), data, error);
    OwnCountsKept("rawRecordCount");
    OwnCountsKept("uniquePatronCount");
  }

  /** The result of `get_charges` / `get_credits`: `{data, error, summary}`. */
  datatype Built = Built(data: seq<Record>, error: seq<Record>, summary: Dict)

  /** The end of both builders: the counters, the rejected records and
      the two summaries over `summary`. */
  method Finish(p: Processor, summary: Dict, fines: seq<Record>) returns (r: Result<Built>)
    ensures var s := Summarised(summary, Counters(p.filterData), Contents(fines), Contents(p.errorData));
      (r.Ok? <==> s.Ok?) && (r.Ok? ==> r.value == Built(fines, p.errorData, s.value)) &&
      (r.Err? ==> r.error == s.error)
  {
    var counters := p.GetFilterData();
    var out := AddCounters(summary, counters);
    var errors := p.GetErrorData();
    var charge :- p.GenDataSummary(fines, "charge");
    out := out + charge;
    var errs :- p.GenDataSummary(errors, "errors");
    out := out + errs;
    return Ok(Built(fines, errors, out));
  }

  // ---------------------------------------------------------------------
  // The stages in order

  /** The record contents after the formatters, then the mergers, of the
      record kind `kind` (`charge` or `credit`). */
  function Reformatted(vals: seq<Dict>, settings: Dict, kind: string, dataDir: Option<map<string, Json>>): Result<seq<Dict>>
  {
    var formatters :- StageConfigs(settings, "formatters", kind + "_formatters");
    var formatted :- Rewritten(vals, formatters, FormatterStep);
    var mergers :- StageConfigs(settings, "mergers", kind + "_mergers");
    Rewritten(formatted, mergers, MergerStep(dataDir))
  }

  /** Formatters and mergers keep every record. */
  lemma ReformattedLength(vals: seq<Dict>, settings: Dict, kind: string, dataDir: Option<map<string, Json>>)
    ensures Reformatted(vals, settings, kind, dataDir).Ok? ==> |Reformatted(vals, settings, kind, dataDir).value| == |vals|
  {
    var formatters := StageConfigs(settings, "formatters", kind + "_formatters");
    var mergers := StageConfigs(settings, "mergers", kind + "_mergers");
    if formatters.Ok? && mergers.Ok? {
      RewrittenLength(vals, formatters.value, FormatterStep);
      var formatted := Rewritten(vals, formatters.value, FormatterStep);
      if formatted.Ok? {
        RewrittenLength(formatted.value, mergers.value, MergerStep(dataDir));
      }
    }
  }

  /** The records and dicts the stages leave of `fines` (holding
      `vals`): the formatters and mergers rewrite every dict, then the
      filter chain narrows the list. */
  function Staged(fines: seq<Record>, vals: seq<Dict>, settings: Dict, kind: string,
                  environ: map<string, string>, dataDir: Option<map<string, Json>>): (r: Result<Narrowed>)
    requires |fines| == |vals|
    ensures r.Ok? ==> Reformatted(vals, settings, kind, dataDir).Ok?
  {
    var v :- Reformatted(vals, settings, kind, dataDir);
    var filters :- StageConfigs(settings, "filters", kind + "_filters");
    ReformattedLength(vals, settings, kind, dataDir);
    FilterChain(ConfigRules(filters), environ, dataDir, Narrowed(fines, v))
  }

  /** The stages of `process_*` in order: formatters, mergers, filters.
      The list handed back is what `Staged` leaves, and its records hold
      the dicts `Staged` leaves. */
  method Stages(p: Processor, settings: Dict, kind: string, fines: seq<Record>) returns (r: Result<seq<Record>>)
    requires p.Valid() && Distinct(fines)
    modifies p, set x | x in fines
    ensures p.Valid()
    ensures var w := Staged(fines, old(Contents(fines)), settings, kind, p.environ, p.dataDir);
      (w.Err? ==> r == Err(w.error)) &&
      (w.Ok? ==> r == Ok(w.value.records) && Contents(w.value.records) == w.value.vals)
    ensures r.Ok? ==> Distinct(r.value) && forall x :: x in r.value ==> x in fines
    ensures Grown(old(p.errorData), p.errorData, fines)
    ensures r.Ok? && StageConfigs(settings, "filters", kind + "_filters") == Ok([]) ==>
      r.value == fines && p.filterData == old(p.filterData) && p.errorData == old(p.errorData) &&
      Contents(fines) == Reformatted(old(Contents(fines)), settings, kind, p.dataDir).value
  {
    ghost var vals := Contents(fines);
    var formatters :- StageConfigs(settings, "formatters", kind + "_formatters");
    var out :- Formatters(p, fines, formatters);
    var mergers :- StageConfigs(settings, "mergers", kind + "_mergers");
    out :- Mergers(p, fines, mergers);
    assert Reformatted(vals, settings, kind, p.dataDir) == Ok(Contents(fines));
    var filters :- StageConfigs(settings, "filters", kind + "_filters");
    FilterChainFrom(ConfigRules(filters), p.environ, p.dataDir, Narrowed(fines, Contents(fines)));
    r := Filters(p, fines, filters);
  }

  /** Everything the builders do after fetching and merging: the stages,
      then the summary over `summary` of the dicts the stages leave. */
  method Process(p: Processor, settings: Dict, kind: string, summary: Dict, fines: seq<Record>) returns (r: Result<Built>)
    requires p.Valid() && Distinct(fines)
    modifies p, set x | x in fines
    ensures p.Valid()
    ensures var w := Staged(fines, old(Contents(fines)), settings, kind, p.environ, p.dataDir);
      w.Err? ==> r == Err(w.error)
    ensures var w := Staged(fines, old(Contents(fines)), settings, kind, p.environ, p.dataDir);
      r.Ok? ==>
        w.Ok? && r.value.data == w.value.records && r.value.error == p.errorData &&
        Summarised(summary, Counters(p.filterData), w.value.vals, Contents(p.errorData)) == Ok(r.value.summary)
    ensures r.Ok? ==> Distinct(r.value.data) && (forall x :: x in r.value.data ==> x in fines)
    ensures r.Ok? ==> r.value.error == p.errorData && Grown(old(p.errorData), p.errorData, fines)
    ensures r.Ok? ==> Summarised(summary, Counters(p.filterData), Contents(r.value.data), Contents(r.value.error)) == Ok(r.value.summary)
    ensures r.Ok? ==> Reformatted(old(Contents(fines)), settings, kind, p.dataDir).Ok?
    ensures r.Ok? && StageConfigs(settings, "filters", kind + "_filters") == Ok([]) ==>
      r.value.data == fines && p.filterData == old(p.filterData) &&
      Contents(fines) == Reformatted(old(Contents(fines)), settings, kind, p.dataDir).value
  {
    var kept :- Stages(p, settings, kind, fines);
    r := Finish(p, summary, kept);
  }
}
