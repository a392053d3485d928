/** The `DataProcessor` object: it filters, rewrites, merges and
    summarises record lists by the rules of the YAML configuration, and
    keeps per-rule pass/fail counters and the rejected records it was told
    to log. */
module DataProcessor {
  import opened Wrappers
  import opened PyStrings
  import opened PyJson
  import opened Records
  import opened DataRules

  /** Apply a per-record rewrite to each record in place, in order; the
      first error stops the loop and leaves the later records as they
      were. */
  method ApplyToRecords(fines: seq<Record>, step: Dict -> Result<Dict>) returns (r: Result<seq<Record>>)
    requires Distinct(fines)
    modifies fines
    ensures var p := ApplyAll(old(Contents(fines)), step);
      Contents(fines) == p.done + old(Contents(fines))[|p.done|..] &&
      r == (if p.err.None? then Ok(fines) else Err(p.err.value))
  {
    ghost var vals := Contents(fines);
    var i := 0;
    while i < |fines|
      invariant 0 <= i <= |fines|
      invariant forall j :: 0 <= j < i ==> step(vals[j]) == Ok(fines[j].fields)
      invariant forall j :: i <= j < |fines| ==> fines[j].fields == vals[j]
    {
      var next := step(fines[i].fields);
      if next.Err? {
        ApplyAllFrom(vals, step, Contents(fines)[..i]);
        assert Contents(fines) == Contents(fines)[..i] + vals[i..];
        return Err(next.error);
      }
      DistinctAt(fines, i);
      fines[i].fields := next.value;
      i := i + 1;
    }
    ApplyAllFrom(vals, step, Contents(fines));
    assert vals[|fines|..] == [];
    r := Ok(fines);
  }

  /** Whether counters are paired depends on their names only. */
  lemma CountersPairedKeys(c0: map<string, int>, c: map<string, int>)
    requires CountersPaired(c0) && c.Keys == c0.Keys
    ensures CountersPaired(c)
  {
    forall n | PassedKey(n) in c ensures FailedKey(n) in c {
      assert PassedKey(n) in c0.Keys;
    }
  }

  /** The counters `counters`, the error log `log` and the record
      contents `contents` are what the verdicts `vs` on the first records
      of `fines` (whose contents were `vals`) leave, starting from the
      counters `c0` and the log `e0`. */
  ghost predicate AppliedTo(fines: seq<Record>, vals: seq<Dict>, msg: Option<Json>, name: string,
                            c0: map<string, int>, e0: seq<Record>, vs: seq<bool>,
                            counters: map<string, int>, log: seq<Record>, contents: seq<Dict>)
  {
    |vs| <= |fines| == |vals| && PassedKey(name) in c0 && FailedKey(name) in c0 &&
    counters == Counted(c0, name, vs) &&
    log == e0 + (if msg.Some? then Select(fines, vs, false) else []) &&
    contents == Stamped(vals, vs, msg)
  }

  /** Handling the next record with verdict `b` (one counter up, the
      record stamped and logged when it is rejected) extends `vs` by `b`. */
  lemma AppliedSnoc(fines: seq<Record>, vals: seq<Dict>, msg: Option<Json>, name: string,
                    c0: map<string, int>, e0: seq<Record>, vs: seq<bool>,
                    counters: map<string, int>, log: seq<Record>, contents: seq<Dict>, b: bool,
                    counters': map<string, int>, log': seq<Record>, contents': seq<Dict>)
    requires AppliedTo(fines, vals, msg, name, c0, e0, vs, counters, log, contents) && |vs| < |fines|
    requires counters' == if b then counters[PassedKey(name) := counters[PassedKey(name)] + 1]
                          else counters[FailedKey(name) := counters[FailedKey(name)] + 1]
    requires log' == log + (if !b && msg.Some? then [fines[|vs|]] else [])
    requires contents' == contents[|vs| := Stamp(vals[|vs|], !b, msg)]
    ensures AppliedTo(fines, vals, msg, name, c0, e0, vs + [b], counters', log', contents')
  {
    StampedSnoc(vals, vs, msg, b);
    CountedSnoc(c0, name, vs, b);
    SelectSnoc(fines, vs, false, b);
  }

  /** The handling of the record at `i` given its verdict `ok`: the
      pass or fail counter goes up, a rejected record is stamped with the
      message `msg` and logged when there is one, and `logged` is the
      outcome of the failure handling, which fails as the log
      configuration `log` does. A failed check changes nothing. */
  ghost predicate OneStep(fines: seq<Record>, i: int, msg: Option<Json>, log: Result<Option<Json>>, name: string,
                          ok: Result<bool>, logged: Result<Unit>,
                          counters: map<string, int>, errs: seq<Record>, contents: seq<Dict>,
                          counters': map<string, int>, errs': seq<Record>, contents': seq<Dict>)
  {
    && 0 <= i < |fines| && |contents| == |fines|
    && PassedKey(name) in counters && FailedKey(name) in counters
    && (ok == Ok(true) ==> counters' == counters[PassedKey(name) := counters[PassedKey(name)] + 1])
    && (ok == Ok(false) ==> counters' == counters[FailedKey(name) := counters[FailedKey(name)] + 1])
    && (ok.Err? ==> counters' == counters && errs' == errs && contents' == contents)
    && contents' == contents[i := Stamp(contents[i], ok == Ok(false), msg)]
    && errs' == errs + (if ok == Ok(false) && msg.Some? then [fines[i]] else [])
    && (ok != Ok(false) ==> logged == Ok(Unit))
    && (ok == Ok(false) ==> (logged.Ok? <==> log.Ok?))
    && (logged.Err? ==> log.Err? && logged.error == log.error)
  }

  /** What one turn of the filter loop leaves, given the verdict `ok` on
      the next record and the outcome `logged` of its failure handling:
      either the run's error, or `vs` extended by the verdict, with the
      counters, log and contents following it. */
  lemma StepOutcome(fines: seq<Record>, vals: seq<Dict>, msg: Option<Json>, log: Result<Option<Json>>, name: string,
                    c0: map<string, int>, e0: seq<Record>, vs: seq<bool>, check: Dict -> Result<bool>,
                    counters: map<string, int>, errs: seq<Record>, contents: seq<Dict>,
                    ok: Result<bool>, logged: Result<Unit>,
                    counters': map<string, int>, errs': seq<Record>, contents': seq<Dict>)
    requires AppliedTo(fines, vals, msg, name, c0, e0, vs, counters, errs, contents) && |vs| < |fines|
    requires Handled(vals, check, log, vs) && ok == check(contents[|vs|])
    requires OneStep(fines, |vs|, msg, log, name, ok, logged, counters, errs, contents, counters', errs', contents')
    ensures ok.Err? ==> FilterRun(vals, check, log) == Run(vs, Some(ok.error)) &&
                        AppliedTo(fines, vals, msg, name, c0, e0, vs, counters', errs', contents')
    ensures ok.Ok? ==> AppliedTo(fines, vals, msg, name, c0, e0, vs + [ok.value], counters', errs', contents')
    ensures ok.Ok? && logged.Err? ==> !ok.value && FilterRun(vals, check, log) == Run(vs + [false], Some(logged.error))
    ensures ok.Ok? && logged.Ok? ==> Handled(vals, check, log, vs + [ok.value])
  {
    assert contents[|vs|] == vals[|vs|];
    if ok.Err? {
      FilterRunCheckFails(vals, check, log, vs, ok.error);
    } else {
      AppliedSnoc(fines, vals, msg, name, c0, e0, vs, counters, errs, contents, ok.value, counters', errs', contents');
      if logged.Err? {
        FilterRunLogFails(vals, check, log, vs);
      } else {
        HandledSnoc(vals, check, log, vs, ok.value);
      }
    }
  }

  class Processor {
    /** The data sets `dataSets/<name>.json` beside the script directory;
        `None` when the object given as `script_dir` is not a path. */
    const dataDir: Option<map<string, Json>>
    /** The process environment read by `ENV|NAME` filter values. */
    const environ: map<string, string>
    /** `passed<rule>` / `failed<rule>` counters. */
    var filterData: map<string, int>
    /** The rejected records of rules with `log_error` set, in order. */
    var errorData: seq<Record>

    ghost predicate Valid()
      reads this
    {
      CountersPaired(filterData)
    }

    constructor (dataDir: Option<map<string, Json>>, environ: map<string, string>)
      ensures this.dataDir == dataDir && this.environ == environ
      ensures filterData == map[] && errorData == [] && Valid()
    {
      this.dataDir := dataDir;
      this.environ := environ;
      filterData := map[];
      errorData := [];
    }

    /** `get_filter_data()`: the counters, or `None` while there are none. */
    method GetFilterData() returns (r: Option<map<string, int>>)
      ensures r.None? <==> filterData == map[]
      ensures r.Some? ==> r.value == filterData
    {
      if filterData == map[] {
        return None;
      }
      return Some(filterData);
    }

    /** `get_error_data()` */
    method GetErrorData() returns (r: seq<Record>)
      ensures r == errorData
    {
      return errorData;
    }

    /** `__filter_get_field_value(data, settings)`, walking the dotted
        path key by key. */
    method FilterGetFieldValue(data: Dict, settings: Dict) returns (r: Result<Json>)
      ensures r == FieldValue(data, settings)
    {
      var field :- Lookup(settings, "filter_field");
      var path :- AsStr(field);
      var keys := Split(path, ".");
      var cur := JObj(data);
      var i := 0;
      while i < |keys|
        invariant 0 <= i <= |keys|
        invariant Walk(JObj(data), keys) == Walk(cur, keys[i..])
      {
        assert keys[i..][0] == keys[i] && keys[i..][1..] == keys[i + 1..];
        var present :- In(JStr(keys[i]), cur);
        if !present {
          return Ok(Absent);
        }
        cur :- Index(cur, keys[i]);
        i := i + 1;
      }
      assert keys[i..] == [];
      var t :- Lookup(settings, "field_transform");
      var transform :- AsStr(t);
      if Upper(transform) == "COUNT" {
        var n :- Len(cur);
        return Ok(JNum(n));
      }
      return Ok(cur);
    }

    /** The verdict of the filter loop body on one record. */
    method Check(f: Dict, settings: Dict, testData: Option<Json>) returns (r: Result<bool>)
      ensures r == Checker(settings, environ, testData)(f)
    {
      var v :- FilterGetFieldValue(f, settings);
      var fv :- FilterValue(settings, environ);
      var opv :- Lookup(settings, "filter_operator");
      var op :- AsStr(opv);
      r := Accepts(Upper(op), v, fv, testData);
    }

    /** `__flatten_array(ary)`: the `uuid` of every element, in order. */
    method FlattenArray(ary: Json) returns (r: Result<seq<Json>>)
      ensures r == Flatten(ary)
    {
      var xs :- KeyedElements(ary);
      var out: seq<Json> := [];
      var i := 0;
      assert xs[0..] == xs && forall t: seq<Json> :: [] + t == t;
      while i < |xs|
        invariant 0 <= i <= |xs|
        invariant UuidsOf(xs) == (var rest := UuidsOf(xs[i..]); if rest.Ok? then Ok(out + rest.value) else rest)
      {
        assert xs[i..][0] == xs[i] && xs[i..][1..] == xs[i + 1..];
        var u :- Index(xs[i], "uuid");
        assert forall t :: out + ([u] + t) == (out + [u]) + t;
        out := out + [u];
        i := i + 1;
      }
      assert xs[i..] == [] && out + [] == out;
      return Ok(out);
    }

    /** The data set an IN_FILE filter tests against. */
    method LoadFilterData(settings: Dict) returns (r: Result<Option<Json>>)
      ensures r == TestData(settings, dataDir)
    {
      var load :- Lookup(settings, "load");
      if !Truthy(load) {
        return Ok(None);
      }
      var data :- LoadFile(load, dataDir);
      var flatten :- Lookup(settings, "flatten");
      if Truthy(flatten) {
        var ids :- FlattenArray(data);
        return Ok(Some(JList(ids)));
      }
      return Ok(Some(data));
    }

    /** `__filter_error(data, settings)`: count the failure, then, when the
        rule logs errors, stamp the record with the message and keep it. */
    method FilterError(rec: Record, settings: Dict, name: string) returns (r: Result<Unit>)
      requires FailedKey(name) in filterData
      modifies this, rec
      ensures filterData == old(filterData)[FailedKey(name) := old(filterData)[FailedKey(name)] + 1]
      ensures r.Ok? <==> LogConfig(settings).Ok?
      ensures r.Err? ==> r.error == LogConfig(settings).error
      ensures rec.fields == Stamp(old(rec.fields), true, LogMessage(settings))
      ensures errorData == old(errorData) + (if LogMessage(settings).Some? then [rec] else [])
    {
      filterData := filterData[FailedKey(name) := filterData[FailedKey(name)] + 1];
      var msg :- LogConfig(settings);
      if msg.Some? {
        rec.fields := rec.fields["errorCode" := msg.value];
        errorData := errorData + [rec];
      }
      return Ok(Unit);
    }

    /** The body of `general_filter_function`'s loop for the record at
        `i`: its verdict, then the pass count, or the failure handling of
        `__filter_error`. */
    method FilterOne(fines: seq<Record>, i: int, settings: Dict, name: string, testData: Option<Json>, ghost check: Dict -> Result<bool>)
      returns (ok: Result<bool>, logged: Result<Unit>)
      requires Decides(check, settings, environ, testData)
      requires Distinct(fines) && 0 <= i < |fines|
      requires PassedKey(name) in filterData && FailedKey(name) in filterData
      modifies this, fines[i]
      ensures ok == check(old(Contents(fines))[i])
      ensures OneStep(fines, i, LogMessage(settings), LogConfig(settings), name, ok, logged,
                      old(filterData), old(errorData), old(Contents(fines)), filterData, errorData, Contents(fines))
    {
      ghost var before := Contents(fines);
      var rec := fines[i];
      DistinctAt(fines, i);
      ok := Check(rec.fields, settings, testData);
      logged := Ok(Unit);
      if ok.Err? {
        return;
      }
      if ok.value {
        filterData := filterData[PassedKey(name) := filterData[PassedKey(name)] + 1];
      } else {
        logged := FilterError(rec, settings, name);
      }
      assert Contents(fines) == before[i := rec.fields];
    }

    /** The counters, the error log and the records stand as they do
        after the verdicts `vs` on the first records of `fines`, starting
        from the counters `c0` and the log `e0`. */
    ghost predicate Applied(fines: seq<Record>, vals: seq<Dict>, msg: Option<Json>, name: string,
                            c0: map<string, int>, e0: seq<Record>, vs: seq<bool>)
      reads this, fines
    {
      AppliedTo(fines, vals, msg, name, c0, e0, vs, filterData, errorData, Contents(fines))
    }

    /** One turn of `general_filter_function`'s loop, at the record after
        those with verdicts `vs`: it extends `vs` by the record's verdict,
        or stops with the error the run ends on. */
    method FilterStep(fines: seq<Record>, i: int, settings: Dict, name: string, testData: Option<Json>, kept: seq<Record>,
                      ghost check: Dict -> Result<bool>, ghost vals: seq<Dict>, ghost c0: map<string, int>,
                      ghost e0: seq<Record>, ghost vs: seq<bool>)
      returns (kept': seq<Record>, err: Option<Error>, ghost vs': seq<bool>)
      requires Decides(check, settings, environ, testData)
      requires Distinct(fines) && i == |vs| < |fines|
      requires Handled(vals, check, LogConfig(settings), vs) && kept == Select(fines, vs, true)
      requires Applied(fines, vals, LogMessage(settings), name, c0, e0, vs)
      modifies this, fines
      ensures Applied(fines, vals, LogMessage(settings), name, c0, e0, vs')
      ensures err.None? ==> |vs'| == i + 1 && Handled(vals, check, LogConfig(settings), vs') && kept' == Select(fines, vs', true)
      ensures err.Some? ==> FilterRun(vals, check, LogConfig(settings)) == Run(vs', err)
    {
      ghost var before := Contents(fines);
      ghost var counted := filterData;
      ghost var rejected := errorData;
      var ok, logged := FilterOne(fines, i, settings, name, testData, check);
      StepOutcome(fines, vals, LogMessage(settings), LogConfig(settings), name, c0, e0, vs, check,
                  counted, rejected, before, ok, logged, filterData, errorData, Contents(fines));
      if ok.Err? {
        kept', err, vs' := kept, Some(ok.error), vs;
      } else if logged.Err? {
        kept', err, vs' := kept, Some(logged.error), vs + [ok.value];
      } else {
        SelectSnoc(fines, vs, true, ok.value);
        kept', err, vs' := if ok.value then kept + [fines[i]] else kept, None, vs + [ok.value];
      }
    }

    /** The loop of `general_filter_function` over a non-empty list, once
        the counters exist and the test data is loaded. */
    method RunFilter(fines: seq<Record>, settings: Dict, name: string, testData: Option<Json>, ghost check: Dict -> Result<bool>)
      returns (r: Result<seq<Record>>)
      requires Decides(check, settings, environ, testData)
      requires Distinct(fines)
      requires PassedKey(name) in filterData && FailedKey(name) in filterData
      modifies this, fines
      ensures var run := FilterRun(old(Contents(fines)), check, LogConfig(settings));
        && r == (if run.err.None? then Ok(Select(fines, run.verdicts, true)) else Err(run.err.value))
        && filterData == Counted(old(filterData), name, run.verdicts)
        && errorData == old(errorData) + (if LogMessage(settings).Some? then Select(fines, run.verdicts, false) else [])
        && Contents(fines) == Stamped(old(Contents(fines)), run.verdicts, LogMessage(settings))
    {
      ghost var vals := Contents(fines);
      ghost var c0 := filterData;
      ghost var e0 := errorData;
      var newData: seq<Record> := [];
      ghost var vs: seq<bool> := [];
      var i := 0;
      while i < |fines|
        invariant 0 <= i <= |fines| && |vs| == i
        invariant Handled(vals, check, LogConfig(settings), vs) && newData == Select(fines, vs, true)
        invariant Applied(fines, vals, LogMessage(settings), name, c0, e0, vs)
      {
        var err;
        newData, err, vs := FilterStep(fines, i, settings, name, testData, newData, check, vals, c0, e0, vs);
        if err.Some? {
          return Err(err.value);
        }
        i := i + 1;
      }
      FilterRunDone(vals, check, LogConfig(settings), vs);
      return Ok(newData);
    }

    /** `general_filter_function(fines, settings)`: create the rule's
        counters on its first run, then (for a non-empty list) load the
        test data and keep the records that pass, counting passes and
        failures and stamping and logging rejected records. */
    method GeneralFilter(fines: seq<Record>, settings: Dict) returns (r: Result<seq<Record>>)
      requires Valid() && Distinct(fines)
      modifies this, fines
      ensures Valid()
      ensures NameOf(settings).Err? ==>
        r == Err(NameOf(settings).error) && filterData == old(filterData) &&
        errorData == old(errorData) && Contents(fines) == old(Contents(fines))
      ensures NameOf(settings).Ok? && (fines == [] || TestData(settings, dataDir).Err?) ==>
        r == (if fines == [] then Ok([]) else Err(TestData(settings, dataDir).error)) &&
        filterData == InitCounters(old(filterData), NameOf(settings).value) &&
        errorData == old(errorData) && Contents(fines) == old(Contents(fines))
      ensures NameOf(settings).Ok? && fines != [] && TestData(settings, dataDir).Ok? ==>
        var name := NameOf(settings).value;
        var init := InitCounters(old(filterData), name);
        var run := FilterRun(old(Contents(fines)), Checker(settings, environ, TestData(settings, dataDir).value), LogConfig(settings));
        r == (if run.err.None? then Ok(Select(fines, run.verdicts, true)) else Err(run.err.value)) &&
        filterData == Counted(init, name, run.verdicts) &&
        errorData == old(errorData) + (if LogMessage(settings).Some? then Select(fines, run.verdicts, false) else []) &&
        Contents(fines) == Stamped(old(Contents(fines)), run.verdicts, LogMessage(settings))
    {
      var name :- NameOf(settings);
      InitCountersPaired(filterData, name);
      if PassedKey(name) !in filterData {
        filterData := filterData[PassedKey(name) := 0][FailedKey(name) := 0];
      }
      if fines == [] {
        return Ok([]);
      }
      var testData :- LoadFilterData(settings);
      ghost var c0 := filterData;
      r := RunFilter(fines, settings, name, testData, Checker(settings, environ, testData));
      CountersPairedKeys(c0, filterData);
    }

    /** `update_field_value(fines, settings)`: rewrite the records in
        place by the rule; the list itself is returned. */
    method UpdateFieldValue(fines: seq<Record>, settings: Dict) returns (r: Result<seq<Record>>)
      requires Distinct(fines)
      modifies fines
      ensures UpdateStep(settings).Err? ==> r == Err(UpdateStep(settings).error) && Contents(fines) == old(Contents(fines))
      ensures UpdateStep(settings).Ok? ==>
        var p := ApplyAll(old(Contents(fines)), UpdateStep(settings).value);
        Contents(fines) == p.done + old(Contents(fines))[|p.done|..] &&
        r == (if p.err.None? then Ok(fines) else Err(p.err.value))
    {
      var cfg :- ReadUpdateConfig(settings);
      r := ApplyToRecords(fines, Updater(cfg, settings));
    }

    /** `merge_field_data(fines, settings)`: merge two fields, or a field
        and a loaded data set, into a new field of every record. */
    method MergeFieldData(fines: seq<Record>, settings: Dict) returns (r: Result<seq<Record>>)
      requires Distinct(fines)
      modifies fines
      ensures MergeStep(settings, dataDir).Err? ==> r == Err(MergeStep(settings, dataDir).error) && Contents(fines) == old(Contents(fines))
      ensures MergeStep(settings, dataDir) == Ok(None) ==> r == Ok(fines) && Contents(fines) == old(Contents(fines))
      ensures MergeStep(settings, dataDir).Ok? && MergeStep(settings, dataDir).value.Some? ==>
        var p := ApplyAll(old(Contents(fines)), MergeStep(settings, dataDir).value.value);
        Contents(fines) == p.done + old(Contents(fines))[|p.done|..] &&
        r == (if p.err.None? then Ok(fines) else Err(p.err.value))
    {
      var mt :- Lookup(settings, "merge_type");
      var kind :- AsStr(mt);
      if Upper(kind) == "FIELD" {
        var m :- ReadFieldMerge(settings);
        r := ApplyToRecords(fines, FieldMerger(m, settings));
      } else if Upper(kind) == "FILE" {
        var load :- Lookup(settings, "load");
        var data :- LoadFile(load, dataDir);
        r := ApplyToRecords(fines, FileMerger(data, settings));
      } else {
        r := Ok(fines);
      }
    }

    /** `gen_data_summary(fine, name)`: totals, remaining amounts and
        record counts, overall and per fee/fine owner. */
    method GenDataSummary(fines: seq<Record>, name: string) returns (r: Result<Dict>)
      ensures SummaryOf(Contents(fines)).Ok? ==> r == Ok(SummaryDict(SummaryOf(Contents(fines)).value, name))
      ensures SummaryOf(Contents(fines)).Err? ==> r == Err(SummaryOf(Contents(fines)).error)
    {
      ghost var vals := Contents(fines);
      var s := EmptySummary;
      var i := 0;
      while i < |fines|
        invariant 0 <= i <= |fines|
        invariant SummaryOf(vals) == SummaryFrom(s, vals[i..])
      {
        assert vals[i..][0] == fines[i].fields && vals[i..][1..] == vals[i + 1..];
        var c :- ContributionOf(fines[i].fields);
        s := AddRecord(s, c);
        i := i + 1;
      }
      assert vals[i..] == [];
      return Ok(SummaryDict(s, name));
    }
  }
}
