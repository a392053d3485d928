/** The per-record rules of the data processor, as functions on record
    contents: resolving a rule's field, deciding whether a record passes a
    filter, rewriting or merging a field, and accumulating the amount
    summary. The `DataProcessor` class runs them over record lists. */
module DataRules {
  import opened Wrappers
  import opened PyStrings
  import opened PyJson

  // ---------------------------------------------------------------------
  // Field resolution (`__filter_get_field_value`)

  /** Follow `keys` with `key in data` then `data[key]`; `None` at the
      first key that is not in the current value. */
  function Walk(data: Json, keys: seq<string>): Result<Option<Json>>
    decreases |keys|
  {
    if keys == [] then Ok(Some(data))
    else
      var present :- In(JStr(keys[0]), data);
      if present then
        var next :- Index(data, keys[0]);
        Walk(next, keys[1..])
      else Ok(None)
  }

  /** The value at `keys` when every step goes through a dict that has the
      key: the reference reading of a dot path. */
  function DictPath(data: Json, keys: seq<string>): Option<Json>
    decreases |keys|
  {
    if keys == [] then Some(data)
    else if data.JObj? && keys[0] in data.fields then DictPath(data.fields[keys[0]], keys[1..])
    else None
  }

  /** The path runs through dicts until one of them lacks the next key. */
  predicate MissingInDicts(data: Json, keys: seq<string>)
    decreases |keys|
  {
    keys != [] && data.JObj? &&
    (keys[0] !in data.fields || MissingInDicts(data.fields[keys[0]], keys[1..]))
  }

  lemma {:induction false} WalkFollowsDicts(data: Json, keys: seq<string>)
    requires DictPath(data, keys).Some?
    ensures Walk(data, keys) == Ok(DictPath(data, keys))
    decreases |keys|
  {
    if keys != [] {
      WalkFollowsDicts(data.fields[keys[0]], keys[1..]);
    }
  }

  lemma {:induction false} WalkStopsAtMissingKey(data: Json, keys: seq<string>)
    requires MissingInDicts(data, keys)
    ensures Walk(data, keys) == Ok(None)
    decreases |keys|
  {
    if keys[0] in data.fields {
      WalkStopsAtMissingKey(data.fields[keys[0]], keys[1..]);
    }
  }

  /** `__filter_get_field_value(f, settings)`: the value at the dotted
      `filter_field`, or `False` as soon as a key is missing (then the
      transform is not read); transform COUNT gives its `len`, NONE or any
      other transform the value itself. */
  function FieldValue(f: Dict, settings: Dict): Result<Json>
  {
    var field :- Lookup(settings, "filter_field");
    var path :- AsStr(field);
    var found :- Walk(JObj(f), Split(path, "."));
    match found
    case None => Ok(Absent)
    case Some(v) =>
      var t :- Lookup(settings, "field_transform");
      var transform :- AsStr(t);
      if Upper(transform) == "COUNT" then
        var n :- Len(v);
        Ok(JNum(n))
      else Ok(v)
  }

  /** The resolved value: the value at the path, untouched unless the
      transform is COUNT; `False` when the path leaves the dicts at a
      missing key. */
  lemma FieldValueMeaning(f: Dict, settings: Dict, path: string, transform: string)
    requires "filter_field" in settings && settings["filter_field"] == JStr(path)
    requires "field_transform" in settings && settings["field_transform"] == JStr(transform)
    ensures MissingInDicts(JObj(f), Split(path, ".")) ==> FieldValue(f, settings) == Ok(Absent)
    ensures DictPath(JObj(f), Split(path, ".")).Some? ==>
      var v := DictPath(JObj(f), Split(path, ".")).value;
      FieldValue(f, settings) == (if Upper(transform) == "COUNT" then (match Len(v) case Ok(n) => Ok(JNum(n)) case Err(e) => Err(e)) else Ok(v))
  {
    var keys := Split(path, ".");
    if MissingInDicts(JObj(f), keys) {
      WalkStopsAtMissingKey(JObj(f), keys);
    }
    if DictPath(JObj(f), keys).Some? {
      WalkFollowsDicts(JObj(f), keys);
    }
  }

  // ---------------------------------------------------------------------
  // Filter verdicts (`general_filter_function`)

  /** `settings['filter_value']`, where a string starting with `ENV` names
      an environment variable after its first `|` (`None` when unset). */
  function FilterValue(settings: Dict, environ: map<string, string>): Result<Json>
  {
    var fv :- Lookup(settings, "filter_value");
    if fv.JStr? && StartsWith(fv.s, "ENV") then
      var parts := Split(fv.s, "|");
      if |parts| < 2 then Err(IndexError)
      else Ok(if parts[1] in environ then JStr(environ[parts[1]]) else JNull)
    else Ok(fv)
  }

  /** The operator test on a resolved value `v`. `testData` is the loaded
      data set, `None` when no file was loaded (then the name is unbound). */
  function Accepts(op: string, v: Json, fv: Json, testData: Option<Json>): Result<bool>
  {
    if op == "IN_FILE" then
      if IsFalse(v) then Ok(true)
      else if testData.None? then Err(NameError)
      else In(v, testData.value)
    else if op == "EQUALS" then Ok(PyEq(v, fv))
    else if op == "NOT_EQUAL" then Ok(!PyEq(v, fv))
    else if op == "ONE_OF" then In(v, fv)
    else if op == "NULL_OR_ONE_OF" then
      if IsFalse(v) then Ok(true) else In(v, fv)
    else if op == "LONGER_THAN" || op == "SHORTER_THAN" then
      if !Truthy(v) then Ok(false)
      else
        var a :- IntOf(v);
        var b :- IntOf(fv);
        Ok(if op == "LONGER_THAN" then a > b else a < b)
    else Ok(false)
  }

  /** Whether record `f` passes the rule: resolve the field, then the
      filter value, then apply the upper-cased operator. */
  function Verdict(f: Dict, settings: Dict, environ: map<string, string>, testData: Option<Json>): Result<bool>
  {
    var v :- FieldValue(f, settings);
    var fv :- FilterValue(settings, environ);
    var opv :- Lookup(settings, "filter_operator");
    var op :- AsStr(opv);
    Accepts(Upper(op), v, fv, testData)
  }

  /** The operators' meaning on a resolved value: (in)equality, membership,
      `False` accepted by NULL_OR_ONE_OF and IN_FILE, a truthy value
      compared as integers by LONGER_THAN/SHORTER_THAN, and rejection by
      any other operator. */
  lemma AcceptsMeaning(v: Json, fv: Json, testData: Option<Json>, op: string)
    ensures Accepts("EQUALS", v, fv, testData) == Ok(PyEq(v, fv))
    ensures Accepts("NOT_EQUAL", v, fv, testData) == Ok(!PyEq(v, fv))
    ensures Accepts("ONE_OF", v, fv, testData) == In(v, fv)
    ensures IsFalse(v) ==> Accepts("NULL_OR_ONE_OF", v, fv, testData) == Ok(true)
    ensures !IsFalse(v) ==> Accepts("NULL_OR_ONE_OF", v, fv, testData) == In(v, fv)
    ensures IsFalse(v) ==> Accepts("IN_FILE", v, fv, testData) == Ok(true)
    ensures !IsFalse(v) && testData.Some? ==> Accepts("IN_FILE", v, fv, testData) == In(v, testData.value)
    ensures !Truthy(v) ==> Accepts("LONGER_THAN", v, fv, testData) == Ok(false)
    ensures v.JNum? && v.n != 0 && fv.JNum? ==> Accepts("LONGER_THAN", v, fv, testData) == Ok(v.n > fv.n)
    ensures v.JNum? && v.n != 0 && fv.JNum? ==> Accepts("SHORTER_THAN", v, fv, testData) == Ok(v.n < fv.n)
    ensures op !in {"IN_FILE", "EQUALS", "NOT_EQUAL", "ONE_OF", "NULL_OR_ONE_OF", "LONGER_THAN", "SHORTER_THAN"}
      ==> Accepts(op, v, fv, testData) == Ok(false)
  {
  }

  /** A missing field is `False`, which Python's `==` identifies with 0: a
      record without the field passes `EQUALS 0` and fails `NOT_EQUAL 0`. */
  lemma AbsentEqualsZero(testData: Option<Json>)
    ensures Accepts("EQUALS", Absent, JNum(0), testData) == Ok(true)
    ensures Accepts("NOT_EQUAL", Absent, JNum(0), testData) == Ok(false)
    ensures Accepts("ONE_OF", Absent, JList([JNum(0)]), testData) == Ok(true)
  {
    assert PyEq(Absent, JList([JNum(0)]).items[0]);
  }

  /** The ENV indirection: `ENV|NAME` reads variable NAME, `None` if unset. */
  lemma FilterValueFromEnvironment(settings: Dict, environ: map<string, string>, name: string)
    requires '|' !in name
    requires "filter_value" in settings && settings["filter_value"] == JStr("ENV|" + name)
    ensures FilterValue(settings, environ) == Ok(if name in environ then JStr(environ[name]) else JNull)
  {
    var s := "ENV|" + name;
    assert StartsWith(s, "ENV");
    assert s == "ENV" + ['|'] + name;
    SplitAtFirst("ENV", '|', name);
    SplitWithoutSeparator(name, '|');
  }

  /** Splitting at the first occurrence of a one-character separator. */
  lemma {:induction false} SplitAtFirst(a: string, c: char, b: string)
    requires c !in a
    ensures Split(a + [c] + b, [c]) == [a] + Split(b, [c])
    decreases |a|
  {
    var s := a + [c] + b;
    if a == [] {
      assert s == [c] + b && StartsWith(s, [c]) && s[1..] == b;
    } else {
      assert s[..1] == [a[0]] && a[0] != c;
      assert s[1..] == a[1..] + [c] + b;
      SplitAtFirst(a[1..], c, b);
      assert [a[0]] + a[1..] == a;
    }
  }

  /** The error-logging setting of a rule, read when a record is
      rejected: the message when `log_error` is truthy, else `None`. */
  function LogConfig(settings: Dict): Result<Option<Json>>
  {
    var le :- Lookup(settings, "log_error");
    if Truthy(le) then
      var msg :- Lookup(settings, "error_message");
      Ok(Some(msg))
    else Ok(None)
  }

  /** The outcome of running a filter over records: the verdicts of the
      records handled in full, and the error that stopped the run, if any. */
  datatype Run = Run(verdicts: seq<bool>, err: Option<Error>)

  /** The verdict of one record under a rule, as a function value. */
  function Checker(settings: Dict, environ: map<string, string>, testData: Option<Json>): (c: Dict -> Result<bool>)
  {
    f => Verdict(f, settings, environ, testData)
  }

  /** `check` gives every record the verdict of the rule. */
  ghost predicate Decides(check: Dict -> Result<bool>, settings: Dict, environ: map<string, string>, testData: Option<Json>)
  {
    forall f {:trigger Verdict(f, settings, environ, testData)} :: check(f) == Verdict(f, settings, environ, testData)
  }

  /** Verdicts in order until the first error. A rejected record's failure
      is counted before the log setting `log` is read, so an error in that
      setting stops the run after the record's verdict. */
  function FilterRun(vals: seq<Dict>, check: Dict -> Result<bool>, log: Result<Option<Json>>): (run: Run)
    ensures |run.verdicts| <= |vals|
    decreases |vals|
  {
    if vals == [] then Run([], None)
    else match check(vals[0])
      case Err(e) => Run([], Some(e))
      case Ok(pass) =>
        if !pass && log.Err? then Run([false], Some(log.error))
        else
          var rest := FilterRun(vals[1..], check, log);
          Run([pass] + rest.verdicts, rest.err)
  }

  /** What a run means: each verdict is the check's verdict on its
      record; every rejection but a final one found the log setting
      readable; a run without error covers every record; and a run that
      stops does so on a check that failed on the next record, or on the
      unreadable log setting right after a rejection. */
  lemma {:induction false} FilterRunMeaning(vals: seq<Dict>, check: Dict -> Result<bool>, log: Result<Option<Json>>)
    ensures var run := FilterRun(vals, check, log); var v := run.verdicts;
      && (forall i :: 0 <= i < |v| ==> check(vals[i]) == Ok(v[i]))
      && (forall i :: 0 <= i < |v| - 1 ==> v[i] || log.Ok?)
      && (run.err.None? ==> |v| == |vals| && (v == [] || v[|v| - 1] || log.Ok?))
      && (run.err.Some? ==>
            (|v| < |vals| && check(vals[|v|]) == Err(run.err.value)) ||
            (v != [] && !v[|v| - 1] && log.Err? && run.err.value == log.error))
    decreases |vals|
  {
    if vals != [] && check(vals[0]).Ok? && (check(vals[0]).value || log.Ok?) {
      var rest := FilterRun(vals[1..], check, log);
      FilterRunMeaning(vals[1..], check, log);
      var v := FilterRun(vals, check, log).verdicts;
      assert v == [check(vals[0]).value] + rest.verdicts;
      forall i | 1 <= i < |v| ensures check(vals[i]) == Ok(v[i]) {
        assert vals[1..][i - 1] == vals[i];
      }
      if rest.verdicts != [] {
        assert v[|v| - 1] == rest.verdicts[|rest.verdicts| - 1];
      }
      if |rest.verdicts| < |vals[1..]| {
        assert vals[1..][|rest.verdicts|] == vals[|v|];
      }
    }
  }

  /** The records whose verdict is `b`, in their original order. */
  function Select<T>(rs: seq<T>, vs: seq<bool>, b: bool): (out: seq<T>)
    requires |vs| <= |rs|
    ensures |out| <= |vs|
    decreases |vs|
  {
    if vs == [] then []
    else Select(rs, vs[..|vs| - 1], b) + (if vs[|vs| - 1] == b then [rs[|vs| - 1]] else [])
  }

  /** Passing and rejected records split the handled prefix: every handled
      record is in exactly one of the two lists. */
  lemma {:induction false} SelectPartition<T>(rs: seq<T>, vs: seq<bool>)
    requires |vs| <= |rs|
    ensures |Select(rs, vs, true)| + |Select(rs, vs, false)| == |vs|
    ensures multiset(Select(rs, vs, true)) + multiset(Select(rs, vs, false)) == multiset(rs[..|vs|])
    decreases |vs|
  {
    if vs != [] {
      var k := |vs| - 1;
      var t := Select(rs, vs[..k], true);
      var u := Select(rs, vs[..k], false);
      SelectPartition(rs, vs[..k]);
      assert rs[..|vs|] == rs[..k] + [rs[k]];
      assert multiset(rs[..|vs|]) == multiset(t) + multiset(u) + multiset{rs[k]};
      if vs[k] {
        assert Select(rs, vs, true) == t + [rs[k]] && Select(rs, vs, false) == u + [];
      } else {
        assert Select(rs, vs, true) == t + [] && Select(rs, vs, false) == u + [rs[k]];
      }
    }
  }

  /** When every handled record passes, all of them are kept and none is
      rejected. */
  lemma {:induction false} SelectAll<T>(rs: seq<T>, vs: seq<bool>)
    requires |vs| <= |rs| && forall i :: 0 <= i < |vs| ==> vs[i]
    ensures Select(rs, vs, true) == rs[..|vs|] && Select(rs, vs, false) == []
    decreases |vs|
  {
    if vs != [] {
      SelectAll(rs, vs[..|vs| - 1]);
      assert rs[..|vs|] == rs[..|vs| - 1] + [rs[|vs| - 1]];
    }
  }

  /** One more verdict selects one more record, or none. */
  lemma SelectSnoc<T>(rs: seq<T>, vs: seq<bool>, b: bool, c: bool)
    requires |vs| < |rs|
    ensures Select(rs, vs + [c], b) == Select(rs, vs, b) + (if c == b then [rs[|vs|]] else [])
  {
    assert (vs + [c])[..|vs|] == vs;
  }


  /** An operator outside the known seven rejects every record: nothing
      passes and every record reached is counted as failed. */
  lemma UnknownOperatorRejectsAll(vals: seq<Dict>, settings: Dict, environ: map<string, string>, testData: Option<Json>)
    requires "filter_operator" in settings && settings["filter_operator"].JStr?
    requires Upper(settings["filter_operator"].s) !in {"IN_FILE", "EQUALS", "NOT_EQUAL", "ONE_OF", "NULL_OR_ONE_OF", "LONGER_THAN", "SHORTER_THAN"}
    ensures var run := FilterRun(vals, Checker(settings, environ, testData), LogConfig(settings));
      forall i :: 0 <= i < |run.verdicts| ==> !run.verdicts[i]
  {
    var run := FilterRun(vals, Checker(settings, environ, testData), LogConfig(settings));
    FilterRunMeaning(vals, Checker(settings, environ, testData), LogConfig(settings));
    forall i | 0 <= i < |run.verdicts| ensures !run.verdicts[i] {
      var fvr := FieldValue(vals[i], settings);
      var fvv := FilterValue(settings, environ);
      assert fvr.Ok? && fvv.Ok?;
      assert Accepts(Upper(settings["filter_operator"].s), fvr.value, fvv.value, testData) == Ok(false);
    }
  }

  /** The first `|vs|` records have verdicts `vs`, and the log setting
      was read without error after each rejection among them. */
  ghost predicate Handled(vals: seq<Dict>, check: Dict -> Result<bool>, log: Result<Option<Json>>, vs: seq<bool>)
    decreases |vs|
  {
    |vs| <= |vals| &&
    (vs == [] ||
     (Handled(vals, check, log, vs[..|vs| - 1]) &&
      check(vals[|vs| - 1]) == Ok(vs[|vs| - 1]) && (vs[|vs| - 1] || log.Ok?)))
  }

  lemma {:induction false} HandledAll(vals: seq<Dict>, check: Dict -> Result<bool>, log: Result<Option<Json>>, vs: seq<bool>)
    requires Handled(vals, check, log, vs)
    ensures |vs| <= |vals|
    ensures forall j :: 0 <= j < |vs| ==> check(vals[j]) == Ok(vs[j])
    ensures forall j :: 0 <= j < |vs| && !vs[j] ==> log.Ok?
    decreases |vs|
  {
    if vs != [] {
      HandledAll(vals, check, log, vs[..|vs| - 1]);
    }
  }

  lemma {:induction false} FilterRunFrom(vals: seq<Dict>, check: Dict -> Result<bool>, log: Result<Option<Json>>, vs: seq<bool>)
    requires |vs| <= |vals|
    requires forall j :: 0 <= j < |vs| ==> check(vals[j]) == Ok(vs[j])
    requires forall j :: 0 <= j < |vs| && !vs[j] ==> log.Ok?
    ensures var rest := FilterRun(vals[|vs|..], check, log);
      FilterRun(vals, check, log) == Run(vs + rest.verdicts, rest.err)
    decreases |vs|
  {
    if vs != [] {
      var vals', vs' := vals[1..], vs[1..];
      var tail := FilterRun(vals', check, log);
      var rest := FilterRun(vals[|vs|..], check, log);
      assert FilterRun(vals, check, log) == Run([vs[0]] + tail.verdicts, tail.err) by {
        assert check(vals[0]) == Ok(vs[0]) && (vs[0] || log.Ok?);
      }
      assert tail == Run(vs' + rest.verdicts, rest.err) by {
        forall j | 0 <= j < |vs'|
          ensures check(vals'[j]) == Ok(vs'[j]) && (vs'[j] || log.Ok?)
        {
          assert vals'[j] == vals[j + 1] && vs'[j] == vs[j + 1];
        }
        FilterRunFrom(vals', check, log, vs');
        assert vals'[|vs'|..] == vals[|vs|..];
      }
      assert [vs[0]] + (vs' + rest.verdicts) == vs + rest.verdicts;
    }
  }

  /** One more record handled. */
  lemma HandledSnoc(vals: seq<Dict>, check: Dict -> Result<bool>, log: Result<Option<Json>>, vs: seq<bool>, b: bool)
    requires Handled(vals, check, log, vs) && |vs| < |vals|
    requires check(vals[|vs|]) == Ok(b) && (b || log.Ok?)
    ensures Handled(vals, check, log, vs + [b])
  {
    assert (vs + [b])[..|vs|] == vs;
  }

  /** A run over records all handled without error ends without error. */
  lemma FilterRunDone(vals: seq<Dict>, check: Dict -> Result<bool>, log: Result<Option<Json>>, vs: seq<bool>)
    requires Handled(vals, check, log, vs) && |vs| == |vals|
    ensures FilterRun(vals, check, log) == Run(vs, None)
  {
    HandledAll(vals, check, log, vs);
    FilterRunFrom(vals, check, log, vs);
    assert vals[|vs|..] == [] && vs + [] == vs;
  }

  /** A run stops at the first record whose check fails. */
  lemma FilterRunCheckFails(vals: seq<Dict>, check: Dict -> Result<bool>, log: Result<Option<Json>>, vs: seq<bool>, e: Error)
    requires Handled(vals, check, log, vs) && |vs| < |vals|
    requires check(vals[|vs|]) == Err(e)
    ensures FilterRun(vals, check, log) == Run(vs, Some(e))
  {
    HandledAll(vals, check, log, vs);
    FilterRunFrom(vals, check, log, vs);
    assert vals[|vs|..][0] == vals[|vs|] && vs + [] == vs;
  }

  /** A run stops after the first rejected record when the log setting
      cannot be read. */
  lemma FilterRunLogFails(vals: seq<Dict>, check: Dict -> Result<bool>, log: Result<Option<Json>>, vs: seq<bool>)
    requires Handled(vals, check, log, vs) && |vs| < |vals|
    requires check(vals[|vs|]) == Ok(false) && log.Err?
    ensures FilterRun(vals, check, log) == Run(vs + [false], Some(log.error))
  {
    HandledAll(vals, check, log, vs);
    FilterRunFrom(vals, check, log, vs);
    assert vals[|vs|..][0] == vals[|vs|];
  }

  /** The counters after a run of rule `name` with verdicts `vs`: each
      pass raises its pass counter, each rejection its fail counter. */
  function Counted(counters: map<string, int>, name: string, vs: seq<bool>): (r: map<string, int>)
    requires PassedKey(name) in counters && FailedKey(name) in counters
    ensures r.Keys == counters.Keys
    decreases |vs|
  {
    if vs == [] then counters
    else
      var c := Counted(counters, name, vs[..|vs| - 1]);
      if vs[|vs| - 1] then c[PassedKey(name) := c[PassedKey(name)] + 1]
      else c[FailedKey(name) := c[FailedKey(name)] + 1]
  }

  /** One more verdict moves exactly one of the two counters by one. */
  lemma CountedSnoc(counters: map<string, int>, name: string, vs: seq<bool>, b: bool)
    requires PassedKey(name) in counters && FailedKey(name) in counters
    ensures var c := Counted(counters, name, vs);
      Counted(counters, name, vs + [b]) ==
        if b then c[PassedKey(name) := c[PassedKey(name)] + 1]
        else c[FailedKey(name) := c[FailedKey(name)] + 1]
  {
    assert (vs + [b])[..|vs|] == vs;
  }

  /** The pass counter grows by the number of passes, the fail counter by
      the number of rejections, and no other counter changes. */
  lemma {:induction false} CountedMeaning(counters: map<string, int>, name: string, vs: seq<bool>)
    requires PassedKey(name) in counters && FailedKey(name) in counters
    ensures var r := Counted(counters, name, vs);
      && r[PassedKey(name)] == counters[PassedKey(name)] + multiset(vs)[true]
      && r[FailedKey(name)] == counters[FailedKey(name)] + multiset(vs)[false]
      && forall k :: k in counters && k != PassedKey(name) && k != FailedKey(name) ==> r[k] == counters[k]
    decreases |vs|
  {
    assert PassedKey(name) != FailedKey(name) by { assert PassedKey(name)[0] != FailedKey(name)[0]; }
    if vs != [] {
      var w := vs[..|vs| - 1];
      CountedMeaning(counters, name, w);
      assert vs == w + [vs[|vs| - 1]];
      assert multiset(vs) == multiset(w) + multiset{vs[|vs| - 1]};
    }
  }



  /** The number of records a verdict list selects is the number of its
      verdicts with that value. */
  lemma {:induction false} SelectCount<T>(rs: seq<T>, vs: seq<bool>, b: bool)
    requires |vs| <= |rs|
    ensures |Select(rs, vs, b)| == multiset(vs)[b]
    decreases |vs|
  {
    if vs != [] {
      SelectCount(rs, vs[..|vs| - 1], b);
      assert vs == vs[..|vs| - 1] + [vs[|vs| - 1]];
      assert multiset(vs) == multiset(vs[..|vs| - 1]) + multiset{vs[|vs| - 1]};
    }
  }


  /** The rule's name as it is formatted into the counter keys. */
  function NameOf(settings: Dict): Result<string>
  {
    var n :- Lookup(settings, "name");
    Str(n)
  }

  function PassedKey(name: string): string { "passed" + name }

  function FailedKey(name: string): string { "failed" + name }

  /** Both counters of a rule are created at 0 the first time it runs. */
  function InitCounters(counters: map<string, int>, name: string): (r: map<string, int>)
    ensures PassedKey(name) in r
    ensures CountersPaired(counters) ==> FailedKey(name) in r
    ensures PassedKey(name) in counters ==> r == counters
    ensures PassedKey(name) !in counters ==> r == counters[PassedKey(name) := 0][FailedKey(name) := 0]
  {
    if PassedKey(name) in counters then counters
    else counters[PassedKey(name) := 0][FailedKey(name) := 0]
  }

  /** `json.load` of `dataSets/<load>.json`. The data sets are given as a
      map from base name to document; `None` stands for the processor's
      `script_dir` being the backend client object, which `os.path.join`
      refuses with a TypeError. */
  function LoadFile(load: Json, dataDir: Option<map<string, Json>>): Result<Json>
  {
    var name :- Str(load);
    if dataDir.None? then Err(TypeError)
    else if name in dataDir.value then Ok(dataDir.value[name])
    else Err(FileNotFound)
  }

  /** The data an IN_FILE filter tests against: `None` when `load` is
      falsy, otherwise the loaded document, flattened to its `uuid`s when
      `flatten` is truthy. */
  function TestData(settings: Dict, dataDir: Option<map<string, Json>>): Result<Option<Json>>
  {
    var load :- Lookup(settings, "load");
    if !Truthy(load) then Ok(None)
    else
      var data :- LoadFile(load, dataDir);
      var flatten :- Lookup(settings, "flatten");
      if Truthy(flatten) then
        var ids :- Flatten(data);
        Ok(Some(JList(ids)))
      else Ok(Some(data))
  }

  /** The message stamped on rejected records: only when the log setting
      reads through and asks for it. */
  function LogMessage(settings: Dict): Option<Json>
  {
    match LogConfig(settings)
    case Ok(m) => m
    case Err(_) => None
  }

  /** `data['errorCode'] = msg` on a rejected record. */
  function Stamp(f: Dict, rejected: bool, msg: Option<Json>): Dict
  {
    if rejected && msg.Some? then f["errorCode" := msg.value] else f
  }

  /** The record contents after a filter run with verdicts `vs`: rejected
      records carry the error code, the others (and those not reached) are
      as they were. */
  function Stamped(vals: seq<Dict>, vs: seq<bool>, msg: Option<Json>): (r: seq<Dict>)
    ensures |r| == |vals|
    ensures forall j :: 0 <= j < |vals| ==> r[j] == Stamp(vals[j], j < |vs| && !vs[j], msg)
  {
    seq(|vals|, j requires 0 <= j < |vals| => Stamp(vals[j], j < |vs| && !vs[j], msg))
  }

  /** One more verdict stamps (or leaves) one more record. */
  lemma StampedSnoc(vals: seq<Dict>, vs: seq<bool>, msg: Option<Json>, b: bool)
    requires |vs| < |vals|
    ensures Stamped(vals, vs + [b], msg) == Stamped(vals, vs, msg)[|vs| := Stamp(vals[|vs|], !b, msg)]
  {
  }

  /** A log setting that does not read through stamps nothing. */
  lemma StampedWithoutLog(vals: seq<Dict>, vs: seq<bool>, settings: Dict)
    requires !(LogConfig(settings).Ok? && LogConfig(settings).value.Some?)
    ensures Stamped(vals, vs, LogMessage(settings)) == vals
  {
  }

  /** Under the results of a completed prefix, `ApplyAll` is determined:
      it ends with the prefix when the records are exhausted, or stops with
      the next record's error. */
  lemma ApplyAllFrom(vals: seq<Dict>, step: Dict -> Result<Dict>, done: seq<Dict>)
    requires |done| <= |vals|
    requires forall j :: 0 <= j < |done| ==> step(vals[j]) == Ok(done[j])
    ensures |done| == |vals| ==> ApplyAll(vals, step) == Partial(done, None)
    ensures |done| < |vals| && step(vals[|done|]).Err? ==> ApplyAll(vals, step) == Partial(done, Some(step(vals[|done|]).error))
  {
    var p := ApplyAll(vals, step);
    if |done| == |vals| || step(vals[|done|]).Err? {
      assert |p.done| == |done|;
      assert p.done == done;
    }
  }

  // ---------------------------------------------------------------------
  // `__flatten_array`

  /** `[x['uuid'] for x in ary]`, stopping at the first error. */
  function Flatten(ary: Json): (r: Result<seq<Json>>)
    ensures r.Ok? && ary.JList? ==>
      |r.value| == |ary.items| && forall i :: 0 <= i < |ary.items| ==> Index(ary.items[i], "uuid") == Ok(r.value[i])
  {
    var xs :- KeyedElements(ary);
    UuidsOf(xs)
  }

  function UuidsOf(xs: seq<Json>): (r: Result<seq<Json>>)
    ensures r.Ok? ==> |r.value| == |xs| && forall i :: 0 <= i < |xs| ==> Index(xs[i], "uuid") == Ok(r.value[i])
    ensures r.Err? ==> exists i :: 0 <= i < |xs| && Index(xs[i], "uuid").Err?
  {
    if xs == [] then Ok([])
    else
      var u :- Index(xs[0], "uuid");
      var rest :- UuidsOf(xs[1..]);
      assert forall i :: 1 <= i < |xs| ==> xs[i] == xs[1..][i - 1];
      Ok([u] + rest)
  }

  // ---------------------------------------------------------------------
  // In-place rewriting (`update_field_value`, `merge_field_data`)

  /** `for key in keys: d = d[key]` */
  function Descend(d: Json, keys: seq<string>): Result<Json>
    decreases |keys|
  {
    if keys == [] then Ok(d)
    else
      var next :- Index(d, keys[0]);
      Descend(next, keys[1..])
  }

  /** The value with the sub-value at an existing path replaced by `v`. */
  function ReplaceAt(d: Json, keys: seq<string>, v: Json): Json
    decreases |keys|
  {
    if keys == [] then v
    else if d.JObj? && keys[0] in d.fields then JObj(d.fields[keys[0] := ReplaceAt(d.fields[keys[0]], keys[1..], v)])
    else d
  }

  /** Reading back a replaced path gives the new value. */
  lemma {:induction false} DescendReplaceAt(d: Json, keys: seq<string>, v: Json)
    requires Descend(d, keys).Ok?
    ensures Descend(ReplaceAt(d, keys, v), keys) == Ok(v)
    decreases |keys|
  {
    if keys != [] {
      DescendReplaceAt(d.fields[keys[0]], keys[1..], v);
    }
  }

  /** All but the last key (`keys[:-1]`). */
  function Init(keys: seq<string>): seq<string>
  {
    if keys == [] then [] else keys[..|keys| - 1]
  }

  /** `keys[-1]` */
  function Last(keys: seq<string>): Result<string>
  {
    if keys == [] then Err(IndexError) else Ok(keys[|keys| - 1])
  }

  /** `new_dict[final_key] = v`, where `new_dict` is what the path prefix
      leads to in record `f`: a TypeError unless that is a dict. */
  function WriteField(f: Dict, keys: seq<string>, v: Json): (r: Result<Dict>)
  {
    var target :- Descend(JObj(f), Init(keys));
    var key :- Last(keys);
    if !target.JObj? then Err(TypeError)
    else
      var d := ReplaceAt(JObj(f), Init(keys), JObj(target.fields[key := v]));
      if d.JObj? then Ok(d.fields) else Err(TypeError)
  }

  /** After a successful write the value sits at the full path. */
  lemma WriteFieldReadBack(f: Dict, keys: seq<string>, v: Json)
    requires WriteField(f, keys, v).Ok?
    ensures Descend(JObj(WriteField(f, keys, v).value), keys) == Ok(v)
  {
    var prefix := keys[..|keys| - 1];
    var target := Descend(JObj(f), prefix).value;
    var nt := JObj(target.fields[keys[|keys| - 1] := v]);
    DescendReplaceAt(JObj(f), prefix, nt);
    DescendAppend(ReplaceAt(JObj(f), prefix, nt), prefix, keys[|keys| - 1]);
    assert prefix + [keys[|keys| - 1]] == keys;
  }

  lemma {:induction false} DescendAppend(d: Json, prefix: seq<string>, k: string)
    requires Descend(d, prefix).Ok?
    ensures Descend(d, prefix + [k]) == Index(Descend(d, prefix).value, k)
    decreases |prefix|
  {
    if prefix == [] {
      assert prefix + [k] == [k];
    } else {
      assert (prefix + [k])[1..] == prefix[1..] + [k];
      DescendAppend(Index(d, prefix[0]).value, prefix[1..], k);
    }
  }

  /** The settings `update_field_value` reads before its loop. */
  datatype UpdateConfig = UpdateConfig(oldKeys: seq<string>, newKeys: seq<string>, searchFor: Json, replaceWith: Json)

  function ReadUpdateConfig(settings: Dict): Result<UpdateConfig>
  {
    var ff :- Lookup(settings, "filter_field");
    var oldPath :- AsStr(ff);
    var nf :- Lookup(settings, "new_field");
    var newPath :- AsStr(nf);
    var searchFor :- Lookup(settings, "search_for");
    var replaceWith :- Lookup(settings, "replace_with");
    Ok(UpdateConfig(Split(oldPath, "."), Split(newPath, "."), searchFor, replaceWith))
  }

  /** The argument of `lstrip`/`rstrip`: a string or `None`. */
  function StripArg(chars: Json): Result<Option<string>>
  {
    match chars
    case JStr(s) => Ok(Some(s))
    case JNull => Ok(None)
    case _ => Err(TypeError)
  }

  /** The value `update_field_value` writes for the source value `x`, by
      the upper-cased `type`; `None` for a type it does not know (nothing
      is written). */
  function UpdatedValue(kind: string, x: Json, cfg: UpdateConfig): Result<Option<Json>>
  {
    if kind == "REPLACE" then
      var s :- AsStr(x);
      if !cfg.searchFor.JStr? || !cfg.replaceWith.JStr? then Err(TypeError)
      else Ok(Some(JStr(Replace(s, cfg.searchFor.s, cfg.replaceWith.s))))
    else if kind == "LEFT_STRIP" || kind == "RIGHT_STRIP" then
      var s :- AsStr(x);
      var cs :- StripArg(cfg.searchFor);
      Ok(Some(JStr(if kind == "LEFT_STRIP" then LStrip(s, cs) else RStrip(s, cs))))
    else if kind == "MOVE" then Ok(Some(x))
    else Ok(None)
  }

  /** The four `type`s `update_field_value` has a case for. */
  predicate KnownUpdate(kind: string)
  {
    kind == "REPLACE" || kind == "LEFT_STRIP" || kind == "RIGHT_STRIP" || kind == "MOVE"
  }

  /** One record through `update_field_value`: navigate both path prefixes,
      and only if the final source key is present match the (upper-cased)
      `type`; only the four known cases read the source value, compute the
      new value and write it at `new_field`. */
  function UpdateRecord(f: Dict, cfg: UpdateConfig, settings: Dict): Result<Dict>
  {
    var source :- Descend(JObj(f), Init(cfg.oldKeys));
    var _ :- Descend(JObj(f), Init(cfg.newKeys));
    var key :- Last(cfg.oldKeys);
    var _ :- Last(cfg.newKeys);
    var present :- In(JStr(key), source);
    if !present then Ok(f)
    else
      var t :- Lookup(settings, "type");
      var ts :- AsStr(t);
      if !KnownUpdate(Upper(ts)) then Ok(f)
      else
        var x :- Index(source, key);
        var nv :- UpdatedValue(Upper(ts), x, cfg);
        match nv
        case None => Ok(f)
        case Some(v) => WriteField(f, cfg.newKeys, v)
  }

  /** A `type` without a case writes nothing and reads no source value:
      once both paths lead somewhere and the membership test can be
      made, the record comes back as it was, whatever the parent of the
      source key is (a dict, a string, a list). */
  lemma UnknownTypeWritesNothing(f: Dict, cfg: UpdateConfig, settings: Dict)
    requires "type" in settings && settings["type"].JStr? && !KnownUpdate(Upper(settings["type"].s))
    requires cfg.oldKeys != [] && cfg.newKeys != []
    requires Descend(JObj(f), Init(cfg.oldKeys)).Ok? && Descend(JObj(f), Init(cfg.newKeys)).Ok?
    requires In(JStr(cfg.oldKeys[|cfg.oldKeys| - 1]), Descend(JObj(f), Init(cfg.oldKeys)).value).Ok?
    ensures UpdateRecord(f, cfg, settings) == Ok(f)
  {
  }

  /** A COPY of `a.b` in `{"a": "xbx"}`: `"b" in "xbx"` holds, the type has
      no case, and the record is left as it was rather than failing on
      the string subscript. */
  lemma UnknownTypeUnderString()
    ensures UpdateRecord(map["a" := JStr("xbx")], UpdateConfig(["a", "b"], ["a", "c"], JNull, JNull), map["type" := JStr("COPY")])
      == Ok(map["a" := JStr("xbx")])
  {
    var f := map["a" := JStr("xbx")];
    var cfg := UpdateConfig(["a", "b"], ["a", "c"], JNull, JNull);
    var settings := map["type" := JStr("COPY")];
    assert Init(cfg.oldKeys) == ["a"] && Init(cfg.newKeys) == ["a"];
    assert Descend(JObj(f), ["a"]) == Ok(JStr("xbx"));
    assert !KnownUpdate(Upper("COPY"));
    UnknownTypeWritesNothing(f, cfg, settings);
  }

  /** The transformations: REPLACE replaces every occurrence of
      `search_for` by `replace_with` (TypeError unless both are strings),
      LEFT_STRIP/RIGHT_STRIP strip the characters of `search_for`
      (whitespace for `None`), MOVE copies the value, any other type
      writes nothing. */
  lemma UpdatedValueMeaning(kind: string, s: string, cfg: UpdateConfig)
    ensures kind == "REPLACE" ==>
      UpdatedValue(kind, JStr(s), cfg) == (if cfg.searchFor.JStr? && cfg.replaceWith.JStr? then Ok(Some(JStr(Replace(s, cfg.searchFor.s, cfg.replaceWith.s)))) else Err(TypeError))
    ensures kind == "LEFT_STRIP" && StripArg(cfg.searchFor).Ok? ==>
      UpdatedValue(kind, JStr(s), cfg) == Ok(Some(JStr(LStrip(s, StripArg(cfg.searchFor).value))))
    ensures kind == "RIGHT_STRIP" && StripArg(cfg.searchFor).Ok? ==>
      UpdatedValue(kind, JStr(s), cfg) == Ok(Some(JStr(RStrip(s, StripArg(cfg.searchFor).value))))
    ensures kind == "MOVE" ==> UpdatedValue(kind, JStr(s), cfg) == Ok(Some(JStr(s)))
    ensures kind !in {"REPLACE", "LEFT_STRIP", "RIGHT_STRIP", "MOVE"} ==> UpdatedValue(kind, JStr(s), cfg) == Ok(None)
  {
    if kind == "LEFT_STRIP" {
      assert kind != "REPLACE" by { assert kind[0] == 'L'; }
    }
  }

  /** Writing a top-level field sets that key and keeps the others. */
  lemma WriteFieldTopLevel(f: Dict, dst: string, v: Json)
    ensures WriteField(f, [dst], v) == Ok(f[dst := v])
  {
    assert [dst][..0] == [];
  }

  lemma TopLevelKeys(src: string, dst: string, cfg: UpdateConfig)
    requires '.' !in src && '.' !in dst
    requires cfg.oldKeys == Split(src, ".") && cfg.newKeys == Split(dst, ".")
    ensures cfg.oldKeys == [src] && cfg.newKeys == [dst]
    ensures cfg.oldKeys[..0] == [] && cfg.newKeys[..0] == []
  {
    SplitWithoutSeparator(src, '.');
    SplitWithoutSeparator(dst, '.');
  }

  /** For top-level fields: a missing source key leaves the record as it
      is; otherwise the transformed value is written at the new field
      (the source is kept) and nothing else in the record changes. */
  lemma UpdateRecordTopLevel(f: Dict, src: string, dst: string, cfg: UpdateConfig, settings: Dict)
    requires '.' !in src && '.' !in dst
    requires cfg.oldKeys == Split(src, ".") && cfg.newKeys == Split(dst, ".")
    requires "type" in settings && settings["type"].JStr?
    ensures src !in f ==> UpdateRecord(f, cfg, settings) == Ok(f)
    ensures src in f ==>
      var nv := UpdatedValue(Upper(settings["type"].s), f[src], cfg);
      UpdateRecord(f, cfg, settings) ==
        (match nv case Err(e) => Err(e) case Ok(None) => Ok(f) case Ok(Some(v)) => Ok(f[dst := v]))
  {
    TopLevelKeys(src, dst, cfg);
    if src in f {
      var nv := UpdatedValue(Upper(settings["type"].s), f[src], cfg);
      if nv.Ok? && nv.value.Some? {
        WriteFieldTopLevel(f, dst, nv.value.value);
      }
    }
  }

  /** The settings `merge_field_data` reads for a FIELD merge. */
  datatype FieldMerge = FieldMerge(keys1: seq<string>, keys2: seq<string>, newKeys: seq<string>)

  function ReadFieldMerge(settings: Dict): Result<FieldMerge>
  {
    var f1 :- Lookup(settings, "field_1");
    var p1 :- AsStr(f1);
    var f2 :- Lookup(settings, "field_2");
    var p2 :- AsStr(f2);
    var nf :- Lookup(settings, "new_field");
    var pn :- AsStr(nf);
    Ok(FieldMerge(Split(p1, "."), Split(p2, "."), Split(pn, ".")))
  }

  /** One record through a FIELD merge: `f'{v1}{field_deliminator}{v2}'`
      written at `new_field`. */
  function MergeFieldsRecord(f: Dict, m: FieldMerge, settings: Dict): Result<Dict>
  {
    var d1 :- Descend(JObj(f), Init(m.keys1));
    var d2 :- Descend(JObj(f), Init(m.keys2));
    var _ :- Descend(JObj(f), Init(m.newKeys));
    var k1 :- Last(m.keys1);
    var k2 :- Last(m.keys2);
    var _ :- Last(m.newKeys);
    var v1 :- Index(d1, k1);
    var s1 :- Str(v1);
    var delim :- Lookup(settings, "field_deliminator");
    var sd :- Str(delim);
    var v2 :- Index(d2, k2);
    var s2 :- Str(v2);
    WriteField(f, m.newKeys, JStr(s1 + sd + s2))
  }

  /** For top-level fields the merged field is `str(v1) + delim + str(v2)`
      and the rest of the record is kept. */
  lemma MergeFieldsTopLevel(f: Dict, a: string, b: string, dst: string, settings: Dict)
    requires '.' !in a && '.' !in b && '.' !in dst
    requires a in f && b in f && "field_deliminator" in settings
    requires Str(f[a]).Ok? && Str(f[b]).Ok? && Str(settings["field_deliminator"]).Ok?
    ensures MergeFieldsRecord(f, FieldMerge(Split(a, "."), Split(b, "."), Split(dst, ".")), settings)
         == Ok(f[dst := JStr(Str(f[a]).value + Str(settings["field_deliminator"]).value + Str(f[b]).value)])
  {
    SplitWithoutSeparator(a, '.');
    SplitWithoutSeparator(b, '.');
    SplitWithoutSeparator(dst, '.');
  }

  /** One record through a FILE merge: the resolved field value is the key
      looked up in the loaded data, written at `new_field`. */
  function MergeFileRecord(f: Dict, mergeData: Json, settings: Dict): Result<Dict>
  {
    var key :- FieldValue(f, settings);
    var nf :- Lookup(settings, "new_field");
    var pn :- AsStr(nf);
    var keys := Split(pn, ".");
    var _ :- Descend(JObj(f), Init(keys));
    var v :- Subscript(mergeData, key);
    WriteField(f, keys, v)
  }

  /** A FILE merge fails with KeyError when the key is not in the data, and
      a record whose field is missing looks up `False`, which is no
      string key. */
  lemma MergeFileMissingKey(f: Dict, data: Dict, settings: Dict)
    requires FieldValue(f, settings).Ok? && FieldValue(f, settings).value.JStr?
    requires FieldValue(f, settings).value.s !in data
    requires "new_field" in settings && settings["new_field"] == JStr("merged")
    ensures MergeFileRecord(f, JObj(data), settings) == Err(KeyError)
  {
    SplitWithoutSeparator("merged", '.');
  }

  /** The outcome of applying a per-record rewrite to records in order:
      the new contents of the records handled, and the error that stopped
      the loop, if any. */
  datatype Partial = Partial(done: seq<Dict>, err: Option<Error>)

  function ApplyAll(vals: seq<Dict>, step: Dict -> Result<Dict>): (p: Partial)
    ensures |p.done| <= |vals|
    ensures p.err.None? <==> |p.done| == |vals|
    ensures forall i :: 0 <= i < |p.done| ==> step(vals[i]) == Ok(p.done[i])
    ensures p.err.Some? ==> step(vals[|p.done|]) == Err(p.err.value)
    decreases |vals|
  {
    if vals == [] then Partial([], None)
    else match step(vals[0])
      case Err(e) => Partial([], Some(e))
      case Ok(v) =>
        var rest := ApplyAll(vals[1..], step);
        Partial([v] + rest.done, rest.err)
  }

  /** Every rule with a pass counter also has a fail counter, and every
      key is a `passed…` or `failed…` counter. */
  ghost predicate CountersPaired(counters: map<string, int>)
  {
    (forall name :: PassedKey(name) in counters ==> FailedKey(name) in counters) &&
    (forall k :: k in counters ==> CounterName(k))
  }

  predicate CounterName(k: string)
  {
    |k| >= 6 && (k[..6] == "passed" || k[..6] == "failed")
  }

  lemma CountersPairedUpdate(counters: map<string, int>, k: string, v: int)
    requires CountersPaired(counters) && k in counters
    ensures CountersPaired(counters[k := v])
  {
  }

  lemma InitCountersPaired(counters: map<string, int>, name: string)
    requires CountersPaired(counters)
    ensures var r := InitCounters(counters, name);
      CountersPaired(r) && PassedKey(name) in r && FailedKey(name) in r && r.Keys == counters.Keys + {PassedKey(name), FailedKey(name)}
  {
    var r := InitCounters(counters, name);
    assert PassedKey(name)[..6] == "passed" && FailedKey(name)[..6] == "failed";
    forall n | PassedKey(n) in r ensures FailedKey(n) in r {
      if PassedKey(n) == PassedKey(name) {
        assert n == PassedKey(n)[6..];
      }
    }
  }

  /** `update_field_value`'s per-record step, once its settings are read. */
  function Updater(cfg: UpdateConfig, settings: Dict): (step: Dict -> Result<Dict>)
    ensures forall f :: step(f) == UpdateRecord(f, cfg, settings)
  {
    f => UpdateRecord(f, cfg, settings)
  }

  function UpdateStep(settings: Dict): Result<Dict -> Result<Dict>>
  {
    var cfg :- ReadUpdateConfig(settings);
    Ok(Updater(cfg, settings))
  }

  function FieldMerger(m: FieldMerge, settings: Dict): (step: Dict -> Result<Dict>)
    ensures forall f :: step(f) == MergeFieldsRecord(f, m, settings)
  {
    f => MergeFieldsRecord(f, m, settings)
  }

  function FileMerger(mergeData: Json, settings: Dict): (step: Dict -> Result<Dict>)
    ensures forall f :: step(f) == MergeFileRecord(f, mergeData, settings)
  {
    f => MergeFileRecord(f, mergeData, settings)
  }

  /** `merge_field_data`'s per-record step by the upper-cased
      `merge_type`: FIELD joins two fields, FILE looks the resolved field
      up in a loaded data set (loaded even for an empty list), any other
      type leaves the records alone (`None`). */
  function MergeStep(settings: Dict, dataDir: Option<map<string, Json>>): Result<Option<Dict -> Result<Dict>>>
  {
    var mt :- Lookup(settings, "merge_type");
    var kind :- AsStr(mt);
    if Upper(kind) == "FIELD" then
      var m :- ReadFieldMerge(settings);
      Ok(Some(FieldMerger(m, settings)))
    else if Upper(kind) == "FILE" then
      var load :- Lookup(settings, "load");
      var data :- LoadFile(load, dataDir);
      Ok(Some(FileMerger(data, settings)))
    else Ok(None)
  }

  /** With the backend client standing in for `script_dir`, a FILE merge
      and a filter that loads a data set fail with TypeError. */
  lemma NoDataSetsWithoutDirectory(settings: Dict, load: Json)
    requires "load" in settings && settings["load"] == load && Str(load).Ok?
    ensures Truthy(load) ==> TestData(settings, None) == Err(TypeError)
    ensures "merge_type" in settings && settings["merge_type"] == JStr("FILE") ==> MergeStep(settings, None) == Err(TypeError)
  {
    assert Upper("FILE") == "FILE";
  }

  // ---------------------------------------------------------------------
  // `gen_data_summary`

  /** `float(v)` for the amounts, which this model keeps integral. */
  function Amount(v: Json): Result<int>
  {
    match v
    case JNum(n) => Ok(n)
    case JBool(b) => Ok(if b then 1 else 0)
    case JStr(s) => (match ParseInt(s) case Some(n) => Ok(n) case None => Err(ValueError))
    case _ => Err(TypeError)
  }

  datatype OwnerStat = OwnerStat(name: string, total: int, remaining: int, count: nat)

  /** The running figures; the owners are kept in first-seen order, as the
      source's dict keeps insertion order. */
  datatype Summary = Summary(total: int, remaining: int, count: nat, owners: seq<OwnerStat>)

  const EmptySummary := Summary(0, 0, 0, [])

  /** The figures one record contributes: its amount, its remaining
      amount (0 when absent) and its owner name. */
  datatype Contribution = Contribution(amount: int, remaining: int, owner: string)

  function ContributionOf(f: Dict): Result<Contribution>
  {
    var a :- Lookup(f, "amount");
    var amount :- Amount(a);
    var remaining :- if "remaining" in f then Amount(f["remaining"]) else Ok(0);
    var od :- Lookup(f, "owner_data");
    var o :- Index(od, "FeeFineOwner");
    match o
    case JStr(name) => Ok(Contribution(amount, remaining, name))
    case JList(_) => Err(TypeError)
    case JObj(_) => Err(TypeError)
    case _ => Err(Unmodelled)
  }

  function OwnerIndex(owners: seq<OwnerStat>, name: string): (r: Option<nat>)
    ensures r.Some? ==> r.value < |owners| && owners[r.value].name == name
    ensures r.None? ==> forall i :: 0 <= i < |owners| ==> owners[i].name != name
  {
    if owners == [] then None
    else if owners[|owners| - 1].name == name then Some(|owners| - 1)
    else OwnerIndex(owners[..|owners| - 1], name)
  }

  function AddRecord(s: Summary, c: Contribution): Summary
  {
    var owners := match OwnerIndex(s.owners, c.owner)
      case Some(i) =>
        s.owners[i := OwnerStat(c.owner, s.owners[i].total + c.amount, s.owners[i].remaining + c.remaining, s.owners[i].count + 1)]
      case None => s.owners + [OwnerStat(c.owner, c.amount, c.remaining, 1)];
    Summary(s.total + c.amount, s.remaining + c.remaining, s.count + 1, owners)
  }

  /** The summary reached from `acc` by adding the records in order; the
      first record that cannot be read stops it. */
  function SummaryFrom(acc: Summary, vals: seq<Dict>): Result<Summary>
    decreases |vals|
  {
    if vals == [] then Ok(acc)
    else
      var c :- ContributionOf(vals[0]);
      SummaryFrom(AddRecord(acc, c), vals[1..])
  }

  /** The summary of a list of record contents. */
  function SummaryOf(vals: seq<Dict>): Result<Summary>
  {
    SummaryFrom(EmptySummary, vals)
  }

  function SumTotals(os: seq<OwnerStat>): int
  {
    if os == [] then 0 else SumTotals(os[..|os| - 1]) + os[|os| - 1].total
  }

  function SumRemaining(os: seq<OwnerStat>): int
  {
    if os == [] then 0 else SumRemaining(os[..|os| - 1]) + os[|os| - 1].remaining
  }

  function SumCounts(os: seq<OwnerStat>): nat
  {
    if os == [] then 0 else SumCounts(os[..|os| - 1]) + os[|os| - 1].count
  }

  function AmountSum(cs: seq<Contribution>): int
  {
    if cs == [] then 0 else cs[0].amount + AmountSum(cs[1..])
  }

  function RemainingSum(cs: seq<Contribution>): int
  {
    if cs == [] then 0 else cs[0].remaining + RemainingSum(cs[1..])
  }

  predicate DistinctOwners(os: seq<OwnerStat>)
  {
    forall i, j :: 0 <= i < j < |os| ==> os[i].name != os[j].name
  }

  /** The per-owner figures add up to the grand figures, and owners are
      listed once each. */
  predicate Consistent(s: Summary)
  {
    SumTotals(s.owners) == s.total && SumRemaining(s.owners) == s.remaining &&
    SumCounts(s.owners) == s.count && DistinctOwners(s.owners)
  }

  lemma {:induction false} SumsUpdate(os: seq<OwnerStat>, i: nat, o: OwnerStat)
    requires i < |os|
    ensures SumTotals(os[i := o]) == SumTotals(os) - os[i].total + o.total
    ensures SumRemaining(os[i := o]) == SumRemaining(os) - os[i].remaining + o.remaining
    ensures SumCounts(os[i := o]) == SumCounts(os) - os[i].count + o.count
    decreases |os|
  {
    var n := |os| - 1;
    if i < n {
      assert os[i := o][..n] == os[..n][i := o];
      SumsUpdate(os[..n], i, o);
    } else {
      assert os[i := o][..n] == os[..n];
    }
  }

  lemma {:induction false} SumsAppend(os: seq<OwnerStat>, o: OwnerStat)
    ensures SumTotals(os + [o]) == SumTotals(os) + o.total
    ensures SumRemaining(os + [o]) == SumRemaining(os) + o.remaining
    ensures SumCounts(os + [o]) == SumCounts(os) + o.count
  {
    assert (os + [o])[..|os|] == os;
  }

  /** Renewing an owner's figures under the same name keeps the owners
      distinct. */
  lemma DistinctAfterUpdate(os: seq<OwnerStat>, i: nat, o: OwnerStat)
    requires DistinctOwners(os) && i < |os| && o.name == os[i].name
    ensures DistinctOwners(os[i := o])
  {
    var after := os[i := o];
    forall j, k | 0 <= j < k < |after| ensures after[j].name != after[k].name {
      assert after[j].name == os[j].name && after[k].name == os[k].name;
    }
  }

  /** Appending an owner not yet listed keeps the owners distinct. */
  lemma DistinctAfterAppend(os: seq<OwnerStat>, o: OwnerStat)
    requires DistinctOwners(os) && forall j :: 0 <= j < |os| ==> os[j].name != o.name
    ensures DistinctOwners(os + [o])
  {
    var after := os + [o];
    forall j, k | 0 <= j < k < |after| ensures after[j].name != after[k].name {
      assert after[j] == os[j];
    }
  }

  lemma AddRecordConsistent(s: Summary, c: Contribution)
    requires Consistent(s)
    ensures Consistent(AddRecord(s, c))
  {
    match OwnerIndex(s.owners, c.owner)
    case Some(i) =>
      var o := OwnerStat(c.owner, s.owners[i].total + c.amount, s.owners[i].remaining + c.remaining, s.owners[i].count + 1);
      assert AddRecord(s, c).owners == s.owners[i := o];
      SumsUpdate(s.owners, i, o);
      DistinctAfterUpdate(s.owners, i, o);
    case None =>
      var o := OwnerStat(c.owner, c.amount, c.remaining, 1);
      assert AddRecord(s, c).owners == s.owners + [o];
      SumsAppend(s.owners, o);
      DistinctAfterAppend(s.owners, o);
  }

  /** Adding records keeps the figures consistent: the count grows by the
      number of records, the total and remaining figures by the sums of
      their amounts. */
  lemma {:induction false} SummaryFromMeaning(acc: Summary, vals: seq<Dict>)
    requires SummaryFrom(acc, vals).Ok? && Consistent(acc)
    ensures forall i :: 0 <= i < |vals| ==> ContributionOf(vals[i]).Ok?
    ensures var s := SummaryFrom(acc, vals).value;
      s.count == acc.count + |vals| && Consistent(s) &&
      s.total == acc.total + AmountSum(Contributions(vals)) &&
      s.remaining == acc.remaining + RemainingSum(Contributions(vals))
    decreases |vals|
  {
    if vals != [] {
      var c := ContributionOf(vals[0]).value;
      AddRecordConsistent(acc, c);
      SummaryFromMeaning(AddRecord(acc, c), vals[1..]);
      forall i | 0 <= i < |vals| ensures ContributionOf(vals[i]).Ok? {
        if i > 0 { assert vals[i] == vals[1..][i - 1]; }
      }
      assert Contributions(vals)[1..] == Contributions(vals[1..]);
    }
  }

  /** `gen_data_summary`'s figures: the record count is the number of
      records, the total and remaining figures are the sums over the
      records, and the per-owner figures add up to them with each owner
      listed once. */
  lemma SummaryOfMeaning(vals: seq<Dict>)
    requires SummaryOf(vals).Ok?
    ensures forall i :: 0 <= i < |vals| ==> ContributionOf(vals[i]).Ok?
    ensures var s := SummaryOf(vals).value;
      s.count == |vals| && Consistent(s) &&
      s.total == AmountSum(Contributions(vals)) && s.remaining == RemainingSum(Contributions(vals))
  {
    SummaryFromMeaning(EmptySummary, vals);
  }

  /** The contributions of records that can all be read. */
  function Contributions(vals: seq<Dict>): (cs: seq<Contribution>)
    requires forall i :: 0 <= i < |vals| ==> ContributionOf(vals[i]).Ok?
    ensures |cs| == |vals| && forall i :: 0 <= i < |vals| ==> cs[i] == ContributionOf(vals[i]).value
  {
    seq(|vals|, i requires 0 <= i < |vals| && ContributionOf(vals[i]).Ok? => ContributionOf(vals[i]).value)
  }

  /** The dict `gen_data_summary(fines, name)` returns. */
  function SummaryDict(s: Summary, name: string): Dict
  {
    map[name + "_total" := JNum(s.total),
        name + "_remaining" := JNum(s.remaining),
        name + "_record_count" := JNum(s.count),
        name + "_owner_stats" := JObj(OwnerStatsDict(s.owners))]
  }

  function OwnerStatsDict(os: seq<OwnerStat>): Dict
  {
    if os == [] then map[]
    else
      var o := os[|os| - 1];
      OwnerStatsDict(os[..|os| - 1])[o.name := JObj(map["name" := JStr(o.name), "total" := JNum(o.total),
                                                         "remaining" := JNum(o.remaining), "record_count" := JNum(o.count)])]
  }
}
