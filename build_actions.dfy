/** The action driver (`BuildActions`): for each action configuration,
    pick the charge or the credit list, narrow it with the configured
    filter rules, then check every record with the configured action and
    execute the action on the records the check allows. */
module BuildActions {
  import opened Wrappers
  import opened PyStrings
  import opened PyJson
  import opened Records
  import opened DataRules
  import opened DataProcessor
  import opened Connector
  import opened Actions
  import opened Pipeline

  // ---------------------------------------------------------------------
  // One action over one list

  /** One iteration of the driver's record loop: read the id (for the log
      line), check, and execute when the check allows. */
  function FineStep(a: ActionSetup, f: Dict, log: seq<Request>, expire: string): Effect
  {
    if "id" !in f then Effect(f, Err(KeyError), log)
    else
      var c := CheckEffect(a.kind, a.name, a.client, f, log);
      if c.result.Err? then c
      else match Allowed(c.fields, a.name)
        case Err(e) => Effect(c.fields, Err(e), c.log)
        case Ok(allowed) =>
          if allowed then ExecuteEffect(a.kind, a.conf, a.name, a.active, a.client, expire, c.fields, c.log)
          else c
  }

  /** What one iteration does to a record's contents and the client's log. */
  type Step = (Dict, seq<Request>) -> Effect

  /** The iteration of `a`'s record loop as a value. */
  function Stepper(a: ActionSetup, expire: string): Step
  {
    (f, log) => FineStep(a, f, log, expire)
  }

  /** What the record loop leaves: the records' contents, the result and
      the client's log. */
  datatype Pass = Pass(fields: seq<Dict>, result: Result<Unit>, log: seq<Request>)

  /** The record loop with the records `done` already processed and
      `todo` still to go. The first error stops the loop and leaves the
      later records as they were. */
  function ProcessFrom(step: Step, done: seq<Dict>, todo: seq<Dict>, log: seq<Request>): (p: Pass)
    ensures |p.fields| == |done| + |todo| && p.fields[..|done|] == done
    decreases |todo|
  {
    if todo == [] then Pass(done, Ok(Unit), log)
    else
      var e := step(todo[0], log);
      if e.result.Err? then Pass(done + [e.fields] + todo[1..], e.result, e.log)
      else ProcessFrom(step, done + [e.fields], todo[1..], e.log)
  }

  /** The loop body of `__process_fine`. */
  method ProcessOne(a: Action, fine: Record, expire: string) returns (r: Result<Unit>)
    requires a.client.Valid()
    modifies fine, a.client
    ensures a.client.Valid()
    ensures var e := FineStep(a.Setup(), old(fine.fields), old(a.client.log), expire);
      fine.fields == e.fields && r == e.result && a.client.log == e.log
  {
    if "id" !in fine.fields {
      return Err(KeyError);
    }
    r := a.Check(fine);
    if r.Err? {
      return;
    }
    var allowed :- Allowed(fine.fields, a.name);
    if allowed {
      r := a.Execute(fine, expire);
    }
  }

  /** One turn of the record loop: the first record's step, then the
      rest of the loop unless it failed. */
  lemma ProcessFromStep(step: Step, done: seq<Dict>, todo: seq<Dict>, log: seq<Request>)
    requires todo != []
    ensures var e := step(todo[0], log);
      ProcessFrom(step, done, todo, log) ==
        if e.result.Err? then Pass(done + [e.fields] + todo[1..], e.result, e.log)
        else ProcessFrom(step, done + [e.fields], todo[1..], e.log)
  {
  }

  /** Overwriting the first element after a prefix. */
  lemma UpdateAfter<T>(done: seq<T>, todo: seq<T>, x: T)
    requires todo != []
    ensures (done + todo)[|done| := x] == done + [x] + todo[1..]
  {
  }

  /** The loop body of `__process_fine` at position `i` of a list without
      repeats: only that record's contents change. */
  method ProcessAt(a: Action, fines: seq<Record>, i: int, expire: string) returns (r: Result<Unit>)
    requires a.client.Valid() && Distinct(fines) && 0 <= i < |fines|
    modifies fines[i], a.client
    ensures a.client.Valid()
    ensures var e := FineStep(a.Setup(), old(fines[i].fields), old(a.client.log), expire);
      Contents(fines) == old(Contents(fines))[i := e.fields] && r == e.result && a.client.log == e.log
  {
    ghost var before := Contents(fines);
    DistinctAt(fines, i);
    r := ProcessOne(a, fines[i], expire);
    assert forall j :: 0 <= j < |fines| && j != i ==> fines[j].fields == before[j];
  }

  /** The record loop of `__process_fine`: the list itself is returned,
      with every record checked and the allowed ones executed. */
  method RunAction(a: Action, fines: seq<Record>, expire: string) returns (r: Result<seq<Record>>)
    requires a.client.Valid() && Distinct(fines)
    modifies fines, a.client
    ensures a.client.Valid()
    ensures var p := ProcessFrom(Stepper(a.Setup(), expire), [], old(Contents(fines)), old(a.client.log));
      Contents(fines) == p.fields && a.client.log == p.log &&
      r == (if p.result.Ok? then Ok(fines) else Err(p.result.error))
  {
    ghost var step := Stepper(a.Setup(), expire);
    ghost var vals := Contents(fines);
    ghost var whole := ProcessFrom(step, [], vals, a.client.log);
    ghost var out: seq<Dict> := [];
    var i := 0;
    assert vals[i..] == vals;
    while i < |fines|
      invariant 0 <= i <= |fines| && a.client.Valid() && |out| == i
      invariant Contents(fines) == out + vals[i..]
      invariant whole == ProcessFrom(step, out, vals[i..], a.client.log)
    {
      ghost var log := a.client.log;
      ghost var e := FineStep(a.Setup(), vals[i], log, expire);
      assert fines[i].fields == vals[i] by {
        assert Contents(fines)[i] == (out + vals[i..])[i];
      }
      assert vals[i..][0] == vals[i] && vals[i..][1..] == vals[i + 1..];
      assert step(vals[i], log) == e;
      ProcessFromStep(step, out, vals[i..], log);
      UpdateAfter(out, vals[i..], e.fields);
      var res := ProcessAt(a, fines, i, expire);
      out := out + [e.fields];
      if res.Err? {
        return Err(res.error);
      }
      i := i + 1;
    }
    assert out + vals[i..] == out;
    return Ok(fines);
  }

  // ---------------------------------------------------------------------
  // What the record loop guarantees

  /** Whatever an iteration guarantees of the records it processes
      without error holds of every record of a loop that ends without
      error. */
  lemma {:induction false} ProcessKeeps(step: Step, pre: Dict -> bool, post: Dict -> bool,
                                        done: seq<Dict>, todo: seq<Dict>, log: seq<Request>)
    requires forall f, l :: pre(f) && step(f, l).result.Ok? ==> post(step(f, l).fields)
    requires forall i :: 0 <= i < |todo| ==> pre(todo[i])
    ensures var p := ProcessFrom(step, done, todo, log);
      p.result.Ok? ==> forall i :: |done| <= i < |p.fields| ==> post(p.fields[i])
    decreases |todo|
  {
    if todo != [] {
      var e := step(todo[0], log);
      if e.result.Ok? {
        ProcessKeeps(step, pre, post, done + [e.fields], todo[1..], e.log);
        var p := ProcessFrom(step, done, todo, log);
        assert p.fields[|done|] == e.fields by {
          assert p.fields[..|done| + 1] == done + [e.fields];
        }
      }
    }
  }

  /** `after` is `before` with at most one request added, and an added
      request satisfies `ok`. */
  ghost predicate AddsAtMostOne(before: seq<Request>, after: seq<Request>, ok: Request -> bool)
  {
    |before| <= |after| <= |before| + 1 && after[..|before|] == before &&
    (|after| == |before| + 1 ==> ok(after[|before|]))
  }

  /** When every iteration adds at most one request satisfying `ok` to the
      log, the loop adds at most one per record, each satisfying `ok`. */
  lemma {:induction false} ProcessLog(step: Step, ok: Request -> bool,
                                      done: seq<Dict>, todo: seq<Dict>, log: seq<Request>)
    requires forall f, l :: AddsAtMostOne(l, step(f, l).log, ok)
    ensures var p := ProcessFrom(step, done, todo, log);
      |log| <= |p.log| <= |log| + |todo| && p.log[..|log|] == log &&
      forall j :: |log| <= j < |p.log| ==> ok(p.log[j])
    decreases |todo|
  {
    if todo != [] {
      var e := step(todo[0], log);
      assert AddsAtMostOne(log, e.log, ok);
      if e.result.Ok? {
        ProcessLog(step, ok, done + [e.fields], todo[1..], e.log);
        var p := ProcessFrom(step, done, todo, log);
        assert p.log[..|e.log|] == e.log;
        assert p.log[..|log|] == p.log[..|e.log|][..|log|];
      }
    }
  }

  /** The check verdict the driver reads depends only on the "check" entry
      of the action's sub-dict. */
  lemma AllowedByEntry(f: Dict, g: Dict, name: string)
    requires name in f && f[name].JObj? && name in g && g[name].JObj?
    requires Entry(f, name, "check") == Entry(g, name, "check")
    ensures Allowed(f, name) == Allowed(g, name)
  {
  }

  /** A check writes nothing in the action's sub-dict but "check", and
      whenever it succeeds the sub-dict is a dict with a verdict. */
  lemma CheckKeepsOtherEntries(kind: Kind, name: string, c: Client, f: Dict, log: seq<Request>, key: string)
    requires key != "check" && (name in f ==> f[name].JObj?)
    ensures var e := CheckEffect(kind, name, c, f, log);
      Entry(e.fields, name, key) == Entry(f, name, key) &&
      (e.result.Ok? ==> name in e.fields && e.fields[name].JObj? && Allowed(e.fields, name).Ok?)
  {
    match CheckPlanOf(kind, name, f)
    case Settled(o) =>
      SettledKeepsOtherEntries(kind, name, f, key);
    case Ask(f1, req) =>
      AnswerKeepsOtherEntries(name, f1, c.Answer(|log|, req), key);
  }

  /** The part of `CheckKeepsOtherEntries` for a check settled without the
      backend. */
  lemma SettledKeepsOtherEntries(kind: Kind, name: string, f: Dict, key: string)
    requires key != "check" && (name in f ==> f[name].JObj?)
    ensures var plan := CheckPlanOf(kind, name, f);
      plan.Settled? ==>
        Entry(plan.o.fields, name, key) == Entry(f, name, key) &&
        (plan.o.result.Ok? ==> name in plan.o.fields && plan.o.fields[name].JObj? && Allowed(plan.o.fields, name).Ok?)
  {
    var f1 := WithSlot(f, name);
    if kind.Block? || kind.RemoveBlock? {
    } else if "amount" in f1 && AtMostZero(f1["amount"]) == Ok(true) {
      assert CheckPlanOf(kind, name, f) == Settled(Write(f1, name, "check", Refusal(kind)));
    }
  }

  /** The part of `CheckKeepsOtherEntries` after the backend answered. */
  lemma AnswerKeepsOtherEntries(name: string, f: Dict, ans: Result<Json>, key: string)
    requires key != "check" && name in f && f[name].JObj?
    ensures var o := AfterAnswer(name, f, ans);
      Entry(o.fields, name, key) == Entry(f, name, key) &&
      (o.result.Ok? ==> name in o.fields && o.fields[name].JObj? && Allowed(o.fields, name).Ok?)
  {
  }

  /** Executing an action other than the block removal writes only the
      "process" entry of the action's sub-dict, and writes it whenever it
      succeeds. */
  lemma ExecuteWritesProcess(kind: Kind, conf: Dict, name: string, active: bool, expire: string, f: Dict)
    requires !kind.RemoveBlock? && name in f && f[name].JObj?
    ensures var o := ExecuteSpec(kind, conf, name, active, expire, f);
      Entry(o.fields, name, "check") == Entry(f, name, "check") &&
      name in o.fields && o.fields[name].JObj? &&
      (o.result.Ok? ==> Entry(o.fields, name, "process").Some?)
  {
  }

  /** Records the driver can process: a dict without the action's entry,
      or with one that holds no "process" entry yet. */
  predicate Unprocessed(f: Dict, name: string)
  {
    (name in f ==> f[name].JObj?) && Entry(f, name, "process") == None
  }

  /** A processed record carries a readable check verdict, and a "process"
      entry exactly when the verdict allows. */
  predicate ExecutedIffAllowed(f: Dict, name: string)
  {
    Allowed(f, name).Ok? && (Entry(f, name, "process").Some? <==> Allowed(f, name) == Ok(true))
  }

  /** On one record: a successful step leaves a readable verdict, and the
      record is executed exactly when the verdict allows it. */
  lemma FineStepExecutesIffAllowed(a: ActionSetup, f: Dict, log: seq<Request>, expire: string)
    requires !a.kind.RemoveBlock? && Unprocessed(f, a.name)
    ensures var e := FineStep(a, f, log, expire);
      e.result.Ok? ==> ExecutedIffAllowed(e.fields, a.name)
  {
    if "id" in f {
      var c := CheckEffect(a.kind, a.name, a.client, f, log);
      CheckKeepsOtherEntries(a.kind, a.name, a.client, f, log, "process");
      if c.result.Ok? && Allowed(c.fields, a.name) == Ok(true) {
        ExecuteWritesProcess(a.kind, a.conf, a.name, a.active, expire, c.fields);
        var o := ExecuteSpec(a.kind, a.conf, a.name, a.active, expire, c.fields);
        AllowedByEntry(o.fields, c.fields, a.name);
      }
    }
  }

  /** Over a whole list (for any action but the block removal): when the
      loop finishes, every record carries a readable check verdict, and
      exactly the records the verdict allows were executed. */
  lemma ProcessExecutesIffAllowed(a: ActionSetup, fs: seq<Dict>, log: seq<Request>, expire: string)
    requires !a.kind.RemoveBlock?
    requires forall i :: 0 <= i < |fs| ==> Unprocessed(fs[i], a.name)
    ensures var p := ProcessFrom(Stepper(a, expire), [], fs, log);
      p.result.Ok? ==> forall i :: 0 <= i < |fs| ==> ExecutedIffAllowed(p.fields[i], a.name)
  {
    var step := Stepper(a, expire);
    var pre := f => Unprocessed(f, a.name);
    var post := f => ExecutedIffAllowed(f, a.name);
    forall f, l | pre(f) && step(f, l).result.Ok?
      ensures post(step(f, l).fields)
    {
      FineStepExecutesIffAllowed(a, f, l, expire);
    }
    ProcessKeeps(step, pre, post, [], fs, log);
  }

  /** `s.endswith(p)` */
  predicate EndsWith(s: string, p: string)
  {
    |p| <= |s| && s[|s| - |p|..] == p
  }

  /** A request asking the backend whether a money action is allowed. */
  predicate IsCheckRequest(req: Request, kind: Kind)
  {
    IsMoney(kind) && (req.HttpPost? || req.HttpPostAllowErrors?) &&
    StartsWith(req.url, "/accounts/") && EndsWith(req.url, "/check-" + Verb(kind))
  }

  /** A check sends at most one request, the check request of a money
      action. */
  lemma CheckSendsOnlyCheck(kind: Kind, name: string, c: Client, f: Dict, log: seq<Request>)
    ensures var e := CheckEffect(kind, name, c, f, log);
      |log| <= |e.log| <= |log| + 1 && e.log[..|log|] == log &&
      (|e.log| == |log| + 1 ==> IsCheckRequest(e.log[|log|], kind))
  {
    match CheckPlanOf(kind, name, f)
    case Settled(_) =>
    case Ask(f1, req) =>
      var id := Str(f1["id"]).value;
      assert req == CheckRequest(kind, id, f1["amount"]);
      var suffix := "/check-" + Verb(kind);
      assert req.url == "/accounts/" + id + suffix;
      assert req.url[|req.url| - |suffix|..] == suffix;
      assert req.url[..|"/accounts/"|] == "/accounts/";
  }

  /** No money moves: on one record, an action other than the block
      removal sends at most the check request. */
  lemma FineStepSendsOnlyChecks(a: ActionSetup, f: Dict, log: seq<Request>, expire: string)
    requires !a.kind.RemoveBlock?
    ensures var e := FineStep(a, f, log, expire);
      |log| <= |e.log| <= |log| + 1 && e.log[..|log|] == log &&
      (|e.log| == |log| + 1 ==> IsCheckRequest(e.log[|log|], a.kind))
  {
    if "id" in f {
      CheckSendsOnlyCheck(a.kind, a.name, a.client, f, log);
    }
  }

  /** Over a whole list, an action other than the block removal sends
      only check requests, at most one per record. */
  lemma ProcessSendsOnlyChecks(a: ActionSetup, fs: seq<Dict>, log: seq<Request>, expire: string)
    requires !a.kind.RemoveBlock?
    ensures var p := ProcessFrom(Stepper(a, expire), [], fs, log);
      |log| <= |p.log| <= |log| + |fs| && p.log[..|log|] == log &&
      forall j :: |log| <= j < |p.log| ==> IsCheckRequest(p.log[j], a.kind)
  {
    var step := Stepper(a, expire);
    var ok := r => IsCheckRequest(r, a.kind);
    forall f, l
      ensures AddsAtMostOne(l, step(f, l).log, ok)
    {
      FineStepSendsOnlyChecks(a, f, l, expire);
    }
    ProcessLog(step, ok, [], fs, log);
  }

  // ---------------------------------------------------------------------
  // Lists of records

  /** `item in processed` for record dicts: `==` on the contents (an
      identical object is in particular equal). */
  predicate Holds(processed: seq<Dict>, item: Dict)
  {
    exists j :: 0 <= j < |processed| && PyEq(JObj(item), JObj(processed[j]))
  }

  /** `[item for item in pool if item not in processed]`, on the
      positions of `pool` whose contents are `vals`. */
  function Remaining(pool: seq<Record>, vals: seq<Dict>, processed: seq<Dict>): (r: seq<Record>)
    requires |vals| == |pool|
    ensures forall x :: x in r ==> x in pool
    decreases |pool|
  {
    if pool == [] then []
    else
      Remaining(pool[..|pool| - 1], vals[..|vals| - 1], processed) +
      (if Holds(processed, vals[|vals| - 1]) then [] else [pool[|pool| - 1]])
  }

  /** What is left of a pool without repeats has no repeats. */
  lemma {:induction false} RemainingDistinct(pool: seq<Record>, vals: seq<Dict>, processed: seq<Dict>)
    requires |vals| == |pool| && Distinct(pool)
    ensures Distinct(Remaining(pool, vals, processed))
    decreases |pool|
  {
    if pool != [] {
      var k := |pool| - 1;
      RemainingDistinct(pool[..k], vals[..k], processed);
      var front := Remaining(pool[..k], vals[..k], processed);
      assert pool[k] !in front;
      if !Holds(processed, vals[k]) {
        var s := front + [pool[k]];
        assert Remaining(pool, vals, processed) == s;
        assert s[..|s| - 1] == front && s[|s| - 1] == pool[k];
      } else {
        assert Remaining(pool, vals, processed) == front;
      }
    }
  }

  /** The records left in a pool are exactly those not equal to a
      processed one. */
  lemma {:induction false} RemainingMeaning(pool: seq<Record>, vals: seq<Dict>, processed: seq<Dict>)
    requires |vals| == |pool| && Distinct(pool)
    ensures forall i :: 0 <= i < |pool| ==> (pool[i] in Remaining(pool, vals, processed) <==> !Holds(processed, vals[i]))
    decreases |pool|
  {
    if pool != [] {
      var k := |pool| - 1;
      RemainingMeaning(pool[..k], vals[..k], processed);
      DistinctAt(pool, k);
      var front := Remaining(pool[..k], vals[..k], processed);
      var r := Remaining(pool, vals, processed);
      assert r == front + (if Holds(processed, vals[k]) then [] else [pool[k]]);
      assert pool[k] !in front;
      forall i | 0 <= i < |pool|
        ensures pool[i] in r <==> !Holds(processed, vals[i])
      {
        if i < k {
          assert pool[..k][i] == pool[i] && vals[..k][i] == vals[i];
          assert pool[i] != pool[k];
        }
      }
    }
  }

  /** The `stop_processing` step as written: it reads `fines`, a name the
      constructor never binds, so it raises (UnboundLocalError, a
      NameError) whenever the option is set. */
  function StopAsWritten(conf: Dict): Result<Unit>
  {
    if StopRequested(conf) then Err(NameError) else Ok(Unit)
  }

  /** Every configuration that sets `stop_processing` stops the whole
      run; no record is ever taken out of a pool. */
  lemma StopProcessingRaises(conf: Dict)
    requires "stop_processing" in conf && conf["stop_processing"] == JBool(true)
    ensures StopAsWritten(conf) == Err(NameError)
  {
  }

  // ---------------------------------------------------------------------
  // The driver

  /** The bundle the pipeline passes around: the charge and credit lists
      (`charge_data["data"]`, `refund_data["data"]`) and, once the actions
      ran, `process_data`. */
  class WorkingData {
    var charges: seq<Record>
    var refunds: seq<Record>
    var processData: Option<map<string, seq<Record>>>

    constructor (charges: seq<Record>, refunds: seq<Record>)
      ensures this.charges == charges && this.refunds == refunds && processData == None
    {
      this.charges := charges;
      this.refunds := refunds;
      processData := None;
    }
  }

  /** The configurations the constructor loops over: none when `actions`
      is absent or falsy, a TypeError for a truthy value without a length,
      otherwise the elements of the list. */
  function ActionConfigs(settings: Dict): Result<seq<Json>>
  {
    if "actions" !in settings || !Truthy(settings["actions"]) then Ok([])
    else
      var n :- Len(settings["actions"]);
      if n > 0 then KeyedElements(settings["actions"]) else Ok([])
  }

  /** The filter names of a configuration, in order. */
  function FilterNames(conf: Dict): Result<seq<Json>>
  {
    if "filters" !in conf || !Truthy(conf["filters"]) then Ok([])
    else
      var n :- Len(conf["filters"]);
      if n > 0 then Iterated(conf["filters"]) else Ok([])
  }

  /** Whether a configuration works on the credit list: `action_on`
      upper-cased is "CREDITS". */
  function OnCredits(conf: Dict): Result<bool>
  {
    var on :- Lookup(conf, "action_on");
    var s :- AsStr(on);
    Ok(Upper(s) == "CREDITS")
  }

  /** The two lists a configuration can work on. */
  datatype Pools = Pools(charges: seq<Record>, refunds: seq<Record>)

  /** The credit list when `credits`, else the charge list. */
  function Chosen(p: Pools, credits: bool): seq<Record>
  {
    if credits then p.refunds else p.charges
  }

  /** A configuration that is a dict with a string name. */
  predicate Named(cfg: Json)
  {
    cfg.JObj? && "name" in cfg.fields && cfg.fields["name"].JStr?
  }

  /** `'stop_processing' in config and config['stop_processing']` */
  predicate StopRequested(conf: Dict)
  {
    "stop_processing" in conf && Truthy(conf["stop_processing"])
  }

  /** The action `__process_fine` builds for a configuration: the name
      and the `action_type` must be there (KeyError), the type must name
      an action class (ValueError), then the class is built. */
  function ActionFor(conf: Dict, client: Client, transActive: Json): (r: Result<ActionSetup>)
    ensures "name" !in conf || "action_type" !in conf ==> r == Err(KeyError)
    ensures "name" in conf && "action_type" in conf && KindNamed(conf["action_type"]).Err? ==>
      r == Err(KindNamed(conf["action_type"]).error)
    ensures r.Ok? ==>
      "action_type" in conf && KindNamed(conf["action_type"]) == Ok(r.value.kind) &&
      r.value.conf == conf && r.value.client == client &&
      JStr(r.value.name) == conf["name"] && r.value.active == Active(conf, transActive)
  {
    var nameValue :- Lookup(conf, "name");
    var actionType :- Lookup(conf, "action_type");
    var kind :- KindNamed(actionType);
    Configure(kind, conf, client, transActive)
  }

  /** The rules of the filter names `names`, each resolved by `rules` and
      used as a dict. */
  function Resolved(rules: Json -> Result<Json>, names: seq<Json>): (r: seq<Result<Dict>>)
    ensures |r| == |names|
    ensures forall j :: 0 <= j < |names| ==>
      r[j] == (match rules(names[j]) case Err(e) => Err(e) case Ok(rule) => ConfigDict(rule))
  {
    seq(|names|, j requires 0 <= j < |names| =>
      match rules(names[j]) case Err(e) => Err(e) case Ok(rule) => ConfigDict(rule))
  }

  /** What one configuration leaves: the processed list, the contents of
      its records and the client's log. */
  datatype Done = Done(records: seq<Record>, fields: seq<Dict>, log: seq<Request>)

  /** One configuration over `pool` (holding `vals`): its filters in
      order, then its action over every record that is left. Any error
      stops the configuration. */
  function ConfigRun(conf: Dict, rules: Json -> Result<Json>, environ: map<string, string>,
                     dataDir: Option<map<string, Json>>, client: Client, transActive: Json, expire: string,
                     pool: seq<Record>, vals: seq<Dict>, log: seq<Request>): Result<Done>
    requires |pool| == |vals|
  {
    var names :- FilterNames(conf);
    var n :- FilterChain(Resolved(rules, names), environ, dataDir, Narrowed(pool, vals));
    var a :- ActionFor(conf, client, transActive);
    var p := ProcessFrom(Stepper(a, expire), [], n.vals, log);
    if p.result.Err? then Err(p.result.error) else Ok(Done(n.records, p.fields, p.log))
  }

  /** The lists after a pass: without repeats and drawn from the lists
      before; both unchanged without `stop`; with `stop`, the list not
      chosen unchanged and no processed record left in the chosen one. */
  ghost predicate Withdrawn(pools: Pools, credits: bool, stop: bool, processed: seq<Record>, next: Pools)
  {
    Distinct(next.charges) && Distinct(next.refunds) &&
    (forall x :: x in next.charges ==> x in pools.charges) &&
    (forall x :: x in next.refunds ==> x in pools.refunds) &&
    (!stop ==> next == pools) &&
    (stop ==>
      Chosen(next, !credits) == Chosen(pools, !credits) &&
      forall x :: x in processed ==> x !in Chosen(next, credits))
  }

  /** All records stored in `rd` come from the given lists. */
  ghost predicate AllFrom(rd: map<string, seq<Record>>, charges: seq<Record>, refunds: seq<Record>)
  {
    forall n, x :: n in rd && x in rd[n] ==> x in charges || x in refunds
  }

  /** What a pass of the loop that succeeded left: `after` is `before`
      with the processed list under `name`, drawn without repeats from
      the chosen list (all of it without filters), and, with
      `stop_processing`, the processed records taken out of the chosen
      list in `next`. */
  ghost predicate Stored(name: string, conf: Dict, pools: Pools, before: map<string, seq<Record>>,
                         after: map<string, seq<Record>>, next: Pools)
  {
    OnCredits(conf).Ok? &&
    var pool := Chosen(pools, OnCredits(conf).value);
    name in after && after == before[name := after[name]] &&
    Distinct(after[name]) && (forall x :: x in after[name] ==> x in pool) &&
    (FilterNames(conf) == Ok([]) ==> after[name] == pool) &&
    Withdrawn(pools, OnCredits(conf).value, StopRequested(conf), after[name], next)
  }

  /** The state of the constructor's loop after `i` configurations: lists
      without repeats drawn from the original ones, stored lists drawn
      from them too, and every configuration so far stored by name. */
  ghost predicate Progress(configs: seq<Json>, i: int, rd: map<string, seq<Record>>,
                           charges: seq<Record>, refunds: seq<Record>, pools: Pools)
  {
    0 <= i <= |configs| &&
    Distinct(pools.charges) && Distinct(pools.refunds) &&
    (forall x :: x in pools.charges ==> x in charges) &&
    (forall x :: x in pools.refunds ==> x in refunds) &&
    AllFrom(rd, charges, refunds) &&
    forall k :: 0 <= k < i ==> Named(configs[k]) && configs[k].fields["name"].s in rd
  }

  /** A pass that stored configuration `i` moves the loop on by one. */
  lemma ProgressStep(configs: seq<Json>, i: int, before: map<string, seq<Record>>, after: map<string, seq<Record>>,
                     charges: seq<Record>, refunds: seq<Record>, pools: Pools, next: Pools)
    requires Progress(configs, i, before, charges, refunds, pools) && i < |configs|
    requires Named(configs[i]) && Stored(configs[i].fields["name"].s, configs[i].fields, pools, before, after, next)
    ensures Progress(configs, i + 1, after, charges, refunds, next)
  {
    var name := configs[i].fields["name"].s;
    forall n, x | n in after && x in after[n]
      ensures x in charges || x in refunds
    {
      if n == name {
        var pool := Chosen(pools, OnCredits(configs[i].fields).value);
        assert x in pool;
      } else {
        assert x in before[n];
      }
    }
    forall k | 0 <= k < i + 1
      ensures Named(configs[k]) && configs[k].fields["name"].s in after
    {
      if k < i {
        assert configs[k].fields["name"].s in before;
      }
    }
  }

  class ActionBuilder {
    const client: Client
    const processor: Processor
    /** `return_data`: the processed list of each configuration, by name. */
    var returnData: map<string, seq<Record>>

    constructor (client: Client, processor: Processor)
      ensures this.client == client && this.processor == processor && returnData == map[]
    {
      this.client := client;
      this.processor := processor;
      returnData := map[];
    }

    /** `__process_fine(fines, conf, trans_active)`: choose the action
        class, build the action, run it over the list. When the action
        cannot be built nothing is touched; otherwise the records, the
        result and the client's log are those of the record loop. */
    method ProcessFine(fines: seq<Record>, conf: Dict, transActive: Json, expire: string) returns (r: Result<seq<Record>>)
      requires client.Valid() && Distinct(fines)
      modifies fines, client
      ensures client.Valid()
      ensures match ActionFor(conf, client, transActive)
        case Err(e) => r == Err(e) && Contents(fines) == old(Contents(fines)) && client.log == old(client.log)
        case Ok(a) =>
          var p := ProcessFrom(Stepper(a, expire), [], old(Contents(fines)), old(client.log));
          Contents(fines) == p.fields && client.log == p.log &&
          r == (if p.result.Ok? then Ok(fines) else Err(p.result.error))
    {
      var nameValue :- Lookup(conf, "name");
      var actionType :- Lookup(conf, "action_type");
      var kind :- KindNamed(actionType);
      var action :- NewAction(kind, conf, client, transActive);
      r := RunAction(action, fines, expire);
    }

    /** The constructor after `return_data = {}`: the loop over the action
        configurations. `rules` resolves a filter name to its rule (the
        environment variable of that name, parsed as JSON) and `expire` is
        the block expiry date. */
    method Run(data: WorkingData, settings: Dict, transActive: Json, rules: Json -> Result<Json>, expire: string)
      returns (r: Result<Unit>)
      requires client.Valid() && processor.Valid()
      requires Distinct(data.charges) && Distinct(data.refunds)
      modifies this, processor, client, set x | x in data.charges || x in data.refunds
      ensures client.Valid() && processor.Valid()
      ensures ActionConfigs(settings) == Ok([]) ==> r == Ok(Unit) && returnData == map[] && client.log == old(client.log)
      ensures r.Ok? ==>
        ActionConfigs(settings).Ok? &&
        forall c :: c in ActionConfigs(settings).value ==> Named(c) && c.fields["name"].s in returnData
      ensures AllFrom(returnData, data.charges, data.refunds)
    {
      returnData := map[];
      var configs :- ActionConfigs(settings);
      var pools := Pools(data.charges, data.refunds);
      var i := 0;
      while i < |configs|
        invariant client.Valid() && processor.Valid()
        invariant Progress(configs, i, returnData, data.charges, data.refunds, pools)
        invariant i == 0 ==> returnData == map[] && client.log == old(client.log)
      {
        ghost var before := returnData;
        var next :- RunConfig(configs[i], pools, transActive, rules, expire);
        ProgressStep(configs, i, before, returnData, data.charges, data.refunds, pools, next);
        pools := next;
        i := i + 1;
      }
      return Ok(Unit);
    }

    /** One pass of the constructor's loop: read the configuration's
        name, then `RunNamed`. */
    method RunConfig(cfg: Json, pools: Pools, transActive: Json, rules: Json -> Result<Json>, expire: string)
      returns (r: Result<Pools>)
      requires client.Valid() && processor.Valid()
      requires Distinct(pools.charges) && Distinct(pools.refunds)
      modifies this, processor, client, set x | x in pools.charges || x in pools.refunds
      ensures client.Valid() && processor.Valid()
      ensures r.Err? ==> returnData == old(returnData)
      ensures cfg.JObj? && "name" in cfg.fields && !cfg.fields["name"].JStr? ==> r == Err(Unmodelled)
      ensures Named(cfg) && OnCredits(cfg.fields).Ok? ==>
        var pool := Chosen(pools, OnCredits(cfg.fields).value);
        var o := ConfigRun(cfg.fields, rules, processor.environ, processor.dataDir, client, transActive, expire,
                           pool, old(Contents(pool)), old(client.log));
        (o.Err? ==> r == Err(o.error)) &&
        (o.Ok? ==>
          r.Ok? && cfg.fields["name"].s in returnData && returnData[cfg.fields["name"].s] == o.value.records &&
          Contents(o.value.records) == o.value.fields && client.log == o.value.log)
      ensures r.Ok? ==> Named(cfg) && Stored(cfg.fields["name"].s, cfg.fields, pools, old(returnData), returnData, r.value)
    {
      var nameValue :- Subscript(cfg, JStr("name"));
      if !cfg.JObj? {
        return Err(TypeError);
      }
      if !nameValue.JStr? {
        return Err(Unmodelled);
      }
      var credits :- OnCredits(cfg.fields);
      r := RunNamed(nameValue.s, cfg.fields, credits, pools, transActive, rules, expire);
    }

    /** A pass of the loop for a configuration with a string name. */
    method RunNamed(name: string, conf: Dict, credits: bool, pools: Pools, transActive: Json,
                    rules: Json -> Result<Json>, expire: string)
      returns (r: Result<Pools>)
      requires client.Valid() && processor.Valid()
      requires OnCredits(conf) == Ok(credits) && Distinct(pools.charges) && Distinct(pools.refunds)
      modifies this, processor, client, set x | x in pools.charges || x in pools.refunds
      ensures client.Valid() && processor.Valid()
      ensures r.Err? ==> returnData == old(returnData)
      ensures var o := ConfigRun(conf, rules, processor.environ, processor.dataDir, client, transActive, expire,
                                 Chosen(pools, credits), old(Contents(Chosen(pools, credits))), old(client.log));
        (o.Err? ==> r == Err(o.error)) &&
        (o.Ok? ==>
          r.Ok? && name in returnData && returnData[name] == o.value.records &&
          Contents(o.value.records) == o.value.fields && client.log == o.value.log)
      ensures r.Ok? ==> Stored(name, conf, pools, old(returnData), returnData, r.value)
    {
      var pool := Chosen(pools, credits);
      var processed :- FilterAndProcess(pool, conf, transActive, rules, expire);
      var next := Keep(name, conf, pools, credits, processed);
      r := Ok(next);
    }

    /** Store the processed list under `name`, then take it out of the
        chosen list with `stop_processing`. */
    method Keep(name: string, conf: Dict, pools: Pools, credits: bool, processed: seq<Record>) returns (next: Pools)
      requires OnCredits(conf) == Ok(credits)
      requires Distinct(pools.charges) && Distinct(pools.refunds)
      requires Distinct(processed) && forall x :: x in processed ==> x in Chosen(pools, credits)
      requires FilterNames(conf) == Ok([]) ==> processed == Chosen(pools, credits)
      modifies this
      ensures returnData == old(returnData)[name := processed] && Contents(processed) == old(Contents(processed))
      ensures Stored(name, conf, pools, old(returnData), returnData, next)
    {
      returnData := returnData[name := processed];
      next := Withdraw(pools, credits, StopRequested(conf), processed);
    }

    /** With `stop_processing` (`stop`), the processed records of the
        chosen list are taken out of it; the other list, and both lists
        without `stop`, stay as they were. */
    method Withdraw(pools: Pools, credits: bool, stop: bool, processed: seq<Record>) returns (next: Pools)
      requires Distinct(pools.charges) && Distinct(pools.refunds)
      ensures Withdrawn(pools, credits, stop, processed, next)
      ensures stop ==> Chosen(next, credits) == Remaining(Chosen(pools, credits), Contents(Chosen(pools, credits)), Contents(processed))
    {
      if !stop {
        return pools;
      }
      var rest := TakeOut(Chosen(pools, credits), processed);
      next := if credits then Pools(pools.charges, rest) else Pools(rest, pools.refunds);
    }

    /** The filters of a configuration, then its action, over one list:
        the result is the filtered list itself, and the list, the records
        and the log are what `ConfigRun` says. */
    method FilterAndProcess(pool: seq<Record>, conf: Dict, transActive: Json, rules: Json -> Result<Json>, expire: string)
      returns (r: Result<seq<Record>>)
      requires client.Valid() && processor.Valid() && Distinct(pool)
      modifies processor, client, set x | x in pool
      ensures client.Valid() && processor.Valid()
      ensures var o := ConfigRun(conf, rules, processor.environ, processor.dataDir, client, transActive, expire,
                                 pool, old(Contents(pool)), old(client.log));
        (o.Err? ==> r == Err(o.error)) &&
        (o.Ok? ==> r == Ok(o.value.records) && Contents(o.value.records) == o.value.fields && client.log == o.value.log)
      ensures r.Ok? ==> Distinct(r.value) && forall x :: x in r.value ==> x in pool
      ensures r.Ok? && FilterNames(conf) == Ok([]) ==> r.value == pool
    {
      var names :- FilterNames(conf);
      FilterChainFrom(Resolved(rules, names), processor.environ, processor.dataDir, Narrowed(pool, Contents(pool)));
      var filtered :- ApplyFilters(pool, names, rules);
      r := ProcessFine(filtered, conf, transActive, expire);
    }

    /** `[item for item in pool if item not in processed]`: the records of
        `pool` equal to no processed record, in order. */
    method TakeOut(pool: seq<Record>, processed: seq<Record>) returns (rest: seq<Record>)
      requires Distinct(pool)
      ensures rest == Remaining(pool, Contents(pool), Contents(processed))
      ensures Distinct(rest) && forall x :: x in rest ==> x in pool
      ensures forall x :: x in processed ==> x !in rest
    {
      var vals := Contents(pool);
      var done := Contents(processed);
      RemainingDistinct(pool, vals, done);
      RemainingMeaning(pool, vals, done);
      rest := Remaining(pool, vals, done);
      forall x | x in processed && x in pool
        ensures x !in rest
      {
        var i :| 0 <= i < |pool| && pool[i] == x;
        var j :| 0 <= j < |processed| && processed[j] == x;
        PyEqReflexive(JObj(vals[i]));
        assert PyEq(JObj(vals[i]), JObj(done[j]));
      }
    }

    /** The configured filters applied in order, each to the previous
        one's output: what is left is what `FilterChain` keeps of the
        resolved rules, and the kept records hold the kept dicts. */
    method ApplyFilters(pool: seq<Record>, names: seq<Json>, rules: Json -> Result<Json>) returns (r: Result<seq<Record>>)
      requires processor.Valid() && Distinct(pool)
      modifies processor, set x | x in pool
      ensures processor.Valid()
      ensures var w := FilterChain(Resolved(rules, names), processor.environ, processor.dataDir, Narrowed(pool, old(Contents(pool))));
        (w.Err? ==> r == Err(w.error)) &&
        (w.Ok? ==> r == Ok(w.value.records) && Contents(w.value.records) == w.value.vals)
    {
      ghost var chain := Resolved(rules, names);
      ghost var whole := FilterChain(chain, processor.environ, processor.dataDir, Narrowed(pool, Contents(pool)));
      var current := pool;
      var j := 0;
      while j < |names|
        invariant 0 <= j <= |names|
        invariant processor.Valid() && Distinct(current)
        invariant forall x :: x in current ==> x in pool
        invariant whole == FilterChain(chain[j..], processor.environ, processor.dataDir, Narrowed(current, Contents(current)))
      {
        var rule :- rules(names[j]);
        if !rule.JObj? {
          return Err(TypeError);
        }
        ghost var n := Narrowed(current, Contents(current));
        KeptFrom(rule.fields, processor.environ, processor.dataDir, n);
        current :- FilterPool(processor, current, rule.fields);
        assert chain[j..][1..] == chain[j + 1..];
        j := j + 1;
      }
      return Ok(current);
    }

    /** `get_process_data()`: store `return_data` in the bundle under
        "process_data" and hand back the same bundle. */
    method GetProcessData(data: WorkingData) returns (r: WorkingData)
      modifies data
      ensures r == data && data.processData == Some(returnData)
      ensures data.charges == old(data.charges) && data.refunds == old(data.refunds)
    {
      data.processData := Some(returnData);
      return data;
    }
  }
}
