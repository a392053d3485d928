/** `BuildCredits`: fetch the refunds-to-process report from the backend,
    look up the account behind each credit, then run the credit stages and
    the summary. */
module BuildCredits {
  import opened Wrappers
  import opened PyJson
  import opened Records
  import opened DataProcessor
  import opened Connector
  import opened Pipeline
  import Actions

  /** The record kind whose stages `get_credits` runs. */
  const Kind := "credit"

  /** The report of refunds to process manually. */
  const RefundReport := "/feefine-reports/refund"

  /** The prefix of an account's URL. */
  const AccountsPrefix := "/accounts/"

  /** The body of the report request: refunds from `start` to `end`, for
      every fee/fine owner. */
  function RefundBody(start: string, end: string): (r: Json)
    ensures r.JObj? && r.fields.Keys == {"startDate", "endDate", "feeFineOwners"}
    ensures r.fields["startDate"] == JStr(start) && r.fields["endDate"] == JStr(end)
    ensures r.fields["feeFineOwners"] == JList([])
  {
    JObj(map["startDate" := JStr(start), "endDate" := JStr(end), "feeFineOwners" := JList([])])
  }

  /** The body of the report request of `__get_outstanding_credits_all`:
      the refunds from `credit_days_outstanding` days ago (1 when that
      setting is falsy) up to yesterday. The setting itself must be
      present. `daysAgo(n)` is the date `n` days before today as
      `%Y-%m-%d`. */
  function CreditsReport(settings: Dict, daysAgo: int -> string): (r: Result<Json>)
    ensures "credit_days_outstanding" !in settings ==> r == Err(KeyError)
    ensures r.Ok? ==> r.value.JObj? && "endDate" in r.value.fields && r.value.fields["endDate"] == JStr(daysAgo(1))
  {
    var setting :- Lookup(settings, "credit_days_outstanding");
    var days :- IntOf(if Truthy(setting) then setting else JNum(1));
    Ok(RefundBody(daysAgo(days), daysAgo(1)))
  }

  /** A falsy `credit_days_outstanding` (0, empty, null, false) asks for
      yesterday's refunds only. */
  lemma FalsyDaysIsYesterday(settings: Dict, daysAgo: int -> string)
    requires "credit_days_outstanding" in settings && !Truthy(settings["credit_days_outstanding"])
    ensures CreditsReport(settings, daysAgo) == Ok(RefundBody(daysAgo(1), daysAgo(1)))
  {
    assert IntOf(JNum(1)) == Ok(1);
  }

  /** A truthy setting that `int()` reads as `n` asks for the refunds from
      `n` days ago up to yesterday; one it cannot read fails as `int()`
      does. */
  lemma TruthyDaysWindow(settings: Dict, daysAgo: int -> string)
    requires "credit_days_outstanding" in settings && Truthy(settings["credit_days_outstanding"])
    ensures var n := IntOf(settings["credit_days_outstanding"]);
      (n.Ok? ==> CreditsReport(settings, daysAgo) == Ok(RefundBody(daysAgo(n.value), daysAgo(1)))) &&
      (n.Err? ==> CreditsReport(settings, daysAgo) == Err(n.error))
  {
  }

  /** The credits of the report: `data['reportData']`, whose `len()` is
      taken before the loop over it. Iterating a non-empty dict yields its
      keys, and subscripting a key with `"feeFineId"` is a TypeError. */
  function ReportEntries(answer: Result<Json>): (r: Result<seq<Json>>)
    ensures r.Ok? ==> answer.Ok? && answer.value.JObj? && "reportData" in answer.value.fields
    ensures r.Ok? && answer.value.fields["reportData"].JList? ==> r.value == answer.value.fields["reportData"].items
    ensures answer.Err? ==> r == Err(answer.error)
    ensures answer.Ok? && answer.value.JObj? && "reportData" !in answer.value.fields ==> r == Err(KeyError)
    ensures answer.Ok? && answer.value.JObj? && "reportData" in answer.value.fields ==>
      var rd := answer.value.fields["reportData"];
      (rd.JNull? || rd.JBool? || rd.JNum? || (rd.JObj? && |rd.fields| != 0)) ==> r == Err(TypeError)
  {
    var data :- answer;
    var rd :- Index(data, "reportData");
    var _ :- Len(rd);
    match rd
    case JObj(m) => if |m| == 0 then Ok([]) else Err(TypeError)
    case _ => Iterated(rd)
  }

  /** `f'/accounts/{c["feeFineId"]}'` */
  function AccountUrl(credit: Json): (r: Result<string>)
    ensures r.Ok? ==> credit.JObj? || credit.JList? || credit.JStr?
    ensures credit.JObj? ==> (r.Ok? <==> "feeFineId" in credit.fields && Str(credit.fields["feeFineId"]).Ok?)
    ensures r.Ok? && credit.JObj? ==> r.value == AccountsPrefix + Str(credit.fields["feeFineId"]).value
  {
    var id :- Index(credit, "feeFineId");
    var s :- Str(id);
    Ok(AccountsPrefix + s)
  }

  /** `fine_data['report_data'] = c`: only a dict takes the item. */
  function WithReportData(fine: Json, credit: Json): (r: Result<Dict>)
    ensures r.Ok? <==> fine.JObj?
    ensures r.Ok? ==> r.value.Keys == fine.fields.Keys + {"report_data"} && r.value["report_data"] == credit
    ensures r.Ok? ==> forall k :: k in fine.fields && k != "report_data" ==> r.value[k] == fine.fields[k]
    ensures r.Err? ==> r.error == TypeError
  {
    if fine.JObj? then Ok(fine.fields["report_data" := credit]) else Err(TypeError)
  }

  /** What looking up one credit's account does as call number `n`: the
      requests it sends, and the account with the credit attached. */
  datatype Fetched = Fetched(sent: seq<Request>, result: Result<Dict>)

  function FeeFine(client: Client, n: nat, credit: Json): (r: Fetched)
    ensures |r.sent| <= 1 && (AccountUrl(credit).Ok? <==> |r.sent| == 1)
    ensures AccountUrl(credit).Ok? ==> r.sent == [HttpGet(AccountUrl(credit).value)]
    ensures AccountUrl(credit).Err? ==> r.result == Err(AccountUrl(credit).error)
    ensures r.result.Ok? ==> "report_data" in r.result.value && r.result.value["report_data"] == credit
  {
    match AccountUrl(credit)
    case Err(e) => Fetched([], Err(e))
    case Ok(url) =>
      Fetched([HttpGet(url)], (var fine :- client.Answer(n, HttpGet(url)); WithReportData(fine, credit)))
  }

  /** A lookup of one credit's account, given the number of calls made
      before it. */
  type AccountLookup = (nat, Json) -> Fetched

  /** The lookups of `client`. */
  function LookupIn(client: Client): (f: AccountLookup)
    ensures forall n, credit :: f(n, credit) == FeeFine(client, n, credit)
  {
    (n: nat, credit: Json) => FeeFine(client, n, credit)
  }

  /** `__get_fee_fine_data` from the `i`-th credit on, the `j`-th credit
      looked up as call `c0 + j`, with the accounts `done` built and the
      requests `sent` so far: the requests of the whole loop, and its
      accounts or its first error. */
  function FeeFinesFrom(lookup: AccountLookup, credits: seq<Json>, c0: nat, i: nat, done: seq<Dict>, sent: seq<Request>): (r: (seq<Request>, Result<seq<Dict>>))
    requires i <= |credits|
    decreases |credits| - i
  {
    if i == |credits| then (sent, Ok(done))
    else
      var step := lookup(c0 + i, credits[i]);
      if step.result.Err? then (sent + step.sent, Err(step.result.error))
      else FeeFinesFrom(lookup, credits, c0, i + 1, done + [step.result.value], sent + step.sent)
  }

  /** `__get_fee_fine_data(credits)` with `c0` calls made before it. */
  function FeeFines(client: Client, credits: seq<Json>, c0: nat): (seq<Request>, Result<seq<Dict>>)
  {
    FeeFinesFrom(LookupIn(client), credits, c0, 0, [], [])
  }

  /** One turn of the loop: the lookup of the `i`-th credit either fails,
      ending the loop, or adds its account and moves on. */
  lemma FeeFinesFromStep(lookup: AccountLookup, credits: seq<Json>, c0: nat, i: nat, done: seq<Dict>, sent: seq<Request>)
    requires i < |credits|
    ensures var step := lookup(c0 + i, credits[i]);
      FeeFinesFrom(lookup, credits, c0, i, done, sent) ==
        if step.result.Err? then (sent + step.sent, Err(step.result.error))
        else FeeFinesFrom(lookup, credits, c0, i + 1, done + [step.result.value], sent + step.sent)
  {
  }

  /** Every lookup from the `i`-th credit up to the `k`-th finds its
      account with one request, the `j`-th as call `c0 + j`. */
  predicate FoundBetween(lookup: AccountLookup, credits: seq<Json>, c0: nat, i: nat, k: nat)
    requires i <= k <= |credits|
  {
    forall j :: i <= j < k ==> lookup(c0 + j, credits[j]).result.Ok? && |lookup(c0 + j, credits[j]).sent| == 1
  }

  /** The accounts those lookups yield, in order. */
  function Found(lookup: AccountLookup, credits: seq<Json>, c0: nat, i: nat, k: nat): (r: seq<Dict>)
    requires i <= k <= |credits| && FoundBetween(lookup, credits, c0, i, k)
    ensures |r| == k - i
    ensures forall j :: i <= j < k ==> r[j - i] == lookup(c0 + j, credits[j]).result.value
  {
    seq(k - i, j requires 0 <= j < k - i => lookup(c0 + i + j, credits[i + j]).result.value)
  }

  /** The requests those lookups send, in order. */
  function Gets(lookup: AccountLookup, credits: seq<Json>, c0: nat, i: nat, k: nat): (r: seq<Request>)
    requires i <= k <= |credits| && FoundBetween(lookup, credits, c0, i, k)
    ensures |r| == k - i
    ensures forall j :: i <= j < k ==> [r[j - i]] == lookup(c0 + j, credits[j]).sent
  {
    seq(k - i, j requires 0 <= j < k - i => lookup(c0 + i + j, credits[i + j]).sent[0])
  }

  /** A run of successful lookups from `i` to `k` moves the loop on to
      `k`, adding their accounts and their requests. */
  lemma {:induction false} FeeFinesFromFound(lookup: AccountLookup, credits: seq<Json>, c0: nat, i: nat, k: nat, done: seq<Dict>, sent: seq<Request>)
    requires i <= k <= |credits| && FoundBetween(lookup, credits, c0, i, k)
    ensures FeeFinesFrom(lookup, credits, c0, i, done, sent) ==
      FeeFinesFrom(lookup, credits, c0, k, done + Found(lookup, credits, c0, i, k), sent + Gets(lookup, credits, c0, i, k))
    decreases k - i
  {
    var found := Found(lookup, credits, c0, i, k);
    var gets := Gets(lookup, credits, c0, i, k);
    if i == k {
      assert done + found == done;
      assert sent + gets == sent;
    } else {
      var step := lookup(c0 + i, credits[i]);
      FeeFinesFromFound(lookup, credits, c0, i + 1, k, done + [step.result.value], sent + step.sent);
      var found', gets' := Found(lookup, credits, c0, i + 1, k), Gets(lookup, credits, c0, i + 1, k);
      assert found == [step.result.value] + found';
      assert gets == step.sent + gets' by {
        assert step.sent == [gets[0]];
      }
      Actions.AppendAssociative(done, [step.result.value], found');
      Actions.AppendAssociative(sent, step.sent, gets');
    }
  }

  /** When every lookup succeeds, `__get_fee_fine_data(credits)` yields
      one account per credit, in order, each carrying its credit under
      `report_data`, after one GET of that credit's account per credit,
      in order. */
  lemma FeeFinesAllFound(client: Client, credits: seq<Json>, c0: nat)
    requires forall j :: 0 <= j < |credits| ==> FeeFine(client, c0 + j, credits[j]).result.Ok?
    ensures var (s, res) := FeeFines(client, credits, c0);
      res.Ok? && |res.value| == |credits| && |s| == |credits| &&
      forall j :: 0 <= j < |credits| ==>
        res.value[j] == FeeFine(client, c0 + j, credits[j]).result.value &&
        "report_data" in res.value[j] && res.value[j]["report_data"] == credits[j] &&
        AccountUrl(credits[j]).Ok? && s[j] == HttpGet(AccountUrl(credits[j]).value)
  {
    var lookup := LookupIn(client);
    assert FoundBetween(lookup, credits, c0, 0, |credits|);
    FeeFinesFromFound(lookup, credits, c0, 0, |credits|, [], []);
    assert [] + Found(lookup, credits, c0, 0, |credits|) == Found(lookup, credits, c0, 0, |credits|);
    assert [] + Gets(lookup, credits, c0, 0, |credits|) == Gets(lookup, credits, c0, 0, |credits|);
  }

  /** When the `k`-th lookup is the first to fail, `__get_fee_fine_data`
      fails with its error, having sent the GETs of the credits before it
      and whatever that lookup sent. */
  lemma FeeFinesFirstMiss(client: Client, credits: seq<Json>, c0: nat, k: nat)
    requires k < |credits| && forall j :: 0 <= j < k ==> FeeFine(client, c0 + j, credits[j]).result.Ok?
    requires FeeFine(client, c0 + k, credits[k]).result.Err?
    ensures var (s, res) := FeeFines(client, credits, c0);
      var miss := FeeFine(client, c0 + k, credits[k]);
      res == Err(miss.result.error) && |s| == k + |miss.sent| && s[k..] == miss.sent &&
      forall j :: 0 <= j < k ==> AccountUrl(credits[j]).Ok? && s[j] == HttpGet(AccountUrl(credits[j]).value)
  {
    var lookup := LookupIn(client);
    assert FoundBetween(lookup, credits, c0, 0, k);
    FeeFinesFromFound(lookup, credits, c0, 0, k, [], []);
    var gets := Gets(lookup, credits, c0, 0, k);
    assert [] + gets == gets;
    assert (gets + FeeFine(client, c0 + k, credits[k]).sent)[k..] == FeeFine(client, c0 + k, credits[k]).sent;
  }

  /** The `BuildCredits` object. */
  class CreditBuilder {
    const settings: Dict
    const client: Client
    const processor: Processor
    /** The body of the report request, fixed by the settings and the day
        of the run. */
    const report: Result<Json>
    /** `__filter_data`: the counts that open the summary. */
    var filterData: Dict
    /** The report's credits, the records built from them and their
        contents as built. */
    ghost var credits: seq<Json>
    ghost var fetched: seq<Record>
    ghost var raw: seq<Dict>
    /** The counts the summary starts from. */
    ghost var counts: Dict

    /** The rule engine is given the client where it expects a script
        directory, so it has no data sets. */
    constructor (client: Client, settings: Dict, environ: map<string, string>, daysAgo: int -> string)
      ensures this.client == client && this.settings == settings && report == CreditsReport(settings, daysAgo)
      ensures fresh(processor) && processor.dataDir == None && processor.environ == environ
      ensures processor.filterData == map[] && processor.errorData == [] && processor.Valid()
      ensures filterData == InitialSummary && credits == [] && fetched == [] && raw == [] && counts == InitialSummary
    {
      this.settings := settings;
      this.client := client;
      report := CreditsReport(settings, daysAgo);
      processor := new Processor(None, environ);
      filterData := InitialSummary;
      credits := [];
      fetched := [];
      raw := [];
      counts := InitialSummary;
    }

    /** `__get_outstanding_credits_all()`: one POST of the report; its
        credits are handed back. */
    method GetOutstandingCreditsAll() returns (r: Result<seq<Json>>)
      requires client.Valid()
      modifies client
      ensures client.Valid()
      ensures report.Err? ==> r == Err(report.error) && client.log == old(client.log)
      ensures report.Ok? ==>
        client.log == old(client.log) + [HttpPost(RefundReport, report.value)] &&
        r == ReportEntries(client.Answer(old(client.calls), HttpPost(RefundReport, report.value)))
    {
      var body :- report;
      var answer := client.Send(HttpPost(RefundReport, body));
      r := ReportEntries(answer);
    }

    /** One turn of the loop of `__get_fee_fine_data`: GET the credit's
        account and attach the credit to it, as `FeeFine` says. */
    method FetchAccount(credit: Json) returns (r: Result<Dict>)
      requires client.Valid()
      modifies client
      ensures client.Valid()
      ensures var f := LookupIn(client)(old(client.calls), credit);
        r == f.result && client.log == old(client.log) + f.sent
    {
      var url :- AccountUrl(credit);
      var answer := client.Send(HttpGet(url));
      var fine :- answer;
      r := WithReportData(fine, credit);
    }

    /** The loop of `__get_fee_fine_data(credits)`: GET each credit's
        account and attach the credit to it under `report_data`, as
        `FeeFines` says. */
    method FetchAccounts(credits: seq<Json>) returns (r: Result<seq<Dict>>)
      requires client.Valid()
      modifies client
      ensures client.Valid()
      ensures client.log == old(client.log) + FeeFines(client, credits, old(client.calls)).0
      ensures r == FeeFines(client, credits, old(client.calls)).1
    {
      ghost var c0 := client.calls;
      ghost var l0 := client.log;
      ghost var lookup := LookupIn(client);
      ghost var whole := FeeFines(client, credits, c0);
      ghost var sent: seq<Request> := [];
      var vals: seq<Dict> := [];
      var i := 0;
      while i < |credits|
        invariant i <= |credits| && client.Valid()
        invariant client.calls == c0 + i && client.log == l0 + sent
        invariant whole == FeeFinesFrom(lookup, credits, c0, i, vals, sent)
      {
        ghost var step := lookup(c0 + i, credits[i]);
        var fine := FetchAccount(credits[i]);
        Actions.AppendAssociative(l0, sent, step.sent);
        sent := sent + step.sent;
        if fine.Err? {
          return Err(fine.error);
        }
        vals := vals + [fine.value];
        i := i + 1;
      }
      r := Ok(vals);
    }

    /** `__get_fee_fine_data(credits)`: the accounts of `FetchAccounts`
        as new records. */
    method FeeFineData(credits: seq<Json>) returns (r: Result<seq<Record>>)
      requires client.Valid()
      modifies client
      ensures client.Valid()
      ensures client.log == old(client.log) + FeeFines(client, credits, old(client.calls)).0
      ensures r.Ok? ==> FeeFines(client, credits, old(client.calls)).1 == Ok(Contents(r.value))
      ensures r.Err? ==> FeeFines(client, credits, old(client.calls)).1 == Err(r.error)
      ensures r.Ok? ==> Distinct(r.value) && forall i :: 0 <= i < |r.value| ==> fresh(r.value[i])
    {
      var vals :- FetchAccounts(credits);
      r := FromJson(ObjList(vals));
      assert r.Ok? && Contents(r.value) == vals;
    }

    /** The report went out once, after `log0` and as call number
        `calls0`, and listed `entries`; their accounts were looked up, one
        call each, and came back as `vals`. */
    ghost predicate Collected(calls0: nat, log0: seq<Request>, entries: seq<Json>, vals: seq<Dict>)
      reads client`log
    {
      report.Ok? &&
      var post := HttpPost(RefundReport, report.value);
      ReportEntries(client.Answer(calls0, post)) == Ok(entries) &&
      var accounts := FeeFines(client, entries, calls0 + 1);
      accounts.1 == Ok(vals) && client.log == log0 + [post] + accounts.0
    }

    /** `__get_outstanding_credits_all()` followed by
        `__get_fee_fine_data()`: the report's credits, and their accounts
        as new records. */
    method Collect() returns (r: Result<seq<Record>>, ghost entries: seq<Json>)
      requires client.Valid()
      modifies client
      ensures client.Valid()
      ensures r.Ok? ==> Collected(old(client.calls), old(client.log), entries, Contents(r.value))
      ensures r.Ok? ==> Distinct(r.value) && forall i :: 0 <= i < |r.value| ==> fresh(r.value[i])
    {
      var got := GetOutstandingCreditsAll();
      if got.Err? {
        return Err(got.error), [];
      }
      entries := got.value;
      r := FeeFineData(got.value);
    }

    /** What fetching left behind: the report and the accounts of its
        credits were collected as `raw`, and the counts hold the raw
        record count. */
    ghost predicate FetchedBy(calls0: nat, log0: seq<Request>, counts0: Dict)
      reads this`credits, this`raw, this`counts, client`log
    {
      Collected(calls0, log0, credits, raw) && counts == counts0["rawRecordCount" := JNum(|raw|)]
    }

    /** The first half of `get_credits()`: collect the accounts, pass them
        through the material and patron API merges (which change nothing
        here) and note the raw record count. */
    method Fetch() returns (r: Result<seq<Record>>)
      requires client.Valid()
      modifies this, client
      ensures client.Valid()
      ensures r.Ok? ==> FetchedBy(old(client.calls), old(client.log), old(filterData))
      ensures r.Ok? ==> fetched == r.value && raw == Contents(r.value) && filterData == counts
      ensures r.Ok? ==> Distinct(r.value) && forall i :: 0 <= i < |r.value| ==> fresh(r.value[i])
    {
      var got, entries := Collect();
      if got.Err? {
        return Err(got.error);
      }
      var fines := ApiMerges(processor, got.value, false);
      var noted := filterData["rawRecordCount" := JNum(|fines|)];
      filterData, counts, fetched, raw, credits := noted, noted, fines, Contents(fines), entries;
      return Ok(fines);
    }

    /** `get_credits()`: fetch, then the credit stages, then the summary
        over the builder's counts, under the same `charge` and `errors`
        labels as the charges. What the stages do to the records is the
        contract of `Process`. */
    method GetCredits() returns (r: Result<Built>)
      requires client.Valid() && processor.Valid()
      modifies this, client, processor
      ensures client.Valid() && processor.Valid()
      ensures r.Ok? ==> FetchedBy(old(client.calls), old(client.log), old(filterData)) && filterData == counts
      ensures r.Ok? ==> Summarised(counts, Counters(processor.filterData), Contents(r.value.data), Contents(r.value.error)) == Ok(r.value.summary)
      ensures r.Ok? ==> |fetched| == |raw|
      ensures r.Ok? ==> var w := Staged(fetched, raw, settings, Kind, processor.environ, processor.dataDir);
        w.Ok? && r.value.data == w.value.records &&
        Summarised(counts, Counters(processor.filterData), w.value.vals, Contents(r.value.error)) == Ok(r.value.summary)
      ensures r.Ok? ==> Distinct(r.value.data) && forall x :: x in r.value.data ==> x in fetched
      ensures r.Ok? ==> r.value.error == processor.errorData && Grown(old(processor.errorData), processor.errorData, fetched)
      ensures r.Ok? && StageConfigs(settings, "filters", Kind + "_filters") == Ok([]) ==>
        r.value.data == fetched && processor.filterData == old(processor.filterData)
    {
      var fines :- Fetch();
      r := Process(processor, settings, Kind, filterData, fines);
    }
  }
}
