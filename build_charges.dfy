/** `BuildCharges`: fetch the open fee/fines of the configured age window
    from the backend, then run the charge stages and the summary. */
module BuildCharges {
  import opened Wrappers
  import opened PyStrings
  import opened PyJson
  import opened Records
  import opened DataRules
  import opened DataProcessor
  import opened Connector
  import opened Pipeline

  /** The record kind whose stages `get_charges` runs. */
  const Kind := "charge"

  /** The fixed pieces of the accounts query. */
  const OpenBefore := "/accounts?query=(status.name==\"Open\" and metadata.createdDate < "
  const CreatedAfter := " and metadata.createdDate > "
  const LimitTo := ")&limit="

  /** The URL of `__get_outstanding_fines_all`: open accounts created
      after `charges_max_age` days ago and before
      `charge_days_outstanding` days ago, at most
      `max_fines_to_be_pulled` of them. `daysAgo(n)` is the date `n` days
      before today as `%Y-%m-%d`. */
  function ChargesQuery(settings: Dict, daysAgo: int -> string): (r: Result<string>)
    ensures r.Ok? <==>
      IntOf(Get(settings, "charge_days_outstanding", JNum(0))).Ok? &&
      IntOf(Get(settings, "charges_max_age", JNum(365))).Ok? &&
      Str(Get(settings, "max_fines_to_be_pulled", JNum(10000000))).Ok?
    ensures !IntOf(Get(settings, "charge_days_outstanding", JNum(0))).Ok? ==>
      r == Err(IntOf(Get(settings, "charge_days_outstanding", JNum(0))).error)
  {
    var outstanding :- IntOf(Get(settings, "charge_days_outstanding", JNum(0)));
    var maxAge :- IntOf(Get(settings, "charges_max_age", JNum(365)));
    var limit :- Str(Get(settings, "max_fines_to_be_pulled", JNum(10000000)));
    Ok(OpenBefore + daysAgo(outstanding) + CreatedAfter + daysAgo(maxAge) + LimitTo + limit)
  }

  /** Without settings the window is from 365 days ago up to today, and
      the limit is 10000000. */
  lemma ChargesQueryDefaults(settings: Dict, daysAgo: int -> string)
    requires "charge_days_outstanding" !in settings && "charges_max_age" !in settings
    requires "max_fines_to_be_pulled" !in settings
    ensures ChargesQuery(settings, daysAgo) ==
      Ok(OpenBefore + daysAgo(0) + CreatedAfter + daysAgo(365) + LimitTo + "10000000")
  {
    assert Digits(10) == "10";
    assert Digits(100) == "100";
    assert Digits(1000) == "1000";
    assert Digits(10000) == "10000";
    assert Digits(100000) == "100000";
    assert Digits(1000000) == "1000000";
    assert Digits(10000000) == "10000000";
    assert Str(JNum(10000000)) == Ok("10000000");
    assert IntOf(Get(settings, "charge_days_outstanding", JNum(0))) == Ok(0);
    assert IntOf(Get(settings, "charges_max_age", JNum(365))) == Ok(365);
  }

  /** `data['resultInfo']['totalRecords']` and `data['accounts']` of the
      backend's answer. */
  function Outstanding(answer: Result<Json>): (r: Result<(Json, Json)>)
    ensures r.Ok? ==> answer.Ok? && answer.value.JObj? && "accounts" in answer.value.fields
    ensures r.Ok? ==> r.value.1 == answer.value.fields["accounts"]
    ensures answer.Ok? && answer.value.JObj? && "resultInfo" !in answer.value.fields ==> r == Err(KeyError)
  {
    var data :- answer;
    var info :- Index(data, "resultInfo");
    var total :- Index(info, "totalRecords");
    var accounts :- Index(data, "accounts");
    Ok((total, accounts))
  }

  /** The `BuildCharges` object. */
  class ChargeBuilder {
    const settings: Dict
    const client: Client
    const processor: Processor
    /** The accounts query, fixed by the settings and the day of the run. */
    const query: Result<string>
    /** `__filter_data`: the counts that open the summary. */
    var filterData: Dict
    /** The records `get_charges` fetched, and their contents as fetched. */
    ghost var fetched: seq<Record>
    ghost var raw: seq<Dict>
    /** The counts the summary starts from. */
    ghost var counts: Dict

    /** The rule engine is given the client where it expects a script
        directory, so it has no data sets. */
    constructor (client: Client, settings: Dict, environ: map<string, string>, daysAgo: int -> string)
      ensures this.client == client && this.settings == settings && query == ChargesQuery(settings, daysAgo)
      ensures fresh(processor) && processor.dataDir == None && processor.environ == environ
      ensures processor.filterData == map[] && processor.errorData == [] && processor.Valid()
      ensures filterData == InitialSummary && fetched == [] && raw == [] && counts == InitialSummary
    {
      this.settings := settings;
      this.client := client;
      query := ChargesQuery(settings, daysAgo);
      processor := new Processor(None, environ);
      filterData := InitialSummary;
      fetched := [];
      raw := [];
      counts := InitialSummary;
    }

    /** The query went out once, after `log0` and as call number
        `calls0`, and the backend answered that it holds `total` accounts
        and sent the accounts `vals`. */
    ghost predicate Answered(calls0: nat, log0: seq<Request>, total: Json, vals: seq<Dict>)
      reads client`log
    {
      query.Ok? &&
      var req := HttpGet(query.value);
      client.log == log0 + [req] && Outstanding(client.Answer(calls0, req)) == Ok((total, ObjList(vals)))
    }

    /** `__get_outstanding_fines_all()`: one GET of the query; the
        reported total is noted, the accounts handed back as records. */
    method GetOutstandingFinesAll() returns (r: Result<seq<Record>>)
      requires client.Valid()
      modifies this, client
      ensures client.Valid() && fetched == old(fetched) && raw == old(raw) && counts == old(counts)
      ensures query.Err? ==>
        r == Err(query.error) && client.log == old(client.log)
      ensures query.Ok? ==>
        client.log == old(client.log) + [HttpGet(query.value)]
      ensures r.Ok? ==> "reportedRecordCount" in filterData
      ensures r.Ok? ==> filterData == old(filterData)["reportedRecordCount" := filterData["reportedRecordCount"]]
      ensures r.Ok? ==> Answered(old(client.calls), old(client.log), filterData["reportedRecordCount"], Contents(r.value))
      ensures r.Ok? ==> Distinct(r.value) && forall i :: 0 <= i < |r.value| ==> fresh(r.value[i])
    {
      var url :- query;
      var answer := client.Send(HttpGet(url));
      var data :- answer;
      var info :- Index(data, "resultInfo");
      var total :- Index(info, "totalRecords");
      filterData := filterData["reportedRecordCount" := total];
      var accounts :- Index(data, "accounts");
      r := FromJson(accounts);
      if r.Ok? {
        assert ObjList(Contents(r.value)).items == accounts.items;
      }
    }

    /** What fetching left behind: the query was answered with the
        records as fetched, and the counts hold the reported total and
        the raw record count. */
    ghost predicate FetchedBy(calls0: nat, log0: seq<Request>, counts0: Dict)
      reads this`raw, this`counts, client`log
    {
      "reportedRecordCount" in counts &&
      Answered(calls0, log0, counts["reportedRecordCount"], raw) &&
      counts == counts0["reportedRecordCount" := counts["reportedRecordCount"]]["rawRecordCount" := JNum(|raw|)]
    }

    /** The first half of `get_charges()`: fetch the accounts, pass them
        through the patron and material API merges (which change nothing
        here) and note the raw record count. */
    method Fetch() returns (r: Result<seq<Record>>)
      requires client.Valid()
      modifies this, client
      ensures client.Valid()
      ensures r.Ok? ==> FetchedBy(old(client.calls), old(client.log), old(filterData))
      ensures r.Ok? ==> fetched == r.value && raw == Contents(r.value) && filterData == counts
      ensures r.Ok? ==> Distinct(r.value) && forall i :: 0 <= i < |r.value| ==> fresh(r.value[i])
    {
      var fines :- GetOutstandingFinesAll();
      fines := ApiMerges(processor, fines, true);
      var noted := filterData["rawRecordCount" := JNum(|fines|)];
      filterData, counts, fetched, raw := noted, noted, fines, Contents(fines);
      return Ok(fines);
    }

    /** `get_charges()`: fetch, then the charge stages, then the summary
        over the builder's counts. What the stages do to the records is
        the contract of `Process`. */
    method GetCharges() returns (r: Result<Built>)
      requires client.Valid() && processor.Valid()
      modifies this, client, processor
      ensures client.Valid() && processor.Valid()
      ensures r.Ok? ==> FetchedBy(old(client.calls), old(client.log), old(filterData)) && filterData == counts
      ensures r.Ok? ==> Summarised(counts, Counters(processor.filterData), Contents(r.value.data), Contents(r.value.error)) == Ok(r.value.summary)
      ensures r.Ok? ==> |fetched| == |raw|
      ensures r.Ok? ==> var w := Staged(fetched, raw, settings, Kind, processor.environ, processor.dataDir);
        w.Ok? && r.value.data == w.value.records &&
        Summarised(counts, Counters(processor.filterData), w.value.vals, Contents(r.value.error)) == Ok(r.value.summary)
      ensures r.Ok? ==> Distinct(r.value.data) && forall x :: x in r.value.data ==> x in fetched
      ensures r.Ok? ==> r.value.error == processor.errorData && Grown(old(processor.errorData), processor.errorData, fetched)
      ensures r.Ok? && StageConfigs(settings, "filters", Kind + "_filters") == Ok([]) ==>
        r.value.data == fetched && processor.filterData == old(processor.filterData)
    {
      var fines :- Fetch();
      r := Process(processor, settings, Kind, filterData, fines);
    }
  }
}
