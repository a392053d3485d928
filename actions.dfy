/** The six action classes of `src/actions`: each checks a record (with
    the backend for the money actions), then, when the check allows it,
    executes by writing a marker into the record under the action's name.
    The class to use is chosen by the configuration's `action_type`; here
    that choice is the closed datatype `Kind`. */
module Actions {
  import opened Wrappers
  import opened PyStrings
  import opened PyJson
  import opened Records
  import opened Connector

  datatype Kind = Pay | Transfer | Refund | Waive | Block | RemoveBlock

  /** The class name `action_type` must spell. */
  function ClassName(k: Kind): string
  {
    match k
    case Pay => "PayFineAction"
    case Transfer => "TransferFineAction"
    case Refund => "RefundFineAction"
    case Waive => "WaiveFineAction"
    case Block => "BlockPatronAction"
    case RemoveBlock => "RemoveBlockPatronAction"
  }

  /** The class an `action_type` names. A string naming no action class is
      the ValueError the loader raises; a non-string fails in the name
      conversion with a TypeError. */
  function KindNamed(actionType: Json): (r: Result<Kind>)
    ensures r.Ok? ==> actionType == JStr(ClassName(r.value))
    ensures actionType.JStr? && r.Err? ==> r.error == ValueError
    ensures !actionType.JStr? ==> r == Err(TypeError)
  {
    match actionType
    case JStr(s) =>
      if s == "PayFineAction" then Ok(Pay)
      else if s == "TransferFineAction" then Ok(Transfer)
      else if s == "RefundFineAction" then Ok(Refund)
      else if s == "WaiveFineAction" then Ok(Waive)
      else if s == "BlockPatronAction" then Ok(Block)
      else if s == "RemoveBlockPatronAction" then Ok(RemoveBlock)
      else Err(ValueError)
    case _ => Err(TypeError)
  }

  /** Every action class is found under its own name. */
  lemma KindNamedClassName(k: Kind)
    ensures KindNamed(JStr(ClassName(k))) == Ok(k)
  {
  }

  /** The actions that move money and check with the backend first. */
  predicate IsMoney(k: Kind)
  {
    k.Pay? || k.Transfer? || k.Refund? || k.Waive?
  }

  /** The verb in the money actions' URLs (`check-pay`, `pay`, ...). */
  function Verb(k: Kind): string
  {
    match k
    case Pay => "pay"
    case Transfer => "transfer"
    case Refund => "refund"
    case Waive => "waive"
    case _ => ""
  }

  // ---------------------------------------------------------------------
  // The activation flag

  /** `str(v).lower() == "false"`. The text of a list or dict opens with
      `[` or `{`, so it never reads "false". */
  predicate SaysFalse(v: Json)
  {
    match Str(v)
    case Ok(s) => Lower(s) == "false"
    case Err(_) => false
  }

  /** Only `False` and the strings reading "false" in any case say false. */
  lemma SaysFalseMeaning(v: Json)
    ensures SaysFalse(v) <==> v == JBool(false) || (v.JStr? && Lower(v.s) == "false")
  {
    if v.JNum? {
      var s := Str(v).value;
      assert s[0] == '-' || IsDigit(s[0]);
      assert Lower(s)[0] != 'f';
    }
  }

  /** The flag as the six constructors compute it: `process_active` is
      read only when the VALUE of `trans_active` is a key of `conf`. */
  function ActiveAsWritten(conf: Dict, transActive: Json): Result<bool>
  {
    var keyed :- In(transActive, JObj(conf));
    var processActive :- if keyed then Lookup(conf, "process_active") else Ok(JBool(true));
    Ok(!(SaysFalse(processActive) || SaysFalse(transActive)))
  }

  /** The flag with the key test on `"process_active"`, the key that is
      then read. */
  function Active(conf: Dict, transActive: Json): bool
  {
    var processActive := Get(conf, "process_active", JBool(true));
    !(SaysFalse(processActive) || SaysFalse(transActive))
  }

  /** An action is switched off by a false `trans_active` or by its own
      false `process_active`, and by nothing else. */
  lemma ActiveMeaning(conf: Dict, transActive: Json)
    ensures !Active(conf, transActive) <==>
      transActive == JBool(false) || (transActive.JStr? && Lower(transActive.s) == "false") ||
      ("process_active" in conf && (conf["process_active"] == JBool(false) ||
        (conf["process_active"].JStr? && Lower(conf["process_active"].s) == "false")))
  {
    SaysFalseMeaning(transActive);
    SaysFalseMeaning(Get(conf, "process_active", JBool(true)));
  }

  /** As written, a boolean or numeric `trans_active` (the jobs file's
      `trans_active` is a boolean) is never a key of `conf`, so the
      action's own `process_active` is never consulted. */
  lemma ActiveAsWrittenIgnoresSetting(conf: Dict, transActive: Json)
    requires transActive.JBool? || transActive.JNum? || transActive.JNull?
    ensures ActiveAsWritten(conf, transActive) == Ok(!SaysFalse(transActive))
  {
  }

  /** The input that shows it: an action configured with
      `process_active: false` in a job whose `trans_active` is true. */
  lemma ProcessActiveIgnored()
    ensures var conf := map["name" := JStr("pay"), "process_active" := JBool(false)];
      ActiveAsWritten(conf, JBool(true)) == Ok(true) && !Active(conf, JBool(true))
  {
    var conf := map["name" := JStr("pay"), "process_active" := JBool(false)];
    assert Str(JBool(true)).value == "True";
    assert Lower("True") == "true";
    assert !SaysFalse(JBool(true));
    assert Get(conf, "process_active", JBool(true)) == JBool(false);
    assert Lower("False") == "false";
  }

  // ---------------------------------------------------------------------
  // Record writes

  /** What a method leaves: the record's new contents and its result. */
  datatype Outcome = Outcome(fields: Dict, result: Result<Unit>)

  /** `if name not in fine: fine[name] = {}` */
  function WithSlot(f: Dict, name: string): (r: Dict)
    ensures name in r && r.Keys == f.Keys + {name}
    ensures forall k :: k in f ==> r[k] == f[k]
  {
    if name in f then f else f[name := JObj(map[])]
  }

  /** `fine[name][key] = v`: a KeyError without `fine[name]`, a TypeError
      when it is not a dict. */
  function Write(f: Dict, name: string, key: string, v: Json): (o: Outcome)
    ensures o.result.Ok? <==> name in f && f[name].JObj?
    ensures o.result.Err? ==> o.fields == f
  {
    if name !in f then Outcome(f, Err(KeyError))
    else if f[name].JObj? then Outcome(f[name := JObj(f[name].fields[key := v])], Ok(Unit))
    else Outcome(f, Err(TypeError))
  }

  /** The entry `key` of the action's sub-dict, if there is one. */
  function Entry(f: Dict, name: string, key: string): Option<Json>
  {
    if name in f && f[name].JObj? && key in f[name].fields then Some(f[name].fields[key]) else None
  }

  /** A successful write sets the entry, and nothing but the action's
      sub-dict changes. */
  lemma WriteMeaning(f: Dict, name: string, key: string, v: Json)
    requires name in f && f[name].JObj?
    ensures var o := Write(f, name, key, v);
      o.result.Ok? && Entry(o.fields, name, key) == Some(v) &&
      o.fields.Keys == f.Keys && (forall k :: k in f && k != name ==> o.fields[k] == f[k]) &&
      (forall e :: e != key ==> Entry(o.fields, name, e) == Entry(f, name, e))
  {
  }

  /** `fine[name]["check"]["allowed"]`, read by the driver after the check. */
  function Allowed(f: Dict, name: string): Result<bool>
  {
    var slot :- Lookup(f, name);
    var check :- Subscript(slot, JStr("check"));
    var allowed :- Subscript(check, JStr("allowed"));
    Ok(Truthy(allowed))
  }

  // ---------------------------------------------------------------------
  // check

  /** `fine["amount"] <= 0` */
  function AtMostZero(v: Json): Result<bool>
  {
    match NumOf(v)
    case Some(n) => Ok(n <= 0)
    case None => Err(TypeError)
  }

  /** The check verdict written for a non-positive amount. */
  function Refusal(k: Kind): Json
  {
    if k.Refund? then JObj(map["allowed" := JBool(false), "message" := JStr("Refund not allowed for non-positive amounts.")])
    else JObj(map["allowed" := JBool(false)])
  }

  /** The check verdict the block actions always write. */
  function Allowance(message: string): Json
  {
    JObj(map["allowed" := JBool(true), "message" := JStr(message)])
  }

  /** The backend check for a positive amount. The refund check passes
      `allow_errors=True`. */
  function CheckRequest(k: Kind, id: string, amount: Json): Request
  {
    var url := "/accounts/" + id + "/check-" + Verb(k);
    var body := JObj(map["amount" := amount]);
    if k.Refund? then HttpPostAllowErrors(url, body) else HttpPost(url, body)
  }

  /** A check either settles without the backend, or asks the backend
      `req` with the record's contents `f` at that point. */
  datatype CheckPlan = Settled(o: Outcome) | Ask(f: Dict, req: Request)

  /** `check(fine)` up to the backend call. */
  function CheckPlanOf(kind: Kind, name: string, f: Dict): CheckPlan
  {
    match kind
    case Block =>
      if "id" !in f then Settled(Outcome(f, Err(KeyError)))
      else Settled(Write(WithSlot(f, name), name, "check", Allowance("Block action allowed")))
    case RemoveBlock =>
      Settled(Write(WithSlot(f, name), name, "check", Allowance("Block removal action allowed")))
    case _ =>
      var f1 := WithSlot(f, name);
      if "amount" !in f1 then Settled(Outcome(f1, Err(KeyError)))
      else match AtMostZero(f1["amount"])
        case Err(e) => Settled(Outcome(f1, Err(e)))
        case Ok(nonPositive) =>
          if nonPositive then Settled(Write(f1, name, "check", Refusal(kind)))
          else if "id" !in f1 then Settled(Outcome(f1, Err(KeyError)))
          else match Str(f1["id"])
            case Err(e) => Settled(Outcome(f1, Err(e)))
            case Ok(id) => Ask(f1, CheckRequest(kind, id, f1["amount"]))
  }

  /** The rest of a money check once the backend answered `ans`: the
      answer is stored as the check verdict before its `allowed` entry is
      read, so an answer without one is stored and then raises. */
  function AfterAnswer(name: string, f: Dict, ans: Result<Json>): Outcome
  {
    match ans
    case Err(e) => Outcome(f, Err(e))
    case Ok(resp) =>
      var o := Write(f, name, "check", resp);
      if o.result.Err? then o
      else match Subscript(resp, JStr("allowed"))
        case Err(e) => Outcome(o.fields, Err(e))
        case Ok(_) => o
  }

  /** A non-positive amount is refused without asking the backend. */
  lemma CheckNonPositive(kind: Kind, name: string, f: Dict)
    requires IsMoney(kind) && name != "amount" && (name in f ==> f[name].JObj?)
    requires "amount" in f && NumOf(f["amount"]).Some? && NumOf(f["amount"]).value <= 0
    ensures var plan := CheckPlanOf(kind, name, f);
      plan.Settled? && plan.o.result.Ok? && Allowed(plan.o.fields, name) == Ok(false) &&
      Entry(plan.o.fields, name, "check") == Some(Refusal(kind))
  {
  }

  /** A positive amount is checked by one request carrying the amount to
      the account's `check-<verb>` URL. */
  lemma CheckPositive(kind: Kind, name: string, f: Dict, id: string)
    requires IsMoney(kind) && name != "amount" && name != "id"
    requires "amount" in f && NumOf(f["amount"]).Some? && NumOf(f["amount"]).value > 0
    requires "id" in f && f["id"] == JStr(id)
    ensures var plan := CheckPlanOf(kind, name, f);
      plan.Ask? && plan.f == WithSlot(f, name) &&
      plan.req.url == "/accounts/" + id + "/check-" + Verb(kind) &&
      plan.req.body == JObj(map["amount" := f["amount"]]) &&
      (plan.req.HttpPostAllowErrors? <==> kind.Refund?)
  {
  }

  /** The backend's answer becomes the check verdict, and the driver then
      reads its `allowed` entry. */
  lemma AnswerIsVerdict(name: string, f: Dict, resp: Dict)
    requires name in f && f[name].JObj? && "allowed" in resp
    ensures var o := AfterAnswer(name, f, Ok(JObj(resp)));
      o.result.Ok? && Entry(o.fields, name, "check") == Some(JObj(resp)) &&
      Allowed(o.fields, name) == Ok(Truthy(resp["allowed"]))
  {
  }

  /** The block actions always allow, with no backend call. */
  lemma BlockChecksAllow(kind: Kind, name: string, f: Dict)
    requires (kind.Block? && "id" in f) || kind.RemoveBlock?
    requires name in f ==> f[name].JObj?
    ensures var plan := CheckPlanOf(kind, name, f);
      plan.Settled? && plan.o.result.Ok? && Allowed(plan.o.fields, name) == Ok(true)
  {
  }

  /** A check changes the record only under the action's name. */
  lemma CheckTouchesOnlyItsSlot(kind: Kind, name: string, f: Dict, ans: Result<Json>)
    ensures var plan := CheckPlanOf(kind, name, f);
      var o := if plan.Settled? then plan.o else AfterAnswer(name, plan.f, ans);
      o.fields.Keys <= f.Keys + {name} && forall k :: k in f && k != name ==> o.fields[k] == f[k]
  {
  }

  /** `RemoveBlockPatronAction.check` as written: it writes into
      `fine[name]` without creating it. */
  function RemoveBlockCheckAsWritten(name: string, f: Dict): Outcome
  {
    Write(f, name, "check", Allowance("Block removal action allowed"))
  }

  /** On a record without the action's entry, the check as written raises
      a KeyError, which stops the whole run; with the entry created first
      (as the other five checks do) the block removal is allowed. */
  lemma RemoveBlockCheckNeedsSlot(name: string, f: Dict)
    requires name !in f
    ensures RemoveBlockCheckAsWritten(name, f) == Outcome(f, Err(KeyError))
    ensures var plan := CheckPlanOf(RemoveBlock, name, f);
      plan.Settled? && plan.o.result.Ok? && Allowed(plan.o.fields, name) == Ok(true)
  {
  }

  /** What `WaiveFineAction.check` returns as written: the record after a
      backend check, but `None` (it falls off the end) after refusing a
      non-positive amount. */
  function WaiveCheckReturnAsWritten(name: string, f: Dict, ans: Result<Json>): Result<Json>
  {
    match CheckPlanOf(Waive, name, f)
    case Settled(o) =>
      if o.result.Err? then Err(o.result.error)
      else if AtMostZero(WithSlot(f, name)["amount"]) == Ok(true) then Ok(JNull)
      else Ok(JObj(o.fields))
    case Ask(f1, _) =>
      var o := AfterAnswer(name, f1, ans);
      if o.result.Err? then Err(o.result.error) else Ok(JObj(o.fields))
  }

  /** The driver's `fine[name]["check"]["allowed"]` on the value `check`
      returned. */
  function VerdictOf(returned: Json, name: string): Result<bool>
  {
    var slot :- Subscript(returned, JStr(name));
    var check :- Subscript(slot, JStr("check"));
    var allowed :- Subscript(check, JStr("allowed"));
    Ok(Truthy(allowed))
  }

  /** As written, a waive of a zero amount makes the driver subscript
      `None`: a TypeError that stops the run. Returning the record, the
      driver reads the refusal. */
  lemma WaiveNonPositiveStopsDriver(name: string)
    requires name != "amount"
    ensures var f := map["amount" := JNum(0)];
      WaiveCheckReturnAsWritten(name, f, Err(RequestError)) == Ok(JNull) &&
      VerdictOf(JNull, name) == Err(TypeError) &&
      CheckPlanOf(Waive, name, f).Settled? &&
      VerdictOf(JObj(CheckPlanOf(Waive, name, f).o.fields), name) == Ok(false)
  {
  }

  // ---------------------------------------------------------------------
  // execute

  /** The payment body of the money actions. */
  function PaymentBody(f: Dict, conf: Dict): Result<Json>
  {
    var amount :- Lookup(f, "amount");
    var comments :- Lookup(conf, "comments");
    var userName :- Lookup(conf, "user_name");
    var servicePoint :- Lookup(conf, "service_point_id");
    var paymentMethod :- Lookup(conf, "payment_method");
    Ok(JObj(map["amount" := amount, "notifyPatron" := JBool(false), "comments" := comments,
                "userName" := userName, "servicePointId" := servicePoint, "paymentMethod" := paymentMethod]))
  }

  /** `f"/accounts/{fine['id']}/{verb}"` */
  function AccountUrl(f: Dict, verb: string): Result<string>
  {
    var id :- Lookup(f, "id");
    var s :- Str(id);
    Ok("/accounts/" + s + "/" + verb)
  }

  function SuccessMessage(k: Kind): string
  {
    match k
    case Pay => "Pay processed successfully"
    case Transfer => "Transfer processed successfully"
    case Refund => "Refund processed successfully"
    case Waive => "waive processed successfully"
    case _ => "Block processed successfully"
  }

  function SkipMessage(k: Kind): string
  {
    if k.Waive? then "waive NOT PROCESSED" else "TRANSFER NOT PROCESSED"
  }

  /** The success marker of an active action. */
  function Processed(message: string): Json
  {
    JObj(map["message" := JStr(message)])
  }

  /** The audit marker of an inactive action: the request it would send. */
  function NotProcessed(message: string, url: string, body: Json): Json
  {
    JObj(map["status" := JStr("NOT PROCESSED"), "message" := JStr(message), "url" := JStr(url), "body" := body])
  }

  /** `staff_info += text`: string concatenation, or extending a list by
      the text's characters. */
  function AppendText(v: Json, text: string): (r: Result<Json>)
    ensures v.JStr? ==> r == Ok(JStr(v.s + text))
  {
    match v
    case JStr(s) => Ok(JStr(s + text))
    case JList(xs) => Ok(JList(xs + seq(|text|, i requires 0 <= i < |text| => JStr([text[i]]))))
    case _ => Err(TypeError)
  }

  /** The staff note of a block, tagged with the record's id. */
  function StaffInformation(note: Json, id: string): Result<Json>
  {
    AppendText(note, "\nsystemID: " + id)
  }

  /** The manual block the block action would create for a record;
      `expire` is the expiry date text, 16 days ahead. */
  function BlockBody(conf: Dict, f: Dict, expire: string): Result<Json>
  {
    var id :- Lookup(f, "id");
    var idText :- Str(id);
    var staff :- StaffInformation(Get(conf, "staff_note", JStr("")), idText);
    var patron :- Lookup(f, "patron");
    var userId :- Subscript(patron, JStr("id"));
    Ok(JObj(map[
      "desc" := Get(conf, "description", JStr("Automated block VIA the transfer system")),
      "patronMessage" := Get(conf, "user_note", JStr("")),
      "borrowing" := JBool(Truthy(Get(conf, "block_borrowing", JBool(false)))),
      "renewals" := JBool(Truthy(Get(conf, "block_renewals", JBool(false)))),
      "requests" := JBool(Truthy(Get(conf, "block_requests", JBool(false)))),
      "expirationDate" := JStr(expire),
      "userId" := userId,
      "staffInformation" := staff,
      "type" := JStr("Manual")]))
  }

  /** `execute(fine)` of every action but the block removal. None of them
      calls the backend: an active action writes its success marker, an
      inactive one the audit marker. */
  function ExecuteSpec(kind: Kind, conf: Dict, name: string, active: bool, expire: string, f: Dict): Outcome
  {
    if kind.Block? then
      if "id" !in f then Outcome(f, Err(KeyError))
      else
        var f1 := WithSlot(f, name);
        match BlockBody(conf, f1, expire)
        case Err(e) => Outcome(f1, Err(e))
        case Ok(body) =>
          Write(f1, name, "process",
            if active then Processed("Block processed successfully")
            else NotProcessed("TRANSFER NOT PROCESSED", "/manualblocks", body))
    else
      var f1 := WithSlot(f, name);
      match PaymentBody(f1, conf)
      case Err(e) => Outcome(f1, Err(e))
      case Ok(body) =>
        match AccountUrl(f1, Verb(kind))
        case Err(e) => Outcome(f1, Err(e))
        case Ok(url) =>
          Write(f1, name, "process",
            if active then Processed(SuccessMessage(kind)) else NotProcessed(SkipMessage(kind), url, body))
  }

  /** An inactive money action records exactly the request it would send:
      the account's `<verb>` URL and the six-field payment body. */
  lemma InactiveRecordsRequest(kind: Kind, conf: Dict, name: string, expire: string, f: Dict, id: string)
    requires IsMoney(kind) && name != "amount" && name != "id" && (name in f ==> f[name].JObj?)
    requires "amount" in f && "id" in f && f["id"] == JStr(id)
    requires "comments" in conf && "user_name" in conf && "service_point_id" in conf && "payment_method" in conf
    ensures var o := ExecuteSpec(kind, conf, name, false, expire, f);
      o.result.Ok? &&
      Entry(o.fields, name, "process") == Some(NotProcessed(SkipMessage(kind), "/accounts/" + id + "/" + Verb(kind),
        JObj(map["amount" := f["amount"], "notifyPatron" := JBool(false), "comments" := conf["comments"],
                 "userName" := conf["user_name"], "servicePointId" := conf["service_point_id"],
                 "paymentMethod" := conf["payment_method"]])))
  {
    var f1 := WithSlot(f, name);
    assert f1["amount"] == f["amount"] && f1["id"] == JStr(id);
    assert AccountUrl(f1, Verb(kind)) == Ok("/accounts/" + id + "/" + Verb(kind));
    assert f1[name].JObj?;
  }

  /** An active action only writes its success marker. */
  lemma ActiveWritesSuccess(kind: Kind, conf: Dict, name: string, expire: string, f: Dict)
    requires !kind.RemoveBlock?
    ensures var o := ExecuteSpec(kind, conf, name, true, expire, f);
      o.result.Ok? ==> Entry(o.fields, name, "process") == Some(Processed(SuccessMessage(kind)))
  {
  }

  /** A block for record X carries "systemID: X" in its staff note and the
      type "Manual", which is what the block removal for X looks for. */
  lemma BlockBodyIsRemovable(conf: Dict, f: Dict, expire: string, id: string)
    requires "id" in f && f["id"] == JStr(id)
    requires "staff_note" in conf ==> conf["staff_note"].JStr?
    requires BlockBody(conf, f, expire).Ok?
    ensures MatchBlock(f, BlockBody(conf, f, expire).value) == Ok(true)
  {
    var note := Get(conf, "staff_note", JStr("")).s;
    var staff := note + ("\nsystemID: " + id);
    assert StaffInformation(Get(conf, "staff_note", JStr("")), id) == Ok(JStr(staff));
    var body := BlockBody(conf, f, expire).value;
    assert body.JObj? && "type" in body.fields && body.fields["type"] == JStr("Manual");
    assert "staffInformation" in body.fields && body.fields["staffInformation"] == JStr(staff);
    AppendAssociative(note, "\nsystemID: ", id);
    SubstringOfSuffix(id, note + "\nsystemID: ", []);
    assert note + "\nsystemID: " + id + [] == note + "\nsystemID: " + id;
    TaggedBlockMatches(f, body, id);
  }

  /** A manual block whose staff note contains the record's id matches. */
  lemma TaggedBlockMatches(f: Dict, block: Json, id: string)
    requires "id" in f && f["id"] == JStr(id)
    requires block.JObj? && "type" in block.fields && block.fields["type"] == JStr("Manual")
    requires "staffInformation" in block.fields && block.fields["staffInformation"].JStr?
    requires IsSubstring(id, block.fields["staffInformation"].s)
    ensures MatchBlock(f, block) == Ok(true)
  {
  }

  // ---------------------------------------------------------------------
  // RemoveBlockPatronAction.execute

  /** A fetched block is removed when it is a manual block whose staff
      note contains the record's id. */
  function MatchBlock(f: Dict, block: Json): Result<bool>
  {
    var t :- Subscript(block, JStr("type"));
    if !PyEq(t, JStr("Manual")) then Ok(false)
    else
      var id :- Lookup(f, "id");
      var info :- Subscript(block, JStr("staffInformation"));
      In(id, info)
  }

  /** The record's note of a deleted block. */
  function Deletion(blockId: Json, block: Json): Json
  {
    JObj(map["status" := JStr("DELETED"), "message" := JStr("Block deleted successfully"),
             "block_id" := blockId, "block_data" := block])
  }

  /** What an action method (or part of one) leaves: the record, the
      result and the client's log of the requests that reached the backend.
      The number of calls made so far is the length of that log. */
  datatype Effect = Effect(fields: Dict, result: Result<Unit>, log: seq<Request>)

  /** One iteration of the removal loop on `block`: an error stops the
      loop; otherwise the loop goes on with `fields`. */
  function RemovalStep(c: Client, name: string, f: Dict, block: Json, log: seq<Request>): (o: Effect)
    ensures o.result.Err? ==> o.fields == f
  {
    match MatchBlock(f, block)
    case Err(e) => Effect(f, Err(e), log)
    case Ok(hit) =>
      if !hit then Effect(f, Ok(Unit), log)
      else match Subscript(block, JStr("id"))
        case Err(e) => Effect(f, Err(e), log)
        case Ok(bid) =>
          match Str(bid)
          case Err(e) => Effect(f, Err(e), log)
          case Ok(bidText) =>
            var req := HttpDelete("/manualblocks/" + bidText);
            match c.Answer(|log|, req)
            case Err(e) => Effect(f, Err(e), log + c.Sent(req))
            case Ok(_) =>
              var w := Write(f, name, "delete", Deletion(bid, block));
              Effect(w.fields, w.result, log + c.Sent(req))
  }

  /** The removal loop from `blocks[0]` on. */
  function RemovalFrom(c: Client, name: string, f: Dict, blocks: seq<Json>, log: seq<Request>): Effect
    decreases |blocks|
  {
    if blocks == [] then Effect(f, Ok(Unit), log)
    else
      var s := RemovalStep(c, name, f, blocks[0], log);
      if s.result.Err? then s else RemovalFrom(c, name, s.fields, blocks[1..], s.log)
  }

  /** `RemoveBlockPatronAction.execute(fine)`: fetch all manual blocks,
      then remove the matching ones. It is not gated by the flag. */
  function RemovalSpec(c: Client, name: string, f: Dict, log: seq<Request>): Effect
  {
    var req := HttpGet("/manualblocks");
    match c.Answer(|log|, req)
    case Err(e) => Effect(f, Err(e), log + [req])
    case Ok(all) =>
      match KeyedElements(all)
      case Err(e) => Effect(f, Err(e), log + [req])
      case Ok(blocks) => RemovalFrom(c, name, f, blocks, log + [req])
  }

  /** `check(fine)` with `log` the client's log before it. */
  function CheckEffect(kind: Kind, name: string, c: Client, f: Dict, log: seq<Request>): Effect
  {
    match CheckPlanOf(kind, name, f)
    case Settled(o) => Effect(o.fields, o.result, log)
    case Ask(f1, req) =>
      var o := AfterAnswer(name, f1, c.Answer(|log|, req));
      Effect(o.fields, o.result, log + c.Sent(req))
  }

  /** `execute(fine)` with `log` the client's log before it. */
  function ExecuteEffect(kind: Kind, conf: Dict, name: string, active: bool, c: Client, expire: string, f: Dict, log: seq<Request>): Effect
  {
    if kind.RemoveBlock? then RemovalSpec(c, name, f, log)
    else
      var o := ExecuteSpec(kind, conf, name, active, expire, f);
      Effect(o.fields, o.result, log)
  }

  /** The blocks of `blocks` that match the record, in order. */
  function Matching(f: Dict, blocks: seq<Json>): (ms: seq<Json>)
    ensures AllWellFormed(blocks) ==> AllWellFormed(ms)
  {
    if blocks == [] then []
    else (if MatchBlock(f, blocks[0]) == Ok(true) then [blocks[0]] else []) + Matching(f, blocks[1..])
  }

  /** A block the loop can read: a dict with string `type`,
      `staffInformation` and `id`. */
  predicate WellFormedBlock(b: Json)
  {
    b.JObj? && "type" in b.fields && "staffInformation" in b.fields && "id" in b.fields &&
    b.fields["type"].JStr? && b.fields["staffInformation"].JStr? && b.fields["id"].JStr?
  }

  predicate AllWellFormed(bs: seq<Json>)
  {
    forall i :: 0 <= i < |bs| ==> WellFormedBlock(bs[i])
  }

  /** The deletions of the blocks `bs`, in order. */
  function Deletes(bs: seq<Json>): seq<Request>
    requires AllWellFormed(bs)
  {
    if bs == [] then [] else [HttpDelete("/manualblocks/" + bs[0].fields["id"].s)] + Deletes(bs[1..])
  }

  /** The removal from `blocks` on succeeds, sends exactly the deletions
      of the matching blocks, in order, keeps the record's id and the
      action's sub-dict, and leaves in its "delete" entry the note of the
      last matching block (or the entry it had, when none matches). */
  ghost predicate RemovesMatching(c: Client, name: string, f: Dict, blocks: seq<Json>, log: seq<Request>)
    requires AllWellFormed(blocks)
  {
    var o := RemovalFrom(c, name, f, blocks, log);
    var ms := Matching(f, blocks);
    o.result.Ok? && o.log == log + Deletes(ms) &&
    "id" in o.fields && "id" in f && o.fields["id"] == f["id"] && name in o.fields && o.fields[name].JObj? &&
    Entry(o.fields, name, "delete") ==
      (if ms == [] then Entry(f, name, "delete")
       else Some(Deletion(ms[|ms| - 1].fields["id"], ms[|ms| - 1])))
  }

  /** The record's side of a removal: the id the blocks are matched
      against, and the action's sub-dict the notes go into. */
  predicate Removable(f: Dict, name: string)
  {
    "id" in f && f["id"].JStr? && name != "id" && name in f && f[name].JObj?
  }

  /** With a client that can delete and a backend that accepts every
      deletion, exactly the matching blocks are deleted, in order, and the
      record's "delete" entry describes the last of them. */
  lemma {:induction false} RemovalDeletesMatching(c: Client, name: string, f: Dict, blocks: seq<Json>, log: seq<Request>)
    requires c.hasDelete && forall m: nat, r :: m >= |log| ==> c.respond(m, r).Ok?
    requires AllWellFormed(blocks) && Removable(f, name)
    ensures RemovesMatching(c, name, f, blocks, log)
    decreases |blocks|
  {
    if blocks == [] {
      assert log + Deletes([]) == log;
    } else {
      var b := blocks[0];
      assert WellFormedBlock(b);
      if MatchBlock(f, b) == Ok(true) {
        assert c.respond(|log|, HttpDelete("/manualblocks/" + b.fields["id"].s)).Ok?;
        RemovalStepDeletes(c, name, f, b, log);
        var s := RemovalStep(c, name, f, b, log);
        RemovalDeletesMatching(c, name, s.fields, blocks[1..], s.log);
        RemovesMatchingHit(c, name, f, blocks, log);
      } else {
        RemovalStepSkips(c, name, f, b, log);
        RemovalDeletesMatching(c, name, f, blocks[1..], log);
        RemovesMatchingMiss(c, name, f, blocks, log);
      }
    }
  }

  /** The step of the induction for a matching first block. */
  lemma RemovesMatchingHit(c: Client, name: string, f: Dict, blocks: seq<Json>, log: seq<Request>)
    requires AllWellFormed(blocks) && blocks != [] && Removable(f, name) && MatchBlock(f, blocks[0]) == Ok(true)
    requires var d := HttpDelete("/manualblocks/" + blocks[0].fields["id"].s);
      var s := RemovalStep(c, name, f, blocks[0], log);
      s.result.Ok? && s.log == log + [d] && "id" in s.fields && s.fields["id"] == f["id"] &&
      Entry(s.fields, name, "delete") == Some(Deletion(blocks[0].fields["id"], blocks[0])) &&
      RemovesMatching(c, name, s.fields, blocks[1..], s.log)
    ensures RemovesMatching(c, name, f, blocks, log)
  {
    var b := blocks[0];
    var d := HttpDelete("/manualblocks/" + b.fields["id"].s);
    var s := RemovalStep(c, name, f, b, log);
    var rest := Matching(f, blocks[1..]);
    MatchingSameId(f, s.fields, blocks[1..]);
    assert Matching(f, blocks) == [b] + rest;
    assert Deletes([b] + rest) == [d] + Deletes(rest);
    AppendAssociative(log, [d], Deletes(rest));
  }

  /** The step of the induction for a first block that does not match. */
  lemma RemovesMatchingMiss(c: Client, name: string, f: Dict, blocks: seq<Json>, log: seq<Request>)
    requires AllWellFormed(blocks) && blocks != [] && MatchBlock(f, blocks[0]) == Ok(false)
    requires RemovalStep(c, name, f, blocks[0], log) == Effect(f, Ok(Unit), log)
    requires RemovesMatching(c, name, f, blocks[1..], log)
    ensures RemovesMatching(c, name, f, blocks, log)
  {
    assert Matching(f, blocks) == Matching(f, blocks[1..]);
  }

  lemma AppendAssociative<T>(a: seq<T>, b: seq<T>, c: seq<T>)
    ensures a + b + c == a + (b + c)
  {
  }

  /** A matching block is deleted and noted in the record. */
  lemma RemovalStepDeletes(c: Client, name: string, f: Dict, b: Json, log: seq<Request>)
    requires WellFormedBlock(b) && MatchBlock(f, b) == Ok(true)
    requires c.hasDelete && c.respond(|log|, HttpDelete("/manualblocks/" + b.fields["id"].s)).Ok?
    requires Removable(f, name)
    ensures var s := RemovalStep(c, name, f, b, log);
      s.result.Ok? && s.log == log + [HttpDelete("/manualblocks/" + b.fields["id"].s)] &&
      Removable(s.fields, name) && s.fields["id"] == f["id"] &&
      Entry(s.fields, name, "delete") == Some(Deletion(b.fields["id"], b))
  {
  }

  /** A block that does not match is left alone. */
  lemma RemovalStepSkips(c: Client, name: string, f: Dict, b: Json, log: seq<Request>)
    requires MatchBlock(f, b) == Ok(false)
    ensures RemovalStep(c, name, f, b, log) == Effect(f, Ok(Unit), log)
  {
  }

  /** Matching depends on the record's id only. */
  lemma {:induction false} MatchingSameId(f: Dict, g: Dict, blocks: seq<Json>)
    requires "id" in f && "id" in g && f["id"] == g["id"]
    ensures Matching(f, blocks) == Matching(g, blocks)
    decreases |blocks|
  {
    if blocks != [] {
      MatchingSameId(f, g, blocks[1..]);
    }
  }

  /** With the client of this repository, which has no `delete_request`,
      the first matching block stops the loop with an AttributeError
      before any deletion reaches the backend. */
  lemma RemovalWithoutDelete(c: Client, name: string, f: Dict, blocks: seq<Json>, log: seq<Request>)
    requires !c.hasDelete && blocks != [] && WellFormedBlock(blocks[0]) && MatchBlock(f, blocks[0]) == Ok(true)
    ensures RemovalFrom(c, name, f, blocks, log) == Effect(f, Err(AttributeError), log)
  {
  }

  // ---------------------------------------------------------------------
  // The action objects

  /** What an action is built from and keeps for its whole life: its
      class, its configuration, the key it writes under, whether it is
      active and the backend client. */
  datatype ActionSetup = ActionSetup(kind: Kind, conf: Dict, name: string, active: bool, client: Client)

  /** The action `connector_class(conf, connector, trans_active)` builds:
      a KeyError without a `name`; a name that is not a string is outside
      the model. */
  function Configure(kind: Kind, conf: Dict, client: Client, transActive: Json): (r: Result<ActionSetup>)
    ensures "name" !in conf ==> r == Err(KeyError)
    ensures r.Ok? ==> r.value.kind == kind && r.value.conf == conf && r.value.client == client
  {
    var nameValue :- Lookup(conf, "name");
    if !nameValue.JStr? then Err(Unmodelled)
    else Ok(ActionSetup(kind, conf, nameValue.s, Active(conf, transActive), client))
  }

  class Action {
    const kind: Kind
    const conf: Dict
    /** `conf["name"]`: the key the action writes under in each record. */
    const name: string
    /** The activation flag fixed at construction. */
    const active: bool
    const client: Client

    constructor (kind: Kind, conf: Dict, name: string, active: bool, client: Client)
      ensures this.kind == kind && this.conf == conf && this.name == name
      ensures this.active == active && this.client == client
    {
      this.kind := kind;
      this.conf := conf;
      this.name := name;
      this.active := active;
      this.client := client;
    }

    /** What the action was built from. */
    function Setup(): ActionSetup
    {
      ActionSetup(kind, conf, name, active, client)
    }

    /** `if self.__conf["name"] not in fine: fine[self.__conf["name"]] = {}` */
    method MakeSlot(fine: Record)
      modifies fine
      ensures fine.fields == WithSlot(old(fine.fields), name)
    {
      if name !in fine.fields {
        fine.fields := fine.fields[name := JObj(map[])];
      }
    }

    /** `fine[self.__conf["name"]][key] = v` */
    method Put(fine: Record, key: string, v: Json) returns (r: Result<Unit>)
      modifies fine
      ensures var o := Write(old(fine.fields), name, key, v);
        fine.fields == o.fields && r == o.result
    {
      if name !in fine.fields {
        return Err(KeyError);
      }
      var slot := fine.fields[name];
      if !slot.JObj? {
        return Err(TypeError);
      }
      fine.fields := fine.fields[name := JObj(slot.fields[key := v])];
      return Ok(Unit);
    }

    /** `check(fine)` */
    method Check(fine: Record) returns (r: Result<Unit>)
      requires client.Valid()
      modifies fine, client
      ensures client.Valid()
      ensures var e := CheckEffect(kind, name, client, old(fine.fields), old(client.log));
        fine.fields == e.fields && r == e.result && client.log == e.log
    {
      if kind.Block? {
        if "id" !in fine.fields {
          return Err(KeyError);
        }
        MakeSlot(fine);
        r := Put(fine, "check", Allowance("Block action allowed"));
        return;
      }
      if kind.RemoveBlock? {
        MakeSlot(fine);
        r := Put(fine, "check", Allowance("Block removal action allowed"));
        return;
      }
      MakeSlot(fine);
      if "amount" !in fine.fields {
        return Err(KeyError);
      }
      var amount := fine.fields["amount"];
      var nonPositive :- AtMostZero(amount);
      if nonPositive {
        r := Put(fine, "check", Refusal(kind));
        return;
      }
      if "id" !in fine.fields {
        return Err(KeyError);
      }
      var id :- Str(fine.fields["id"]);
      var response := client.Send(CheckRequest(kind, id, amount));
      var resp :- response;
      r := Put(fine, "check", resp);
      if r.Err? {
        return;
      }
      var allowed :- Subscript(resp, JStr("allowed"));
    }

    /** `execute(fine)`; `expire` is the block expiry date text. */
    method Execute(fine: Record, expire: string) returns (r: Result<Unit>)
      requires client.Valid()
      modifies fine, client
      ensures client.Valid()
      ensures var e := ExecuteEffect(kind, conf, name, active, client, expire, old(fine.fields), old(client.log));
        fine.fields == e.fields && r == e.result && client.log == e.log
    {
      if kind.RemoveBlock? {
        r := RemoveBlocks(fine);
        return;
      }
      if kind.Block? {
        if "id" !in fine.fields {
          return Err(KeyError);
        }
        MakeSlot(fine);
        var body :- BlockBody(conf, fine.fields, expire);
        if active {
          r := Put(fine, "process", Processed("Block processed successfully"));
        } else {
          r := Put(fine, "process", NotProcessed("TRANSFER NOT PROCESSED", "/manualblocks", body));
        }
        return;
      }
      MakeSlot(fine);
      var body :- PaymentBody(fine.fields, conf);
      var url :- AccountUrl(fine.fields, Verb(kind));
      if active {
        r := Put(fine, "process", Processed(SuccessMessage(kind)));
      } else {
        r := Put(fine, "process", NotProcessed(SkipMessage(kind), url, body));
      }
    }

    /** One iteration of the block removal's loop. */
    method RemoveOne(fine: Record, block: Json) returns (r: Result<Unit>)
      requires client.Valid()
      modifies fine, client
      ensures client.Valid()
      ensures var s := RemovalStep(client, name, old(fine.fields), block, old(client.log));
        fine.fields == s.fields && r == s.result && client.log == s.log
    {
      var hit :- MatchBlock(fine.fields, block);
      if hit {
        var bid :- Subscript(block, JStr("id"));
        var bidText :- Str(bid);
        var deleted :- client.Send(HttpDelete("/manualblocks/" + bidText));
        r := Put(fine, "delete", Deletion(bid, block));
      } else {
        r := Ok(Unit);
      }
    }

    /** `RemoveBlockPatronAction.execute(fine)`. */
    method RemoveBlocks(fine: Record) returns (r: Result<Unit>)
      requires client.Valid()
      modifies fine, client
      ensures client.Valid()
      ensures var o := RemovalSpec(client, name, old(fine.fields), old(client.log));
        fine.fields == o.fields && r == o.result && client.log == o.log
    {
      var all :- client.Send(HttpGet("/manualblocks"));
      var blocks :- KeyedElements(all);
      r := RemoveEach(fine, blocks);
    }

    /** The block removal's loop over the fetched blocks. */
    method RemoveEach(fine: Record, blocks: seq<Json>) returns (r: Result<Unit>)
      requires client.Valid()
      modifies fine, client
      ensures client.Valid()
      ensures var o := RemovalFrom(client, name, old(fine.fields), blocks, old(client.log));
        fine.fields == o.fields && r == o.result && client.log == o.log
    {
      ghost var whole := RemovalFrom(client, name, fine.fields, blocks, client.log);
      var i := 0;
      while i < |blocks|
        invariant 0 <= i <= |blocks|
        invariant client.Valid()
        invariant whole == RemovalFrom(client, name, fine.fields, blocks[i..], client.log)
      {
        assert blocks[i..][0] == blocks[i] && blocks[i..][1..] == blocks[i + 1..];
        r := RemoveOne(fine, blocks[i]);
        if r.Err? {
          return;
        }
        i := i + 1;
      }
      return Ok(Unit);
    }

    /** `undo()`: nothing to revert yet. */
    method Undo() returns (r: bool)
      ensures r
    {
      return true;
    }
  }

  /** `connector_class(conf, connector, trans_active)`: a KeyError without
      a `name`, otherwise a new action holding what `Configure` builds. */
  method NewAction(kind: Kind, conf: Dict, client: Client, transActive: Json) returns (r: Result<Action>)
    ensures r.Err? <==> "name" !in conf || !conf["name"].JStr?
    ensures match Configure(kind, conf, client, transActive)
      case Err(e) => r == Err(e)
      case Ok(s) => r.Ok? && fresh(r.value) && r.value.Setup() == s
  {
    var nameValue :- Lookup(conf, "name");
    if !nameValue.JStr? {
      return Err(Unmodelled);
    }
    var a := new Action(kind, conf, nameValue.s, Active(conf, transActive), client);
    return Ok(a);
  }
}
