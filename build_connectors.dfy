/** `SendToConnecter`: for each configured connector, the data of the run
    is mapped (through a template or inline, field by field) and shipped
    to the connector class the configuration names, with one of the
    actions CREATE, UPDATE or DELETE. The connector classes themselves
    (AirTable, SharePoint) are remote services and are not modelled: a
    shipment is recorded in `Sender.shipped` when the connector method
    would be called. Today's date reaches the model only through
    `formatToday`, the result of `date.today().strftime(format)`. */
module BuildConnectors {
  import opened Wrappers
  import opened PyStrings
  import opened PyJson
  import opened CommonHelpers
  import opened TemplateProcessor

  // ---------------------------------------------------------------------
  // Loading the connector class

  /** The connector classes of `src/connectors`. */
  datatype Target = AirTable | SharePoint

  /** The name each class is declared with. */
  function ClassName(t: Target): string
  {
    match t
    case AirTable => "AirTableConnector"
    case SharePoint => "SharePointConnection"
  }

  /** The module (file) each class is declared in. */
  function ModuleFile(t: Target): string
  {
    match t
    case AirTable => "air_table_connector"
    case SharePoint => "share_point_connector"
  }

  /** The class `__ship_package` loads for a `connector_type`, as written:
      the module `src.connectors.<pascal_to_camel_case(type)>` must exist
      and must define a class named `type` itself. */
  function TargetImported(connectorType: string): (r: Option<Target>)
    ensures r.Some? ==> connectorType == ClassName(r.value) && PascalToSnake(connectorType) == ModuleFile(r.value)
    ensures r.None? ==> forall t :: !(connectorType == ClassName(t) && PascalToSnake(connectorType) == ModuleFile(t))
  {
    if connectorType == ClassName(AirTable) && PascalToSnake(connectorType) == ModuleFile(AirTable) then Some(AirTable)
    else if connectorType == ClassName(SharePoint) && PascalToSnake(connectorType) == ModuleFile(SharePoint) then Some(SharePoint)
    else None
  }

  /** The last character of a `MarkCapitals` text is the text's own last
      character. */
  lemma {:induction false} MarkCapitalsLast(t: string)
    requires t != []
    ensures MarkCapitals(t) != [] && MarkCapitals(t)[|MarkCapitals(t)| - 1] == t[|t| - 1]
    decreases |t|
  {
    var head := if IsUpperAscii(t[0]) then "_" + [t[0]] else [t[0]];
    assert MarkCapitals(t) == head + MarkCapitals(t[1..]);
    if |t| > 1 {
      MarkCapitalsLast(t[1..]);
    }
  }

  /** The module name derived from a class name ends with the class name's
      last character, lower-cased. */
  lemma PascalToSnakeLast(s: string)
    requires s != []
    ensures PascalToSnake(s) != [] && PascalToSnake(s)[|PascalToSnake(s)| - 1] == LowerChar(s[|s| - 1])
  {
    var u := [s[0]] + MarkCapitals(s[1..]);
    if |s| > 1 {
      MarkCapitalsLast(s[1..]);
    }
    assert u[|u| - 1] == s[|s| - 1];
  }

  /** As written, no `connector_type` loads the SharePoint class: its name
      ends in `n`, so the module derived from it ends in `n`, while its
      module `share_point_connector` ends in `r`. */
  lemma SharePointNeverImported(connectorType: string)
    ensures TargetImported(connectorType) != Some(SharePoint)
  {
    if connectorType == ClassName(SharePoint) {
      PascalToSnakeLast(connectorType);
      assert ModuleFile(SharePoint)[|ModuleFile(SharePoint)| - 1] == 'r';
    }
  }

  /** The class a `connector_type` names, as the loader is evidently meant
      to work: every connector class is found under its own name. */
  function TargetNamed(connectorType: string): (r: Option<Target>)
    ensures r.Some? ==> connectorType == ClassName(r.value)
    ensures r.None? ==> forall t :: connectorType != ClassName(t)
  {
    if connectorType == ClassName(AirTable) then Some(AirTable)
    else if connectorType == ClassName(SharePoint) then Some(SharePoint)
    else None
  }

  lemma TargetNamedClassName(t: Target)
    ensures TargetNamed(ClassName(t)) == Some(t)
  {
  }

  // ---------------------------------------------------------------------
  // Shipping

  /** The three connector actions. */
  datatype Op = Create | Update | Delete

  function OpName(op: Op): string
  {
    match op
    case Create => "CREATE"
    case Update => "UPDATE"
    case Delete => "DELETE"
  }

  /** The action an upper-cased `connector_action` selects, if any. */
  function OpNamed(name: string): (r: Option<Op>)
    ensures r.Some? ==> OpName(r.value) == name
    ensures r.None? ==> forall op :: OpName(op) != name
  {
    if name == OpName(Create) then Some(Create)
    else if name == OpName(Update) then Some(Update)
    else if name == OpName(Delete) then Some(Delete)
    else None
  }

  /** What a connector is given: the output of a template, or the rows of
      an inline mapping. */
  datatype Payload = Text(out: Output) | Rows(rows: seq<Dict>)

  /** One call of a connector method: the class, the `env_key` it was built
      with, the action, the `filter_filed` setting UPDATE and DELETE pass as
      `filter_string`, and the data. */
  datatype Shipment = Shipment(target: Target, envKey: Json, op: Op, filter: Option<Json>, payload: Payload)

  /** `__ship_package(conf, data)`: the class is loaded first (a missing
      `connector_type` is a KeyError, a non-string one fails in the name
      conversion, an unknown one is a ValueError), then built with
      `env_key`, then the action is chosen (ValueError outside CREATE,
      UPDATE and DELETE, in any case); UPDATE and DELETE read
      `filter_filed` when they are called. */
  function ShipmentFor(conf: Dict, payload: Payload): (r: Result<Shipment>)
    ensures r.Ok? ==>
      && "connector_type" in conf && conf["connector_type"] == JStr(ClassName(r.value.target))
      && "env_key" in conf && r.value.envKey == conf["env_key"]
      && "connector_action" in conf && conf["connector_action"].JStr?
      && Upper(conf["connector_action"].s) == OpName(r.value.op)
      && (r.value.op == Create <==> r.value.filter.None?)
      && (r.value.filter.Some? ==> "filter_filed" in conf && r.value.filter.value == conf["filter_filed"])
      && r.value.payload == payload
    ensures "connector_type" in conf && conf["connector_type"].JStr? && TargetNamed(conf["connector_type"].s).None? ==>
      r == Err(ValueError)
    ensures ("connector_action" in conf && conf["connector_action"].JStr? &&
             OpNamed(Upper(conf["connector_action"].s)).None?) ==> r.Err?
  {
    var typeValue :- Lookup(conf, "connector_type");
    var connectorType :- if typeValue.JStr? then Ok(typeValue.s) else Err(TypeError);
    var target :- match TargetNamed(connectorType) case Some(t) => Ok(t) case None => Err(ValueError);
    var envKey :- Lookup(conf, "env_key");
    var actionValue :- Lookup(conf, "connector_action");
    var action :- AsStr(actionValue);
    var op :- match OpNamed(Upper(action)) case Some(o) => Ok(o) case None => Err(ValueError);
    var filter :- if op == Create then Ok(None) else (var f :- Lookup(conf, "filter_filed"); Ok(Some(f)));
    Ok(Shipment(target, envKey, op, filter, payload))
  }

  // ---------------------------------------------------------------------
  // Extracting a value by dot path

  /** The value at `keys` through nested dicts; `None` as soon as a key is
      missing or the value reached is not a dict. */
  function ExtractPath(keys: seq<string>, data: Json): Json
    decreases |keys|
  {
    if keys == [] then data
    else if data.JObj? && keys[0] in data.fields then ExtractPath(keys[1..], data.fields[keys[0]])
    else JNull
  }

  /** `__extract_data(key_path, data)`: the value at the dot-separated
      path; a path that is not a string has no `split`. */
  function ExtractData(keyPath: Json, data: Json): (r: Result<Json>)
    ensures r.Ok? <==> keyPath.JStr?
    ensures r.Err? ==> r.error == AttributeError
  {
    var path :- AsStr(keyPath);
    Ok(ExtractPath(Split(path, "."), data))
  }

  /** Following a longer path is following its first part, then the rest
      from where the first part ends; a `None` on the way stays `None`. */
  lemma {:induction false} ExtractPathAppend(a: seq<string>, b: seq<string>, data: Json)
    ensures ExtractPath(a + b, data) == ExtractPath(b, ExtractPath(a, data))
    decreases |a|
  {
    if a == [] {
      assert a + b == b;
    } else {
      assert (a + b)[0] == a[0] && (a + b)[1..] == a[1..] + b;
      if data.JObj? && a[0] in data.fields {
        ExtractPathAppend(a[1..], b, data.fields[a[0]]);
      } else if b != [] {
        assert ExtractPath(b, JNull) == JNull;
      }
    }
  }

  /** Where the nested dict get of the common helpers answers, the dot
      path extraction gives the same value. */
  lemma {:induction false} ExtractAgreesWithNestedGet(keys: seq<string>, data: Json)
    requires GetNestedDictValue(data, StrKeys(keys)).Ok?
    ensures ExtractPath(keys, data) == GetNestedDictValue(data, StrKeys(keys)).value
    decreases |keys|
  {
    if keys != [] {
      var m := data.fields;
      assert StrKeys(keys)[0] == JStr(keys[0]) && StrKeys(keys)[1..] == StrKeys(keys[1..]);
      if keys[0] in m && m[keys[0]] != JNull {
        ExtractAgreesWithNestedGet(keys[1..], m[keys[0]]);
      } else if keys[0] in m && keys[1..] != [] {
        assert ExtractPath(keys[1..], JNull) == JNull;
      }
    }
  }

  /** A two-segment path `a.b` is the key `a`, then the key `b`. */
  lemma ExtractDottedPath(a: string, b: string, data: Json)
    requires '.' !in a && '.' !in b
    ensures ExtractData(JStr(a + "." + b), data) == Ok(ExtractPath([b], ExtractPath([a], data)))
  {
    SplitPastPlainPrefix(a, b);
    ExtractPathAppend([a], [b], data);
    assert [a] + [b] == [a, b];
  }

  // ---------------------------------------------------------------------
  // Inline mapping

  /** What one `field_mapping` pattern does to a row: set a field, or
      nothing (an unknown `field_type`). */
  datatype Entry = Skip | Put(name: string, value: Json)

  /** A dict key: a string; a list or dict is unhashable, and any other
      key is outside the string-keyed records of this model. */
  function KeyOf(v: Json): (r: Result<string>)
    ensures v.JStr? <==> r.Ok?
    ensures r.Ok? ==> r.value == v.s
  {
    match v
    case JStr(s) => Ok(s)
    case JList(_) => Err(TypeError)
    case JObj(_) => Err(TypeError)
    case _ => Err(Unmodelled)
  }

  /** The body of the inner loop of `__process_inline` for one pattern and
      one data element: DYNAMIC extracts `field_source` from the element,
      STATIC takes `field_format` literally, DATE formats today with
      `field_format`; the value is computed before `field_name` is read. */
  function PatternEntry(p: Json, data: Json, formatToday: string -> string): (r: Result<Entry>)
    ensures r.Ok? ==> Index(p, "field_type").Ok? && Index(p, "field_type").value.JStr?
    ensures r.Ok? && r.value.Put? ==> Index(p, "field_name") == Ok(JStr(r.value.name))
    ensures r.Ok? ==> (r.value.Skip? <==> Upper(Index(p, "field_type").value.s) !in {"DYNAMIC", "STATIC", "DATE"})
    ensures r.Ok? && r.value.Put? && Upper(Index(p, "field_type").value.s) == "DYNAMIC" ==>
      Index(p, "field_source").Ok? && ExtractData(Index(p, "field_source").value, data) == Ok(r.value.value)
    ensures r.Ok? && r.value.Put? && Upper(Index(p, "field_type").value.s) == "STATIC" ==>
      Index(p, "field_format") == Ok(r.value.value)
    ensures r.Ok? && r.value.Put? && Upper(Index(p, "field_type").value.s) == "DATE" ==>
      Index(p, "field_format").Ok? && Index(p, "field_format").value.JStr? &&
      r.value.value == JStr(formatToday(Index(p, "field_format").value.s))
  {
    var typeValue :- Index(p, "field_type");
    var fieldType :- AsStr(typeValue);
    var kind := Upper(fieldType);
    if kind == "DYNAMIC" then
      var source :- Index(p, "field_source");
      var v :- ExtractData(source, data);
      var nameValue :- Index(p, "field_name");
      var name :- KeyOf(nameValue);
      Ok(Put(name, v))
    else if kind == "STATIC" then
      var v :- Index(p, "field_format");
      var nameValue :- Index(p, "field_name");
      var name :- KeyOf(nameValue);
      Ok(Put(name, v))
    else if kind == "DATE" then
      var format :- Index(p, "field_format");
      var text :- if format.JStr? then Ok(formatToday(format.s)) else Err(TypeError);
      var nameValue :- Index(p, "field_name");
      var name :- KeyOf(nameValue);
      Ok(Put(name, JStr(text)))
    else Ok(Skip)
  }

  function Apply(row: Dict, e: Entry): Dict
  {
    if e.Put? then row[e.name := e.value] else row
  }

  /** What each pattern contributes to the row of one data element. */
  type EntryOf = Json -> Result<Entry>

  function EntriesFor(data: Json, formatToday: string -> string): (f: EntryOf)
    ensures forall p :: f(p) == PatternEntry(p, data, formatToday)
  {
    (p: Json) => PatternEntry(p, data, formatToday)
  }

  /** The row the patterns from index `i` on build from `row`, stopping at
      the first pattern that fails. */
  function RowFrom(ps: seq<Json>, entry: EntryOf, i: nat, row: Dict): Result<Dict>
    requires i <= |ps|
    decreases |ps| - i
  {
    if i == |ps| then Ok(row)
    else
      var e :- entry(ps[i]);
      RowFrom(ps, entry, i + 1, Apply(row, e))
  }

  /** Pattern `j` sets the field `k`. */
  predicate PutsKey(ps: seq<Json>, entry: EntryOf, j: int, k: string)
  {
    0 <= j < |ps| && entry(ps[j]).Ok? && entry(ps[j]).value.Put? && entry(ps[j]).value.name == k
  }

  /** Pattern `j` sets `k` and no later pattern does. */
  predicate LastPuts(ps: seq<Json>, entry: EntryOf, j: int, k: string)
  {
    PutsKey(ps, entry, j, k) && forall j' :: j < j' < |ps| ==> !PutsKey(ps, entry, j', k)
  }

  /** A row holds exactly the fields it started with and those some
      pattern sets, each set field with the value of the last pattern that
      sets it. */
  lemma {:induction false} RowFromFields(ps: seq<Json>, entry: EntryOf, i: nat, row: Dict, k: string)
    requires i <= |ps| && RowFrom(ps, entry, i, row).Ok?
    ensures var out := RowFrom(ps, entry, i, row).value;
      && (k in out <==> k in row || exists j :: i <= j < |ps| && PutsKey(ps, entry, j, k))
      && ((forall j :: i <= j < |ps| ==> !PutsKey(ps, entry, j, k)) && k in row ==> out[k] == row[k])
      && (forall j :: i <= j && LastPuts(ps, entry, j, k) ==> out[k] == entry(ps[j]).value.value)
    decreases |ps| - i
  {
    if i < |ps| {
      var e := entry(ps[i]).value;
      RowFromFields(ps, entry, i + 1, Apply(row, e), k);
      if e.Put? && e.name == k {
        assert PutsKey(ps, entry, i, k);
      }
    }
  }

  /** The row a data element maps to: an empty dict filled by every
      pattern in turn. */
  function Row(ps: seq<Json>, data: Json, formatToday: string -> string): Result<Dict>
  {
    RowFrom(ps, EntriesFor(data, formatToday), 0, map[])
  }

  /** Every field of a row comes from some pattern, every pattern that sets
      a field leaves it in the row, and the value is the last such
      pattern's. */
  lemma RowFields(ps: seq<Json>, data: Json, formatToday: string -> string, k: string)
    requires Row(ps, data, formatToday).Ok?
    ensures var entry := EntriesFor(data, formatToday);
      && (k in Row(ps, data, formatToday).value <==> exists j :: PutsKey(ps, entry, j, k))
      && forall j :: LastPuts(ps, entry, j, k) ==>
           Row(ps, data, formatToday).value[k] == PatternEntry(ps[j], data, formatToday).value.value
  {
    RowFromFields(ps, EntriesFor(data, formatToday), 0, map[], k);
  }

  /** The rows of the elements from index `i` on, after `rows`. The
      mapping is looked up and iterated again for every element, so an
      empty data list never reads it. */
  function RowsFrom(items: seq<Json>, conf: Dict, formatToday: string -> string, i: nat, rows: seq<Dict>): Result<seq<Dict>>
    requires i <= |items|
    decreases |items| - i
  {
    if i == |items| then Ok(rows)
    else
      var mapping :- Lookup(conf, "field_mapping");
      var ps :- KeyedElements(mapping);
      var row :- Row(ps, items[i], formatToday);
      RowsFrom(items, conf, formatToday, i + 1, rows + [row])
  }

  /** A successful mapping yields one row per element, in order, each the
      row of that element. */
  lemma {:induction false} RowsFromRows(items: seq<Json>, conf: Dict, formatToday: string -> string, i: nat, rows: seq<Dict>)
    requires i <= |items| && RowsFrom(items, conf, formatToday, i, rows).Ok?
    ensures var out := RowsFrom(items, conf, formatToday, i, rows).value;
      && |out| == |rows| + |items| - i && out[..|rows|] == rows
      && (i < |items| ==> "field_mapping" in conf && KeyedElements(conf["field_mapping"]).Ok?)
      && forall j :: i <= j < |items| ==>
           Row(KeyedElements(conf["field_mapping"]).value, items[j], formatToday) == Ok(out[|rows| + j - i])
    decreases |items| - i
  {
    if i < |items| {
      var ps := KeyedElements(conf["field_mapping"]).value;
      var row := Row(ps, items[i], formatToday).value;
      RowsFromRows(items, conf, formatToday, i + 1, rows + [row]);
      var out := RowsFrom(items, conf, formatToday, i, rows).value;
      assert out[..|rows| + 1][..|rows|] == out[..|rows|];
    }
  }

  /** `__process_inline(conf)`: the data of level `field_data`, then one
      row per element of its `data`. */
  function Inline(working: Dict, conf: Dict, formatToday: string -> string): Result<seq<Dict>>
  {
    var level :- Lookup(conf, "field_data");
    var selected :- ProcessData(working, level);
    var dataValue :- Index(selected, "data");
    var items :- Iterated(dataValue);
    RowsFrom(items, conf, formatToday, 0, [])
  }

  /** Inline mapping emits exactly one row per data element, in the same
      order, each built from its own element. */
  lemma InlineRowPerElement(working: Dict, conf: Dict, formatToday: string -> string, items: seq<Json>)
    requires "field_data" in conf && ProcessData(working, conf["field_data"]).Ok?
    requires Index(ProcessData(working, conf["field_data"]).value, "data").Ok?
    requires Iterated(Index(ProcessData(working, conf["field_data"]).value, "data").value) == Ok(items)
    requires Inline(working, conf, formatToday).Ok?
    ensures |Inline(working, conf, formatToday).value| == |items|
    ensures items != [] ==> "field_mapping" in conf && KeyedElements(conf["field_mapping"]).Ok?
    ensures forall j :: 0 <= j < |items| ==>
      Row(KeyedElements(conf["field_mapping"]).value, items[j], formatToday) == Ok(Inline(working, conf, formatToday).value[j])
  {
    assert Inline(working, conf, formatToday) == RowsFrom(items, conf, formatToday, 0, []);
    RowsFromRows(items, conf, formatToday, 0, []);
  }

  // ---------------------------------------------------------------------
  // The connector loop

  /** The upper-cased mapping types that produce a payload. */
  predicate KnownMapping(conf: Json)
  {
    Index(conf, "mapping_type").Ok? && Index(conf, "mapping_type").value.JStr? &&
    Upper(Index(conf, "mapping_type").value.s) in {"TEMPLATE", "INLINE"}
  }

  /** The payload of one connector configuration: its template output or
      its inline rows; `None` for an unknown mapping type, which is
      skipped. */
  function PayloadOf(working: Dict, conf: Json, formatToday: string -> string): (r: Result<Option<Payload>>)
    ensures r.Ok? ==> (r.value.Some? <==> KnownMapping(conf))
    ensures r.Ok? && r.value.Some? ==> conf.JObj?
  {
    var mappingValue :- Index(conf, "mapping_type");
    var mapping :- AsStr(mappingValue);
    if Upper(mapping) == "TEMPLATE" then
      var out :- ProcessTemplate(working, conf.fields);
      Ok(Some(Text(out)))
    else if Upper(mapping) == "INLINE" then
      var rows :- Inline(working, conf.fields, formatToday);
      Ok(Some(Rows(rows)))
    else Ok(None)
  }

  /** What one connector configuration ships: nothing for an unknown
      mapping type, otherwise the package of its payload. */
  function ShipOne(working: Dict, conf: Json, formatToday: string -> string): (r: Result<Option<Shipment>>)
    ensures r.Ok? ==> (r.value.Some? <==> KnownMapping(conf))
    ensures r.Ok? && r.value.Some? ==> ShipmentFor(conf.fields, r.value.value.payload) == Ok(r.value.value)
  {
    var p :- PayloadOf(working, conf, formatToday);
    match p
    case None => Ok(None)
    case Some(payload) =>
      var s :- ShipmentFor(conf.fields, payload);
      Ok(Some(s))
  }

  /** The shipment (if any) of each configuration. */
  type ShipStep = Json -> Result<Option<Shipment>>

  function ShipsFor(working: Dict, formatToday: string -> string): (f: ShipStep)
    ensures forall conf :: f(conf) == ShipOne(working, conf, formatToday)
  {
    (conf: Json) => ShipOne(working, conf, formatToday)
  }

  /** What shipping configurations `i` onwards adds to `sent`: the
      shipments made and how the loop ends. */
  datatype Shipping = Shipping(sent: seq<Shipment>, result: Result<Unit>)

  function ShipFrom(step: ShipStep, confs: seq<Json>, i: nat, sent: seq<Shipment>): Shipping
    requires i <= |confs|
    decreases |confs| - i
  {
    if i == |confs| then Shipping(sent, Ok(Unit))
    else match step(confs[i])
      case Err(e) => Shipping(sent, Err(e))
      case Ok(None) => ShipFrom(step, confs, i + 1, sent)
      case Ok(Some(s)) => ShipFrom(step, confs, i + 1, sent + [s])
  }

  /** `SendToConnecter(working_data, settings)`: nothing without a
      `connectors` setting (or with `None`), otherwise each configuration
      in order. */
  function Shipments(working: Dict, settings: Dict, formatToday: string -> string): Shipping
  {
    if "connectors" !in settings || settings["connectors"] == JNull then Shipping([], Ok(Unit))
    else match KeyedElements(settings["connectors"])
      case Err(e) => Shipping([], Err(e))
      case Ok(confs) => ShipFrom(ShipsFor(working, formatToday), confs, 0, [])
  }

  /** Without connectors nothing is shipped. */
  lemma NoConnectorsShipNothing(working: Dict, settings: Dict, formatToday: string -> string)
    requires "connectors" !in settings || settings["connectors"] == JNull
    ensures Shipments(working, settings, formatToday) == Shipping([], Ok(Unit))
  {
  }

  /** The number of configurations from `i` on that ship something. */
  function ShippingCount(step: ShipStep, confs: seq<Json>, i: nat): nat
    requires i <= |confs|
    decreases |confs| - i
  {
    if i == |confs| then 0
    else (if step(confs[i]).Ok? && step(confs[i]).value.Some? then 1 else 0) + ShippingCount(step, confs, i + 1)
  }

  /** A run that completes ships exactly once per configuration that ships
      something, in order, after what was sent before. */
  lemma {:induction false} ShipFromCount(step: ShipStep, confs: seq<Json>, i: nat, sent: seq<Shipment>)
    requires i <= |confs| && ShipFrom(step, confs, i, sent).result.Ok?
    ensures |ShipFrom(step, confs, i, sent).sent| == |sent| + ShippingCount(step, confs, i)
    ensures ShipFrom(step, confs, i, sent).sent[..|sent|] == sent
    decreases |confs| - i
  {
    if i < |confs| {
      var next := if step(confs[i]).value.Some? then sent + [step(confs[i]).value.value] else sent;
      ShipFromCount(step, confs, i + 1, next);
      var out := ShipFrom(step, confs, i, sent).sent;
      assert out[..|next|][..|sent|] == out[..|sent|];
    }
  }

  /** The number of configurations from `i` on with a TEMPLATE or INLINE
      mapping type. */
  function KnownCount(confs: seq<Json>, i: nat): nat
    requires i <= |confs|
    decreases |confs| - i
  {
    if i == |confs| then 0 else (if KnownMapping(confs[i]) then 1 else 0) + KnownCount(confs, i + 1)
  }

  /** On a completed run every configuration ships exactly when its
      mapping type is known. */
  lemma {:induction false} KnownCountShips(step: ShipStep, working: Dict, formatToday: string -> string, confs: seq<Json>, i: nat, sent: seq<Shipment>)
    requires step == ShipsFor(working, formatToday)
    requires i <= |confs| && ShipFrom(step, confs, i, sent).result.Ok?
    ensures ShippingCount(step, confs, i) == KnownCount(confs, i)
    decreases |confs| - i
  {
    if i < |confs| {
      var next := if step(confs[i]).value.Some? then sent + [step(confs[i]).value.value] else sent;
      KnownCountShips(step, working, formatToday, confs, i + 1, next);
    }
  }

  /** A connector run that completes ships exactly once per configuration
      with a TEMPLATE or INLINE mapping type; the others are skipped. */
  lemma ShipsOncePerKnownMapping(working: Dict, settings: Dict, formatToday: string -> string)
    requires "connectors" in settings && KeyedElements(settings["connectors"]).Ok?
    requires Shipments(working, settings, formatToday).result.Ok?
    ensures |Shipments(working, settings, formatToday).sent| == KnownCount(KeyedElements(settings["connectors"]).value, 0)
  {
    var confs := KeyedElements(settings["connectors"]).value;
    if settings["connectors"] != JNull {
      ShipFromCount(ShipsFor(working, formatToday), confs, 0, []);
      KnownCountShips(ShipsFor(working, formatToday), working, formatToday, confs, 0, []);
    }
  }

  /** The connector loop, with the shipments it has made so far. */
  class Sender {
    /** The `working_data` the templates and inline mappings read. */
    const working: Dict
    /** `date.today().strftime(format)` */
    const formatToday: string -> string
    /** The connector calls made, in order. */
    var shipped: seq<Shipment>

    constructor (working: Dict, formatToday: string -> string)
      ensures this.working == working && this.formatToday == formatToday && shipped == []
    {
      this.working := working;
      this.formatToday := formatToday;
      shipped := [];
    }

    /** The inner loop of `__process_inline`: one row from one element. */
    method BuildRow(ps: seq<Json>, data: Json) returns (r: Result<Dict>)
      ensures r == Row(ps, data, formatToday)
    {
      var row: Dict := map[];
      var i := 0;
      while i < |ps|
        invariant 0 <= i <= |ps|
        invariant Row(ps, data, formatToday) == RowFrom(ps, EntriesFor(data, formatToday), i, row)
      {
        var e :- PatternEntry(ps[i], data, formatToday);
        if e.Put? {
          row := row[e.name := e.value];
        }
        i := i + 1;
      }
      return Ok(row);
    }

    /** `__process_inline(conf)` */
    method ProcessInline(conf: Dict) returns (r: Result<seq<Dict>>)
      ensures r == Inline(working, conf, formatToday)
    {
      var level :- Lookup(conf, "field_data");
      var selected :- ProcessData(working, level);
      var dataValue :- Index(selected, "data");
      var items :- Iterated(dataValue);
      var rows: seq<Dict> := [];
      var i := 0;
      while i < |items|
        invariant 0 <= i <= |items|
        invariant Inline(working, conf, formatToday) == RowsFrom(items, conf, formatToday, i, rows)
      {
        var mapping :- Lookup(conf, "field_mapping");
        var ps :- KeyedElements(mapping);
        var row :- BuildRow(ps, items[i]);
        rows := rows + [row];
        i := i + 1;
      }
      return Ok(rows);
    }

    /** `__ship_package(conf, data)` */
    method ShipPackage(conf: Dict, payload: Payload) returns (r: Result<Unit>)
      modifies this
      ensures ShipmentFor(conf, payload).Ok? ==> r == Ok(Unit) && shipped == old(shipped) + [ShipmentFor(conf, payload).value]
      ensures ShipmentFor(conf, payload).Err? ==> r == Err(ShipmentFor(conf, payload).error) && shipped == old(shipped)
    {
      var s :- ShipmentFor(conf, payload);
      shipped := shipped + [s];
      return Ok(Unit);
    }

    /** The mapping step of `SendToConnecter.__init__` for one
        configuration. */
    method Prepare(conf: Json) returns (r: Result<Option<Payload>>)
      ensures r == PayloadOf(working, conf, formatToday)
    {
      var mappingValue :- Index(conf, "mapping_type");
      var mapping :- AsStr(mappingValue);
      if Upper(mapping) == "TEMPLATE" {
        var out :- ProcessTemplate(working, conf.fields);
        return Ok(Some(Text(out)));
      } else if Upper(mapping) == "INLINE" {
        var rows :- ProcessInline(conf.fields);
        return Ok(Some(Rows(rows)));
      }
      return Ok(None);
    }

    /** The body of `SendToConnecter.__init__`: map and ship every
        configured connector in order. */
    method Send(settings: Dict) returns (r: Result<Unit>)
      modifies this
      ensures var out := Shipments(working, settings, formatToday);
        r == out.result && shipped == old(shipped) + out.sent
    {
      if "connectors" !in settings || settings["connectors"] == JNull {
        return Ok(Unit);
      }
      var confs :- KeyedElements(settings["connectors"]);
      ghost var step := ShipsFor(working, formatToday);
      ghost var s0 := shipped;
      ghost var sent: seq<Shipment> := [];
      var i := 0;
      while i < |confs|
        invariant 0 <= i <= |confs| && shipped == s0 + sent
        invariant Shipments(working, settings, formatToday) == ShipFrom(step, confs, i, sent)
      {
        var payload :- Prepare(confs[i]);
        if payload.Some? {
          ghost var s := ShipmentFor(confs[i].fields, payload.value);
          var done := ShipPackage(confs[i].fields, payload.value);
          if done.Err? {
            return done;
          }
          sent := sent + [s.value];
        }
        i := i + 1;
      }
      return Ok(Unit);
    }
  }
}
