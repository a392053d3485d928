/** The template processor: it picks the part of the run's working data a
    connector or export asks for (`process_data`), then either dumps it as
    JSON or renders it through a named Handlebars template
    (`process_template`). Loading and rendering templates is not modelled:
    a rendering is represented by the template file it loads and the data
    it is given. */
module TemplateProcessor {
  import opened Wrappers
  import opened PyStrings
  import opened PyJson

  /** What `process_template` produces: the data serialised as JSON, or
      the data rendered through the template file `file`. */
  datatype Output = Dumped(data: Json) | Rendered(file: string, data: Json)

  /** The five data levels `process_data` knows. */
  datatype Level = ChargeData | RefundData | Both | ProcessOnly | AllData

  /** A level's name, as it reads once upper-cased. */
  function LevelName(l: Level): string
  {
    match l
    case ChargeData => "CHARGE_DATA"
    case RefundData => "REFUND_DATA"
    case Both => "BOTH"
    case ProcessOnly => "PROCESS_DATA"
    case AllData => "ALL_DATA"
  }

  /** The level an upper-cased name stands for, if any. */
  function LevelNamed(name: string): (r: Option<Level>)
    ensures r.Some? ==> LevelName(r.value) == name
    ensures r.None? ==> forall l: Level :: LevelName(l) != name
  {
    if name == LevelName(ChargeData) then Some(ChargeData)
    else if name == LevelName(RefundData) then Some(RefundData)
    else if name == LevelName(Both) then Some(Both)
    else if name == LevelName(ProcessOnly) then Some(ProcessOnly)
    else if name == LevelName(AllData) then Some(AllData)
    else None
  }

  /** The data a known level selects from the working data. */
  function Select(working: Dict, l: Level): (r: Result<Json>)
    ensures l == ChargeData ==> r == Lookup(working, "charge_data")
    ensures l == RefundData ==> r == Lookup(working, "refund_data")
    ensures l == ProcessOnly ==> r == Lookup(working, "process_data")
    ensures l == Both ==> (r.Ok? <==> "charge_data" in working && "refund_data" in working)
    ensures l == Both && r.Ok? ==>
      r.value == JObj(map["charge" := working["charge_data"], "credit" := working["refund_data"]])
    ensures l == AllData ==> (r.Ok? <==> "charge_data" in working && "refund_data" in working && "process_data" in working)
    ensures l == AllData && r.Ok? ==>
      r.value == JObj(map["charge" := working["charge_data"], "credit" := working["refund_data"],
                          "process" := working["process_data"]])
    ensures r.Err? ==> r.error == KeyError
  {
    match l
    case ChargeData => Lookup(working, "charge_data")
    case RefundData => Lookup(working, "refund_data")
    case Both =>
      var charge :- Lookup(working, "charge_data");
      var credit :- Lookup(working, "refund_data");
      Ok(JObj(map["charge" := charge, "credit" := credit]))
    case ProcessOnly => Lookup(working, "process_data")
    case AllData =>
      var charge :- Lookup(working, "charge_data");
      var credit :- Lookup(working, "refund_data");
      var process :- Lookup(working, "process_data");
      Ok(JObj(map["charge" := charge, "credit" := credit, "process" := process]))
  }

  /** `process_data(level)` over the working data `working`: one of its
      three parts, or a dict of two or all three of them, chosen by the
      upper-cased level. A level that is not a string has no `upper`; an
      unknown level is a ValueError; a missing part is a KeyError. */
  function ProcessData(working: Dict, level: Json): (r: Result<Json>)
    ensures !level.JStr? ==> r == Err(AttributeError)
    ensures level.JStr? && LevelNamed(Upper(level.s)).None? ==> r == Err(ValueError)
    ensures level.JStr? && LevelNamed(Upper(level.s)).Some? ==> r == Select(working, LevelNamed(Upper(level.s)).value)
  {
    var name :- AsStr(level);
    match LevelNamed(Upper(name))
    case Some(l) => Select(working, l)
    case None => Err(ValueError)
  }

  /** Upper-casing a string that was lower-cased or upper-cased gives the
      same text as upper-casing the original. */
  lemma UpperIgnoresCase(s: string)
    ensures Upper(Lower(s)) == Upper(s) && Upper(Upper(s)) == Upper(s)
  {
    assert forall i :: 0 <= i < |s| ==> UpperChar(LowerChar(s[i])) == UpperChar(s[i]);
  }

  /** The level is matched without regard to ASCII case. */
  lemma LevelIgnoresCase(working: Dict, level: string)
    ensures ProcessData(working, JStr(Lower(level))) == ProcessData(working, JStr(level))
    ensures ProcessData(working, JStr(Upper(level))) == ProcessData(working, JStr(level))
  {
    UpperIgnoresCase(level);
  }

  /** Whenever the ALL_DATA view exists, the BOTH view exists too and is
      that view without its `process` entry. */
  lemma AllDataExtendsBoth(working: Dict)
    requires Select(working, AllData).Ok?
    ensures Select(working, Both).Ok?
    ensures Select(working, AllData).value.fields - {"process"} == Select(working, Both).value.fields
  {
  }

  /** `process_template(conf)`: the data of level `template_data` first,
      then, for the template name DUMP_JSON (in any case), that data as
      JSON, and for any other name the template `<name>.handlebars`. */
  function ProcessTemplate(working: Dict, conf: Dict): (r: Result<Output>)
    ensures r.Ok? ==> "template_data" in conf && ProcessData(working, conf["template_data"]) == Ok(r.value.data)
    ensures r.Ok? ==> "template_name" in conf && conf["template_name"].JStr?
    ensures r.Ok? && r.value.Rendered? ==>
      Upper(conf["template_name"].s) != "DUMP_JSON" && r.value.file == conf["template_name"].s + ".handlebars"
    ensures "template_data" !in conf ==> r == Err(KeyError)
    ensures "template_data" in conf && ProcessData(working, conf["template_data"]).Err? ==>
      r == Err(ProcessData(working, conf["template_data"]).error)
  {
    var level :- Lookup(conf, "template_data");
    var data :- ProcessData(working, level);
    var nameValue :- Lookup(conf, "template_name");
    var name :- AsStr(nameValue);
    if Upper(name) == "DUMP_JSON" then Ok(Dumped(data))
    else Ok(Rendered(name + ".handlebars", data))
  }

  /** A DUMP_JSON template name, in any case, never loads a template: the
      output is the JSON dump of the selected data whenever that data can
      be selected. */
  lemma DumpJsonNeverLoads(working: Dict, conf: Dict)
    requires "template_name" in conf && conf["template_name"].JStr?
    requires Upper(conf["template_name"].s) == "DUMP_JSON"
    ensures ProcessTemplate(working, conf).Ok? ==> ProcessTemplate(working, conf).value.Dumped?
    ensures "template_data" in conf && ProcessData(working, conf["template_data"]).Ok? ==>
      ProcessTemplate(working, conf) == Ok(Dumped(ProcessData(working, conf["template_data"]).value))
  {
  }
}
