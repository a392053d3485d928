/** The configuration loader: a YAML document whose strings may carry
    `${name}` placeholders, substituted from a `vars` section, and whose
    `include` list names further documents merged into it. Reading and
    parsing a file is a parameter (`load`), from a path to the parsed
    document or the error that loading raised. */
module YamlLoader {
  import opened Wrappers
  import opened PyJson

  /** A character `\w` matches (ASCII letters, digits and `_`). */
  predicate WordChar(c: char)
  {
    'a' <= c <= 'z' || 'A' <= c <= 'Z' || '0' <= c <= '9' || c == '_'
  }

  /** A placeholder name: one or more word characters. */
  predicate IsName(t: string)
  {
    |t| > 0 && forall i :: 0 <= i < |t| ==> WordChar(t[i])
  }

  /** The length of the run of word characters `t` starts with. */
  function WordRun(t: string): (n: nat)
    ensures n <= |t|
    ensures forall i :: 0 <= i < n ==> WordChar(t[i])
    ensures n < |t| ==> !WordChar(t[n])
  {
    if t == [] || !WordChar(t[0]) then 0 else 1 + WordRun(t[1..])
  }

  /** The name of the placeholder `${name}` that `s` starts with, if it
      starts with one. */
  function PlaceholderAt(s: string): (r: Option<string>)
    ensures r.Some? ==> IsName(r.value) && |r.value| + 3 <= |s| && s[..|r.value| + 3] == "${" + r.value + "}"
  {
    if |s| >= 2 && s[0] == '$' && s[1] == '{' then
      var n := WordRun(s[2..]);
      if 0 < n && 2 + n < |s| && s[2 + n] == '}' then
        assert s[..n + 3] == "${" + s[2..2 + n] + "}";
        Some(s[2..2 + n])
      else None
    else None
  }

  /** Every `${name}` with a word for its name is a placeholder. */
  lemma PlaceholderAtName(name: string, rest: string)
    requires IsName(name)
    ensures PlaceholderAt("${" + name + "}" + rest) == Some(name)
  {
    var s := "${" + name + "}" + rest;
    assert s[2..][..|name|] == name && s[2..][|name|] == '}';
    WordRunOfName(name, s[2..]);
    assert s[2..2 + |name|] == name;
  }

  lemma WordRunOfName(name: string, t: string)
    requires IsName(name) && |name| < |t| && t[..|name|] == name && !WordChar(t[|name|])
    ensures WordRun(t) == |name|
  {
    assert forall i :: 0 <= i < |name| ==> t[i] == name[i];
  }

  /** The placeholders of `s`, in order, as `re.sub` finds them: scanning
      from the left, a match is consumed whole before the scan goes on. */
  function Placeholders(s: string): seq<string>
    decreases |s|
  {
    if s == [] then []
    else match PlaceholderAt(s)
      case Some(name) => [name] + Placeholders(s[|name| + 3..])
      case None => Placeholders(s[1..])
  }

  /** The error a failed substitution raises: the variables have no `get`
      unless they are a dict, and `str` of a list or dict is not modelled. */
  function SubstError(vars: Json): Error
  {
    if vars.JObj? then Unmodelled else AttributeError
  }

  /** `str(variables.get(name, whole))`: the variable's text, or the
      placeholder itself when the variable is unknown. */
  function Replacement(name: string, whole: string, vars: Json): (r: Result<string>)
    ensures vars.JObj? && name !in vars.fields ==> r == Ok(whole)
    ensures vars.JObj? && name in vars.fields ==> r == Str(vars.fields[name])
    ensures r.Err? ==> r.error == SubstError(vars)
  {
    var d :- AsObj(vars);
    Str(Get(d, name, JStr(whole)))
  }

  /** `re.sub(r"\$\{(\w+)\}", ..., s)`: one left-to-right pass replacing
      each placeholder by its replacement text. */
  function Subst(s: string, vars: Json): (r: Result<string>)
    ensures r.Err? ==> r.error == SubstError(vars)
    decreases |s|
  {
    if s == [] then Ok([])
    else match PlaceholderAt(s)
      case Some(name) =>
        var text :- Replacement(name, s[..|name| + 3], vars);
        var rest :- Subst(s[|name| + 3..], vars);
        Ok(text + rest)
      case None =>
        var rest :- Subst(s[1..], vars);
        Ok([s[0]] + rest)
  }

  /** Text without placeholders comes back unchanged, whatever the
      variables are: the replacement is never asked for. */
  lemma {:induction false} NoPlaceholdersNoChange(s: string, vars: Json)
    requires Placeholders(s) == []
    ensures Subst(s, vars) == Ok(s)
    decreases |s|
  {
    if s != [] {
      NoPlaceholdersNoChange(s[1..], vars);
      assert [s[0]] + s[1..] == s;
    }
  }

  /** Placeholders whose names are not variables are left verbatim. */
  lemma {:induction false} UnknownPlaceholdersKept(s: string, m: Dict)
    requires forall n :: n in Placeholders(s) ==> n !in m
    ensures Subst(s, JObj(m)) == Ok(s)
    decreases |s|
  {
    if s != [] {
      match PlaceholderAt(s)
      case Some(name) =>
        var k := |name| + 3;
        assert Placeholders(s) == [name] + Placeholders(s[k..]);
        UnknownPlaceholdersKept(s[k..], m);
        UnknownPlaceholderKept(s, name, m);
      case None =>
        assert Placeholders(s) == Placeholders(s[1..]);
        UnknownPlaceholdersKept(s[1..], m);
        PlainCharKept(s, JObj(m));
    }
  }

  lemma UnknownPlaceholderKept(s: string, name: string, m: Dict)
    requires PlaceholderAt(s) == Some(name) && name !in m
    requires Subst(s[|name| + 3..], JObj(m)) == Ok(s[|name| + 3..])
    ensures Subst(s, JObj(m)) == Ok(s)
  {
    var k := |name| + 3;
    assert Replacement(name, s[..k], JObj(m)) == Ok(s[..k]);
    assert s[..k] + s[k..] == s;
  }

  lemma PlainCharKept(s: string, vars: Json)
    requires s != [] && PlaceholderAt(s).None? && Subst(s[1..], vars) == Ok(s[1..])
    ensures Subst(s, vars) == Ok(s)
  {
    assert [s[0]] + s[1..] == s;
  }

  /** A known placeholder is replaced by its variable's text, and that
      text is not scanned again: substitution goes on after it. */
  lemma PlaceholderReplacedOnce(name: string, rest: string, m: Dict)
    requires IsName(name) && name in m && Str(m[name]).Ok? && Subst(rest, JObj(m)).Ok?
    ensures Subst("${" + name + "}" + rest, JObj(m)) == Ok(Str(m[name]).value + Subst(rest, JObj(m)).value)
  {
    var s := "${" + name + "}" + rest;
    PlaceholderAtName(name, rest);
    assert s[|name| + 3..] == rest;
  }

  /** A character that does not open a placeholder is copied. */
  lemma PlainCharCopied(c: char, rest: string, vars: Json)
    requires c != '$'
    ensures Subst([c] + rest, vars) == (if Subst(rest, vars).Ok? then Ok([c] + Subst(rest, vars).value) else Subst(rest, vars))
  {
    assert ([c] + rest)[1..] == rest;
  }

  /** When the variables are not a dict, the first placeholder raises. */
  lemma {:induction false} PlaceholderNeedsDict(s: string, vars: Json)
    requires !vars.JObj? && Placeholders(s) != []
    ensures Subst(s, vars) == Err(AttributeError)
    decreases |s|
  {
    match PlaceholderAt(s)
    case Some(_) =>
    case None => PlaceholderNeedsDict(s[1..], vars);
  }

  /** The placeholder names anywhere in a document. */
  function NamesIn(obj: Json): set<string>
    decreases obj
  {
    match obj
    case JStr(s) => set n | n in Placeholders(s)
    case JList(xs) => set i, n | 0 <= i < |xs| && n in NamesIn(xs[i]) :: n
    case JObj(m) => set k, n | k in m && n in NamesIn(m[k]) :: n
    case _ => {}
  }

  /** `replace_variables(obj)`: strings substituted, lists and dicts
      rebuilt element by element, everything else kept. */
  function Replace(obj: Json, vars: Json): (r: Result<Json>)
    ensures r.Ok? && obj.JStr? ==> r.value.JStr? && Subst(obj.s, vars) == Ok(r.value.s)
    ensures r.Ok? && obj.JList? ==>
      r.value.JList? && |r.value.items| == |obj.items| &&
      forall i :: 0 <= i < |obj.items| ==> Replace(obj.items[i], vars) == Ok(r.value.items[i])
    ensures r.Ok? && obj.JObj? ==>
      r.value.JObj? && r.value.fields.Keys == obj.fields.Keys &&
      forall k :: k in obj.fields ==> Replace(obj.fields[k], vars) == Ok(r.value.fields[k])
    ensures !obj.JStr? && !obj.JList? && !obj.JObj? ==> r == Ok(obj)
    ensures r.Err? ==> r.error == SubstError(vars)
    decreases obj
  {
    match obj
    case JStr(s) =>
      var t :- Subst(s, vars);
      Ok(JStr(t))
    case JList(xs) =>
      if forall i :: 0 <= i < |xs| ==> Replace(xs[i], vars).Ok? then
        Ok(JList(seq(|xs|, i requires 0 <= i < |xs| => Replace(xs[i], vars).value)))
      else Err(SubstError(vars))
    case JObj(m) =>
      if forall k :: k in m ==> Replace(m[k], vars).Ok? then
        Ok(JObj(map k | k in m :: Replace(m[k], vars).value))
      else Err(SubstError(vars))
    case _ => Ok(obj)
  }

  /** A document none of whose placeholders names a variable comes back
      as it was. */
  lemma {:induction false} ReplaceKeepsUnknown(obj: Json, m: Dict)
    requires forall n :: n in NamesIn(obj) ==> n !in m
    ensures Replace(obj, JObj(m)) == Ok(obj)
    decreases obj
  {
    match obj
    case JStr(s) =>
      UnknownPlaceholdersKept(s, m);
    case JList(xs) =>
      forall i | 0 <= i < |xs| ensures Replace(xs[i], JObj(m)) == Ok(xs[i]) {
        ReplaceKeepsUnknown(xs[i], m);
      }
      assert seq(|xs|, i requires 0 <= i < |xs| => Replace(xs[i], JObj(m)).value) == xs;
    case JObj(f) =>
      forall k | k in f ensures Replace(f[k], JObj(m)) == Ok(f[k]) {
        ReplaceKeepsUnknown(f[k], m);
      }
      assert Replace(obj, JObj(m)).Ok?;
      assert Replace(obj, JObj(m)).value.fields == f;
    case _ =>
  }

  /** When the variables are not a dict, any placeholder in the document
      raises AttributeError. */
  lemma {:induction false} ReplaceNeedsDict(obj: Json, vars: Json)
    requires !vars.JObj? && NamesIn(obj) != {}
    ensures Replace(obj, vars) == Err(AttributeError)
    decreases obj
  {
    match obj
    case JStr(s) =>
      PlaceholderNeedsDict(s, vars);
    case JList(xs) =>
      var n :| n in NamesIn(obj);
      var i :| 0 <= i < |xs| && n in NamesIn(xs[i]);
      ReplaceNeedsDict(xs[i], vars);
    case JObj(f) =>
      var n :| n in NamesIn(obj);
      var k :| k in f && n in NamesIn(f[k]);
      ReplaceNeedsDict(f[k], vars);
  }

  /** `global_variables + local_variables`, as the elements a `for` loop
      then visits: two lists concatenate, two strings concatenate into
      their characters, anything else raises TypeError. */
  function ConcatVars(globals: Json, locals: Json): (r: Result<seq<Json>>)
    ensures globals.JList? && locals.JList? ==> r == Ok(globals.items + locals.items)
    ensures r.Ok? ==> (globals.JList? && locals.JList?) || (globals.JStr? && locals.JStr?)
  {
    if globals.JList? && locals.JList? then Ok(globals.items + locals.items)
    else if globals.JStr? && locals.JStr? then Iterated(JStr(globals.s + locals.s))
    else Err(TypeError)
  }

  /** `{key: value for d in ds for key, value in d.items()}`. */
  function Flatten(ds: seq<Json>): (r: Result<Dict>)
    ensures r.Err? ==> r.error == AttributeError
    decreases |ds|
  {
    if ds == [] then Ok(map[])
    else
      var init :- Flatten(ds[..|ds| - 1]);
      var d :- AsObj(ds[|ds| - 1]);
      Ok(init + d)
  }

  /** The dict `ds` defines at `k`: its last one that has `k`. */
  predicate LastDefines(ds: seq<Json>, i: int, k: string)
  {
    0 <= i < |ds| && ds[i].JObj? && k in ds[i].fields &&
    forall j :: i < j < |ds| && ds[j].JObj? ==> k !in ds[j].fields
  }

  /** Flattening succeeds exactly on a list of dicts; it has the keys of
      all of them, and a later dict's value wins over an earlier one's. */
  lemma {:induction false} FlattenLaterWins(ds: seq<Json>)
    ensures Flatten(ds).Ok? <==> forall i :: 0 <= i < |ds| ==> ds[i].JObj?
    ensures Flatten(ds).Ok? ==> forall k :: k in Flatten(ds).value <==> exists i :: 0 <= i < |ds| && k in ds[i].fields
    ensures Flatten(ds).Ok? ==> forall i, k :: LastDefines(ds, i, k) ==> Flatten(ds).value[k] == ds[i].fields[k]
    decreases |ds|
  {
    if ds != [] {
      var init := ds[..|ds| - 1];
      var last := ds[|ds| - 1];
      FlattenLaterWins(init);
      assert forall i :: 0 <= i < |init| ==> init[i] == ds[i];
      if Flatten(ds).Ok? {
        forall i, k | LastDefines(ds, i, k) ensures Flatten(ds).value[k] == ds[i].fields[k] {
          if i < |init| {
            assert LastDefines(init, i, k);
          }
        }
      }
    }
  }

  /** The variables an included document sees: the main document's `vars`
      list followed by its own, flattened. */
  function IncludeVars(globals: Json, locals: Json): (r: Result<Dict>)
    ensures globals.JList? && locals.JList? ==> r == Flatten(globals.items + locals.items)
  {
    var ds :- ConcatVars(globals, locals);
    Flatten(ds)
  }

  /** One included document, loaded, substituted from its variables and
      stripped of its `vars` section. A document that is not a dict has no
      `get`, so the ValueError after the merge check is never reached. */
  function IncludeData(load: Json -> Result<Json>, globals: Json, item: Json): (r: Result<Dict>)
    ensures r.Ok? ==> "vars" !in r.value
    ensures r.Ok? ==> load(item).Ok? && load(item).value.JObj? && r.value.Keys == load(item).value.fields.Keys - {"vars"}
    ensures load(item).Ok? && !load(item).value.JObj? ==> r == Err(AttributeError)
  {
    var doc :- load(item);
    var fields :- AsObj(doc);
    var vars :- IncludeVars(globals, Get(fields, "vars", JList([])));
    var replaced :- Replace(doc, JObj(vars));
    Ok(replaced.fields - {"vars"})
  }

  type IncludeStep = Json -> Result<Dict>

  function IncludesFor(load: Json -> Result<Json>, globals: Json): (f: IncludeStep)
    ensures forall x :: f(x) == IncludeData(load, globals, x)
  {
    x => IncludeData(load, globals, x)
  }

  /** The includes from position `i` on, each merged into `main` with
      `update` in list order. */
  function MergeFrom(step: IncludeStep, items: seq<Json>, i: nat, main: Dict): Result<Dict>
    decreases |items| - i
  {
    if i >= |items| then Ok(main)
    else
      var d :- step(items[i]);
      MergeFrom(step, items, i + 1, main + d)
  }

  /** The include merged last that has `k`. */
  predicate LastIncludes(step: IncludeStep, items: seq<Json>, j: int, k: string)
  {
    0 <= j < |items| && step(items[j]).Ok? && k in step(items[j]).value &&
    forall j' :: j < j' < |items| && step(items[j']).Ok? ==> k !in step(items[j']).value
  }

  /** A successful merge loaded every include; it has the main keys and
      the includes' keys; a key takes the value of the last include that
      has it, and a key no include has keeps its main value. */
  lemma {:induction false} MergeFromFields(step: IncludeStep, items: seq<Json>, i: nat, main: Dict)
    requires MergeFrom(step, items, i, main).Ok?
    ensures forall j :: i <= j < |items| ==> step(items[j]).Ok?
    ensures forall k :: k in MergeFrom(step, items, i, main).value <==>
      k in main || exists j :: i <= j < |items| && step(items[j]).Ok? && k in step(items[j]).value
    ensures forall j, k :: i <= j && LastIncludes(step, items, j, k) ==>
      MergeFrom(step, items, i, main).value[k] == step(items[j]).value[k]
    ensures forall k :: k in main && (forall j :: i <= j < |items| && step(items[j]).Ok? ==> k !in step(items[j]).value) ==>
      MergeFrom(step, items, i, main).value[k] == main[k]
    decreases |items| - i
  {
    if i < |items| {
      var d := step(items[i]).value;
      MergeFromFields(step, items, i + 1, main + d);
      forall j, k | i <= j && LastIncludes(step, items, j, k)
        ensures MergeFrom(step, items, i, main).value[k] == step(items[j]).value[k]
      {
        if j == i {
          assert k in main + d;
        }
      }
    }
  }

  /** The variables the main document is substituted from, as written:
      its `vars` entry itself, which `get` is then called on. */
  function MainVarsAsWritten(doc: Dict): Json
  {
    Get(doc, "vars", JList([]))
  }

  /** As written, a main document whose `vars` is the list of one-entry
      dicts that includes require cannot hold a placeholder anywhere:
      substitution raises AttributeError. */
  lemma ListVarsBreakMainPlaceholders(doc: Dict)
    requires MainVarsAsWritten(doc).JList? && NamesIn(JObj(doc)) != {}
    ensures Replace(JObj(doc), MainVarsAsWritten(doc)) == Err(AttributeError)
  {
    ReplaceNeedsDict(JObj(doc), MainVarsAsWritten(doc));
  }

  /** The variables the main document is substituted from, corrected: a
      `vars` list of dicts is flattened as for an include; any other
      `vars` value is used as it stands. */
  function MainVars(doc: Dict): (r: Json)
    ensures MainVarsAsWritten(doc).JList? && IncludeVars(MainVarsAsWritten(doc), JList([])).Ok? ==>
      r == JObj(IncludeVars(MainVarsAsWritten(doc), JList([])).value)
    ensures !MainVarsAsWritten(doc).JList? ==> r == MainVarsAsWritten(doc)
  {
    var globals := Get(doc, "vars", JList([]));
    if globals.JList? then
      match Flatten(globals.items)
      case Ok(m) => assert globals.items + [] == globals.items; JObj(m)
      case Err(_) => globals
    else globals
  }

  /** Corrected, the main document sees exactly the variables an include
      without `vars` of its own sees. */
  lemma MainSeesIncludeVars(doc: Dict)
    requires MainVarsAsWritten(doc).JList?
    requires forall i :: 0 <= i < |MainVarsAsWritten(doc).items| ==> MainVarsAsWritten(doc).items[i].JObj?
    ensures IncludeVars(MainVarsAsWritten(doc), JList([])).Ok?
    ensures MainVars(doc) == JObj(IncludeVars(MainVarsAsWritten(doc), JList([])).value)
  {
    var items := MainVarsAsWritten(doc).items;
    assert items + [] == items;
    FlattenLaterWins(items);
  }

  /** `load_config(file_path)`: the main document substituted from its
      variables; when `include` is a list, each include merged in order;
      finally the `include` key dropped. */
  function LoadedConfig(load: Json -> Result<Json>, path: Json): (r: Result<Dict>)
    ensures r.Ok? ==> "include" !in r.value
  {
    var doc :- load(path);
    var fields :- AsObj(doc);
    var main :- Replace(doc, MainVars(fields));
    var merged :- if "include" in main.fields && main.fields["include"].JList? then
                    MergeFrom(IncludesFor(load, Get(fields, "vars", JList([]))), main.fields["include"].items, 0, main.fields)
                  else Ok(main.fields);
    Ok(merged - {"include"})
  }

  /** Without an `include` list no other document is read: the result is
      the substituted main document without its `include` key. */
  lemma NoIncludeListNoMerge(load: Json -> Result<Json>, path: Json)
    requires load(path).Ok? && load(path).value.JObj?
    requires var main := Replace(load(path).value, MainVars(load(path).value.fields));
      main.Ok? && !("include" in main.value.fields && main.value.fields["include"].JList?)
    ensures LoadedConfig(load, path) ==
      Ok(Replace(load(path).value, MainVars(load(path).value.fields)).value.fields - {"include"})
  {
  }

  /** The main document's substituted `vars` section survives the merge:
      includes lose theirs before they are merged. */
  lemma MainVarsSectionKept(load: Json -> Result<Json>, path: Json)
    requires LoadedConfig(load, path).Ok?
    requires "vars" in load(path).value.fields
    ensures var main := Replace(load(path).value, MainVars(load(path).value.fields)).value;
      "vars" in LoadedConfig(load, path).value && LoadedConfig(load, path).value["vars"] == main.fields["vars"]
  {
    var doc := load(path).value;
    var main := Replace(doc, MainVars(doc.fields)).value;
    if "include" in main.fields && main.fields["include"].JList? {
      var step := IncludesFor(load, Get(doc.fields, "vars", JList([])));
      MergeFromFields(step, main.fields["include"].items, 0, main.fields);
    }
  }

  /** The loader, reading documents through `load`. */
  class Loader {
    const load: Json -> Result<Json>

    constructor (load: Json -> Result<Json>)
      ensures this.load == load
    {
      this.load := load;
    }

    /** `load_config(file_path)`, updating the main document in place
        include by include. */
    method LoadConfig(path: Json) returns (r: Result<Dict>)
      ensures r == LoadedConfig(load, path)
    {
      var doc :- load(path);
      var fields :- AsObj(doc);
      var replaced :- Replace(doc, MainVars(fields));
      var main := replaced.fields;
      if "include" in main && main["include"].JList? {
        main :- MergeIncludes(main["include"].items, Get(fields, "vars", JList([])), main);
      }
      return Ok(main - {"include"});
    }

    /** The loop over the includes: each loaded, substituted and merged
        into `main` with `update`, in list order. */
    method MergeIncludes(includes: seq<Json>, globals: Json, main0: Dict) returns (r: Result<Dict>)
      ensures r == MergeFrom(IncludesFor(load, globals), includes, 0, main0)
    {
      ghost var step := IncludesFor(load, globals);
      var main := main0;
      var i := 0;
      while i < |includes|
        invariant 0 <= i <= |includes|
        invariant MergeFrom(step, includes, 0, main0) == MergeFrom(step, includes, i, main)
      {
        var included :- IncludeData(load, globals, includes[i]);
        main := main + included;
        i := i + 1;
      }
      return Ok(main);
    }
  }
}
