/** Small shared helpers: the PascalCase to snake_case conversion used to
    find an action's module, export file names, and reading or writing a
    value at a key path inside nested dicts or lists. */
module CommonHelpers {
  import opened Wrappers
  import opened PyStrings
  import opened PyJson

  // ---------------------------------------------------------------------
  // pascal_to_camel_case

  /** The text after the first character, with `_` put before every ASCII
      uppercase letter. */
  function MarkCapitals(t: string): string
  {
    if t == [] then []
    else (if IsUpperAscii(t[0]) then "_" + [t[0]] else [t[0]]) + MarkCapitals(t[1..])
  }

  /** `re.sub(r'(?<!^)(?=[A-Z])', '_', s).lower()`: despite its name the
      source function yields snake_case. */
  function PascalToSnake(s: string): string
  {
    if s == [] then [] else Lower([s[0]] + MarkCapitals(s[1..]))
  }

  function CountCapitals(t: string): nat
  {
    if t == [] then 0 else (if IsUpperAscii(t[0]) then 1 else 0) + CountCapitals(t[1..])
  }

  /** The string with every `_` removed. */
  function DropUnderscores(t: string): string
  {
    if t == [] then [] else (if t[0] == '_' then [] else [t[0]]) + DropUnderscores(t[1..])
  }

  lemma {:induction false} MarkCapitalsShape(t: string)
    ensures |MarkCapitals(t)| == |t| + CountCapitals(t)
    ensures DropUnderscores(Lower(MarkCapitals(t))) == DropUnderscores(Lower(t))
  {
    if t != [] {
      MarkCapitalsShape(t[1..]);
      var head := if IsUpperAscii(t[0]) then "_" + [t[0]] else [t[0]];
      LowerAppend(head, MarkCapitals(t[1..]));
      DropAppend(Lower(head), Lower(MarkCapitals(t[1..])));
      LowerAppend([t[0]], t[1..]);
      assert t == [t[0]] + t[1..];
      DropAppend(Lower([t[0]]), Lower(t[1..]));
      if IsUpperAscii(t[0]) {
        assert Lower(head) == "_" + Lower([t[0]]);
        DropAppend("_", Lower([t[0]]));
      }
    }
  }

  lemma {:induction false} LowerAppend(a: string, b: string)
    ensures Lower(a + b) == Lower(a) + Lower(b)
  {
    var l := Lower(a + b);
    assert |l| == |Lower(a) + Lower(b)|;
    forall i | 0 <= i < |l| ensures l[i] == (Lower(a) + Lower(b))[i] {
      if i < |a| { assert (a + b)[i] == a[i]; } else { assert (a + b)[i] == b[i - |a|]; }
    }
  }

  lemma {:induction false} DropAppend(a: string, b: string)
    ensures DropUnderscores(a + b) == DropUnderscores(a) + DropUnderscores(b)
    decreases |a|
  {
    if a != [] {
      assert (a + b)[0] == a[0] && (a + b)[1..] == a[1..] + b;
      DropAppend(a[1..], b);
    } else {
      assert a + b == b;
    }
  }

  /** The conversion inserts one `_` per capital after the first character,
      leaves no ASCII capital behind, and removing the inserted `_` gives
      back the lower-cased input: `PayFineAction` becomes `pay_fine_action`. */
  lemma PascalToSnakeProperties(s: string)
    requires s != []
    ensures |PascalToSnake(s)| == |s| + CountCapitals(s[1..])
    ensures forall i :: 0 <= i < |PascalToSnake(s)| ==> !IsUpperAscii(PascalToSnake(s)[i])
    ensures DropUnderscores(PascalToSnake(s)) == DropUnderscores(Lower(s))
  {
    MarkCapitalsShape(s[1..]);
    LowerAppend([s[0]], MarkCapitals(s[1..]));
    LowerAppend([s[0]], s[1..]);
    assert s == [s[0]] + s[1..];
    DropAppend(Lower([s[0]]), Lower(MarkCapitals(s[1..])));
    DropAppend(Lower([s[0]]), Lower(s[1..]));
  }

  // ---------------------------------------------------------------------
  // generate_file_name

  /** `generate_file_name(conf)`: `file_name`, with every `{date}` replaced
      by today formatted with `date_format` when `file_append_date` is
      truthy. `formatToday` stands for `date.today().strftime`. */
  function GenerateFileName(conf: map<string, Json>, formatToday: string -> string): (r: Result<Json>)
  {
    var name :- Index(JObj(conf), "file_name");
    var append :- Index(JObj(conf), "file_append_date");
    if Truthy(append) then
      var fmt :- Index(JObj(conf), "date_format");
      if !fmt.JStr? then Err(TypeError)
      else
        var n :- AsStr(name);
        Ok(JStr(Replace(n, "{date}", formatToday(fmt.s))))
    else Ok(name)
  }

  /** With dating on, the name is the pieces between the `{date}` markers
      joined by the formatted date; with it off the name is returned as it
      is, whatever its type. */
  lemma GenerateFileNameMeaning(conf: map<string, Json>, formatToday: string -> string)
    requires "file_name" in conf && "file_append_date" in conf
    ensures !Truthy(conf["file_append_date"]) ==> GenerateFileName(conf, formatToday) == Ok(conf["file_name"])
    ensures Truthy(conf["file_append_date"]) && "date_format" in conf && conf["date_format"].JStr? && conf["file_name"].JStr?
      ==> GenerateFileName(conf, formatToday)
          == Ok(JStr(Join(Split(conf["file_name"].s, "{date}"), formatToday(conf["date_format"].s))))
    ensures Truthy(conf["file_append_date"]) && "date_format" !in conf ==> GenerateFileName(conf, formatToday) == Err(KeyError)
  {
    if Truthy(conf["file_append_date"]) && "date_format" in conf && conf["date_format"].JStr? && conf["file_name"].JStr? {
      ReplaceIsJoinOfSplit(conf["file_name"].s, "{date}", formatToday(conf["date_format"].s));
    }
  }

  // ---------------------------------------------------------------------
  // Key paths

  /** The `*keys` tuple flattened into a path: every string argument is
      split on `.`, anything else is kept as one step. */
  function NormalizeKeys(keys: seq<Json>): (path: seq<Json>)
  {
    if keys == [] then []
    else (if keys[0].JStr? then StrKeys(Split(keys[0].s, ".")) else [keys[0]]) + NormalizeKeys(keys[1..])
  }

  function StrKeys(parts: seq<string>): (r: seq<Json>)
    ensures |r| == |parts| && forall i :: 0 <= i < |parts| ==> r[i] == JStr(parts[i])
  {
    seq(|parts|, i requires 0 <= i < |parts| => JStr(parts[i]))
  }

  lemma {:induction false} NormalizeAppend(a: seq<Json>, b: seq<Json>)
    ensures NormalizeKeys(a + b) == NormalizeKeys(a) + NormalizeKeys(b)
    decreases |a|
  {
    if a != [] {
      assert (a + b)[0] == a[0] && (a + b)[1..] == a[1..] + b;
      NormalizeAppend(a[1..], b);
    } else {
      assert a + b == b;
    }
  }

  /** Every step of a normalised path is a string without `.` or a non-string. */
  predicate IsPath(path: seq<Json>)
  {
    forall i :: 0 <= i < |path| ==> (path[i].JStr? ==> '.' !in path[i].s)
  }

  lemma {:induction false} NormalizeGivesPath(keys: seq<Json>)
    ensures IsPath(NormalizeKeys(keys))
  {
    if keys != [] {
      NormalizeGivesPath(keys[1..]);
      if keys[0].JStr? {
        SplitPiecesAvoidSeparator(keys[0].s, '.');
      }
    }
  }

  /** Normalising a path changes nothing, so normalisation is idempotent. */
  lemma {:induction false} NormalizePathUnchanged(path: seq<Json>)
    requires IsPath(path)
    ensures NormalizeKeys(path) == path
  {
    if path != [] {
      NormalizePathUnchanged(path[1..]);
      if path[0].JStr? {
        SplitWithoutSeparator(path[0].s, '.');
      }
    }
  }

  /** `("a.b", "c")` and `("a", "b", "c")` address the same path. */
  lemma DottedKeysAddressSamePath(a: string, b: string, c: string)
    requires '.' !in a && '.' !in b && '.' !in c
    ensures NormalizeKeys([JStr(a + "." + b), JStr(c)]) == NormalizeKeys([JStr(a), JStr(b), JStr(c)])
  {
    PlainKeyFirst(c, []);
    PlainKeyFirst(b, [JStr(c)]);
    PlainKeyFirst(a, [JStr(b), JStr(c)]);
    SplitPastPlainPrefix(a, b);
    var dotted := [JStr(a + "." + b), JStr(c)];
    assert dotted[1..] == [JStr(c)];
    assert StrKeys([a, b]) == [JStr(a), JStr(b)];
  }

  /** A first key without a dot is one step of the path. */
  lemma PlainKeyFirst(k: string, rest: seq<Json>)
    requires '.' !in k
    ensures NormalizeKeys([JStr(k)] + rest) == [JStr(k)] + NormalizeKeys(rest)
  {
    SplitWithoutSeparator(k, '.');
    assert ([JStr(k)] + rest)[1..] == rest;
    assert StrKeys([k]) == [JStr(k)];
  }

  lemma {:induction false} SplitPastPlainPrefix(a: string, b: string)
    requires '.' !in a && '.' !in b
    ensures Split(a + "." + b, ".") == [a, b]
    decreases |a|
  {
    var s := a + "." + b;
    if a == [] {
      assert s[1..] == b;
      SplitWithoutSeparator(b, '.');
    } else {
      assert s[0] == a[0] && s[0] != '.';
      assert s[1..] == a[1..] + "." + b;
      SplitPastPlainPrefix(a[1..], b);
      assert [a[0]] + a[1..] == a;
    }
  }

  // ---------------------------------------------------------------------
  // Nested get

  /** `get_nested_value(data, *keys)` */
  function GetNestedValue(data: Json, keys: seq<Json>): Result<Json>
  {
    var path := NormalizeKeys(keys);
    match data
    case JObj(_) => GetNestedDictValue(data, path)
    case JList(_) => GetNestedListValue(data, path)
    case _ => Err(TypeError)
  }

  /** `data.get(key, None)` on a string-keyed dict. */
  function DictGetOrNone(m: map<string, Json>, key: Json): Result<Json>
  {
    match key
    case JStr(k) => Ok(if k in m then m[k] else JNull)
    case JList(_) => Err(TypeError)
    case JObj(_) => Err(TypeError)
    case _ => Ok(JNull)
  }

  /** `__get_nested_dict_value`: follow the path with `.get`, answering
      `None` as soon as a step yields `None`. A step on a value that is not
      a dict raises AttributeError. */
  function GetNestedDictValue(data: Json, path: seq<Json>): (r: Result<Json>)
    decreases |path|
  {
    if path == [] then Ok(data)
    else if !data.JObj? then Err(AttributeError)
    else
      var next :- DictGetOrNone(data.fields, path[0]);
      if next == JNull then Ok(JNull) else GetNestedDictValue(next, path[1..])
  }

  /** A dict get answers None as soon as it reaches a dict that lacks
      the next key (or maps it to None): whatever the rest of the path, a
      walk along `p` that ends at such a dict answers None. */
  lemma {:induction false} GetNestedDictMissing(data: Json, p: seq<Json>, d: map<string, Json>, k: string, rest: seq<Json>)
    requires GetNestedDictValue(data, p) == Ok(JObj(d))
    requires k !in d || d[k] == JNull
    ensures GetNestedDictValue(data, p + [JStr(k)] + rest) == Ok(JNull)
    decreases |p|
  {
    if p == [] {
      assert p + [JStr(k)] + rest == [JStr(k)] + rest;
    } else {
      var next := DictGetOrNone(data.fields, p[0]).value;
      assert (p + [JStr(k)] + rest)[0] == p[0];
      assert (p + [JStr(k)] + rest)[1..] == p[1..] + [JStr(k)] + rest;
      GetNestedDictMissing(next, p[1..], d, k, rest);
    }
  }

  /** `__get_nested_list_value`: follow the path with `data[index]`;
      IndexError and TypeError give `None`, any other error propagates. */
  function GetNestedListValue(data: Json, path: seq<Json>): (r: Result<Json>)
    ensures r.Err? ==> r.error != IndexError && r.error != TypeError
    decreases |path|
  {
    if path == [] then Ok(data)
    else match Subscript(data, path[0])
      case Ok(next) => GetNestedListValue(next, path[1..])
      case Err(e) => if e == IndexError || e == TypeError then Ok(JNull) else Err(e)
  }

  // ---------------------------------------------------------------------
  // Nested set

  /** A dict or a list passed by reference, which the set helpers update in
      place and return. */
  class PyObject {
    var value: Json

    constructor (value: Json)
      ensures this.value == value
    {
      this.value := value;
    }
  }

  /** The dict a set walk descends into under `key`: the existing value if
      it is a dict, otherwise a new empty one. */
  function ChildDict(m: map<string, Json>, key: string): map<string, Json>
  {
    if key in m && m[key].JObj? then m[key].fields else map[]
  }

  /** The dict after `__set_nested_dict_value(m, path, v)`. */
  function DictWith(m: map<string, Json>, path: seq<string>, v: Json): (r: map<string, Json>)
    requires path != []
    ensures path[0] in r && r.Keys == m.Keys + {path[0]}
    ensures forall k :: k in m && k != path[0] ==> r[k] == m[k]
    decreases |path|
  {
    if |path| == 1 then m[path[0] := v]
    else m[path[0] := JObj(DictWith(ChildDict(m, path[0]), path[1..], v))]
  }

  /** A get after a set along the same path yields the value set. */
  lemma {:induction false} DictGetAfterSet(m: map<string, Json>, path: seq<string>, v: Json)
    requires path != []
    ensures GetNestedDictValue(JObj(DictWith(m, path, v)), StrKeys(path)) == Ok(v)
    decreases |path|
  {
    var r := DictWith(m, path, v);
    if |path| > 1 {
      DictGetAfterSet(ChildDict(m, path[0]), path[1..], v);
      assert StrKeys(path)[1..] == StrKeys(path[1..]);
    }
  }

  /** A second set along the same path overrides the first. */
  lemma {:induction false} DictSetTwice(m: map<string, Json>, path: seq<string>, v: Json, w: Json)
    requires path != []
    ensures DictWith(DictWith(m, path, v), path, w) == DictWith(m, path, w)
    decreases |path|
  {
    if |path| == 1 {
      UpdateTwice(m, path[0], v, w);
    } else {
      var c := ChildDict(m, path[0]);
      var inner := DictWith(c, path[1..], v);
      var once := DictWith(m, path, v);
      DictSetTwice(c, path[1..], v, w);
      assert once == m[path[0] := JObj(inner)];
      assert ChildDict(once, path[0]) == inner;
      assert DictWith(once, path, w) == once[path[0] := JObj(DictWith(c, path[1..], w))];
      UpdateTwice(m, path[0], JObj(inner), JObj(DictWith(c, path[1..], w)));
    }
  }

  /** `__set_nested_dict_value(data, keys, value)`: walk down, replacing a
      missing or non-dict level by `{}`, then assign the last key. The dict
      is updated in place and returned; an empty path raises IndexError. */
  method SetNestedDictValue(data: PyObject, path: seq<string>, value: Json) returns (r: Result<PyObject>)
    requires data.value.JObj?
    modifies data
    ensures path == [] ==> r == Err(IndexError) && data.value == old(data.value)
    ensures path != [] ==> r == Ok(data) && data.value == JObj(DictWith(old(data.value.fields), path, value))
  {
    if path == [] {
      return Err(IndexError);
    }
    // levels[i] is the dict reached after following path[..i]
    var levels: seq<map<string, Json>> := [data.value.fields];
    var i := 0;
    while i < |path| - 1
      invariant 0 <= i <= |path| - 1 && |levels| == i + 1
      invariant levels[0] == data.value.fields
      invariant forall j :: 0 <= j < i ==> levels[j + 1] == ChildDict(levels[j], path[j])
    {
      levels := levels + [ChildDict(levels[i], path[i])];
      i := i + 1;
    }
    var acc := levels[i][path[i] := value];
    assert path[i..] == [path[i]];
    while i > 0
      invariant 0 <= i <= |path| - 1
      invariant acc == DictWith(levels[i], path[i..], value)
    {
      i := i - 1;
      assert path[i..][1..] == path[i + 1..];
      acc := levels[i][path[i] := JObj(acc)];
    }
    assert path[0..] == path;
    data.value := JObj(acc);
    return Ok(data);
  }

  /** `xs` padded with `filler` until index `i` exists. */
  function Padded(xs: seq<Json>, i: int, filler: Json): (r: seq<Json>)
    ensures |r| == (if |xs| <= i then i + 1 else |xs|)
    ensures r[..|xs|] == xs && forall j :: |xs| <= j < |r| ==> r[j] == filler
  {
    if |xs| <= i then xs + seq(i + 1 - |xs|, _ => filler) else xs
  }

  /** The list after `__set_nested_list_value(xs, path, v)`. A step that is
      not an integer raises TypeError (`len(...) <= index`), and a negative
      index beyond the start raises IndexError. */
  function ListWith(xs: seq<Json>, path: seq<Json>, v: Json): (r: Result<seq<Json>>)
    requires path != []
    decreases |path|
  {
    match NumOf(path[0])
    case None => Err(TypeError)
    case Some(i) =>
      var padded := Padded(xs, i, if |path| == 1 then JNull else JList([]));
      match PyIndex(|padded|, i)
      case None => Err(IndexError)
      case Some(j) =>
        if |path| == 1 then Ok(padded[j := v])
        else
          var child := if padded[j].JList? then padded[j].items else [];
          var c :- ListWith(child, path[1..], v);
          Ok(padded[j := JList(c)])
  }

  /** The list the caller holds after `__set_nested_list_value(xs, path,
      v)`, whether the set succeeds or raises: every level passed is
      padded with `[]` and its slot replaced by a list when it was not one,
      the last level is padded with `None` and written, and the level at
      which a step raises is left as it was. The outer levels keep the
      changes made before the error. */
  function ListLeft(xs: seq<Json>, path: seq<Json>, v: Json): seq<Json>
    requires path != []
    decreases |path|
  {
    match NumOf(path[0])
    case None => xs
    case Some(i) =>
      var padded := Padded(xs, i, if |path| == 1 then JNull else JList([]));
      match PyIndex(|padded|, i)
      case None => padded
      case Some(j) =>
        if |path| == 1 then padded[j := v]
        else
          var child := if padded[j].JList? then padded[j].items else [];
          padded[j := JList(ListLeft(child, path[1..], v))]
  }

  /** A set that succeeds leaves the list it computes. */
  lemma {:induction false} ListLeftAgrees(xs: seq<Json>, path: seq<Json>, v: Json)
    requires path != [] && ListWith(xs, path, v).Ok?
    ensures ListLeft(xs, path, v) == ListWith(xs, path, v).value
    decreases |path|
  {
    if |path| > 1 {
      var i := NumOf(path[0]).value;
      var padded := Padded(xs, i, JList([]));
      var j := PyIndex(|padded|, i).value;
      var child := if padded[j].JList? then padded[j].items else [];
      ListLeftAgrees(child, path[1..], v);
    }
  }

  /** A set that raises below the top level still leaves the padding it
      did: setting `[]` at `(0, "x")` raises TypeError on the string step
      and leaves `[[]]`. */
  lemma PartialSetKeepsPadding(v: Json)
    ensures ListWith([], [JNum(0), JStr("x")], v) == Err(TypeError)
    ensures ListLeft([], [JNum(0), JStr("x")], v) == [JList([])]
  {
    var path := [JNum(0), JStr("x")];
    assert path[1..] == [JStr("x")] && NumOf(path[0]) == Some(0);
    var padded := Padded([], 0, JList([]));
    assert padded == [JList([])];
    assert PyIndex(|padded|, 0) == Some(0);
    assert ListWith([], [JStr("x")], v) == Err(TypeError);
    assert ListLeft([], [JStr("x")], v) == [];
    assert padded[0 := JList([])] == [JList([])];
  }

  /** A get after a successful list set along the same path yields the
      value set. */
  lemma {:induction false} ListGetAfterSet(xs: seq<Json>, path: seq<Json>, v: Json)
    requires path != [] && ListWith(xs, path, v).Ok?
    ensures GetNestedListValue(JList(ListWith(xs, path, v).value), path) == Ok(v)
    decreases |path|
  {
    var i := NumOf(path[0]).value;
    var padded := Padded(xs, i, if |path| == 1 then JNull else JList([]));
    var j := PyIndex(|padded|, i).value;
    if |path| > 1 {
      var child := if padded[j].JList? then padded[j].items else [];
      ListGetAfterSet(child, path[1..], v);
    }
  }

  /** `while len(wk) <= index: wk.append(filler)` */
  method Pad(xs: seq<Json>, i: int, filler: Json) returns (ys: seq<Json>)
    ensures ys == Padded(xs, i, filler)
  {
    ys := xs;
    while |ys| <= i
      invariant |xs| <= |ys| && (|xs| <= i ==> |ys| <= i + 1) && (|xs| > i ==> ys == xs)
      invariant ys == xs + seq(|ys| - |xs|, _ => filler)
      decreases i + 1 - |ys|
    {
      ys := ys + [filler];
    }
  }

  /** `__set_nested_list_value(data, indices, value)`: walk down padding
      each level with `[]` and replacing a non-list level by `[]`, pad the
      last level with `None`, then assign. The list is updated in place and
      returned; an empty path raises IndexError. A step that raises leaves
      the padding of the levels above it in place. */
  method SetNestedListValue(data: PyObject, path: seq<Json>, value: Json) returns (r: Result<PyObject>)
    requires data.value.JList?
    modifies data
    ensures path == [] ==> r == Err(IndexError) && data.value == old(data.value)
    ensures path != [] ==>
      data.value == JList(ListLeft(old(data.value.items), path, value)) &&
      r == match ListWith(old(data.value.items), path, value)
        case Ok(_) => Ok(data)
        case Err(e) => Err(e)
  {
    if path == [] {
      return Err(IndexError);
    }
    var left, err := ListSet(data.value.items, path, value);
    data.value := JList(left);
    r := if err.None? then Ok(data) else Err(err.value);
  }

  /** The levels of a list set wrapped around the list `inner` reached
      below them: each level gets the rebuilt list in its slot. */
  function Rebuild(levels: seq<seq<Json>>, slots: seq<nat>, inner: seq<Json>): seq<Json>
    requires |levels| == |slots|
    requires forall m :: 0 <= m < |levels| ==> slots[m] < |levels[m]|
    decreases |levels|
  {
    if levels == [] then inner
    else levels[0][slots[0] := JList(Rebuild(levels[1..], slots[1..], inner))]
  }

  /** `Rebuild` over the outcome of the inner levels: an error passes
      through. */
  function Wrap(levels: seq<seq<Json>>, slots: seq<nat>, inner: Result<seq<Json>>): Result<seq<Json>>
    requires |levels| == |slots|
    requires forall m :: 0 <= m < |levels| ==> slots[m] < |levels[m]|
  {
    match inner
    case Ok(c) => Ok(Rebuild(levels, slots, c))
    case Err(e) => Err(e)
  }

  /** One more level at the bottom is one more slot written. */
  lemma {:induction false} RebuildSnoc(levels: seq<seq<Json>>, slots: seq<nat>, padded: seq<Json>, j: nat, inner: seq<Json>)
    requires |levels| == |slots| && j < |padded|
    requires forall m :: 0 <= m < |levels| ==> slots[m] < |levels[m]|
    ensures Rebuild(levels + [padded], slots + [j], inner) == Rebuild(levels, slots, padded[j := JList(inner)])
    decreases |levels|
  {
    if levels != [] {
      assert (levels + [padded])[1..] == levels[1..] + [padded];
      assert (slots + [j])[1..] == slots[1..] + [j];
      RebuildSnoc(levels[1..], slots[1..], padded, j, inner);
    }
  }

  /** The walk of a list set has passed the first `k` steps of `path`:
      `levels` and `slots` are the lists and positions passed, and `wk` is
      the list reached, so the whole set is the rest of it on `wk`
      wrapped in those levels. */
  ghost predicate Descended(xs: seq<Json>, path: seq<Json>, value: Json,
                            levels: seq<seq<Json>>, slots: seq<nat>, wk: seq<Json>, k: int)
  {
    && 0 <= k < |path| && |levels| == k && |slots| == k
    && (forall m :: 0 <= m < k ==> slots[m] < |levels[m]|)
    && ListWith(xs, path, value) == Wrap(levels, slots, ListWith(wk, path[k..], value))
    && ListLeft(xs, path, value) == Rebuild(levels, slots, ListLeft(wk, path[k..], value))
  }

  /** Passing one more level: pad it with `[]` and go into its slot. */
  lemma DescendStep(xs: seq<Json>, path: seq<Json>, value: Json,
                    levels: seq<seq<Json>>, slots: seq<nat>, wk: seq<Json>, k: int, i: int, j: nat)
    requires Descended(xs, path, value, levels, slots, wk, k) && k < |path| - 1
    requires NumOf(path[k]) == Some(i) && PyIndex(|Padded(wk, i, JList([]))|, i) == Some(j)
    ensures var padded := Padded(wk, i, JList([]));
      Descended(xs, path, value, levels + [padded], slots + [j],
                if padded[j].JList? then padded[j].items else [], k + 1)
  {
    var padded := Padded(wk, i, JList([]));
    var child := if padded[j].JList? then padded[j].items else [];
    assert path[k..][1..] == path[k + 1..];
    RebuildSnoc(levels, slots, padded, j, ListLeft(child, path[k + 1..], value));
    if ListWith(child, path[k + 1..], value).Ok? {
      RebuildSnoc(levels, slots, padded, j, ListWith(child, path[k + 1..], value).value);
    }
  }

  /** Where the walk stops: a step that is not a number raises TypeError
      and leaves `wk`, an index before the start raises IndexError and
      leaves the padded list, and the last step writes the value. */
  lemma DescendStop(xs: seq<Json>, path: seq<Json>, value: Json,
                    levels: seq<seq<Json>>, slots: seq<nat>, wk: seq<Json>, k: int)
    requires Descended(xs, path, value, levels, slots, wk, k)
    ensures NumOf(path[k]).None? ==>
      ListWith(xs, path, value) == Err(TypeError) && ListLeft(xs, path, value) == Rebuild(levels, slots, wk)
    ensures NumOf(path[k]).Some? ==>
      var i := NumOf(path[k]).value;
      var padded := Padded(wk, i, if k == |path| - 1 then JNull else JList([]));
      PyIndex(|padded|, i).None? ==>
        ListWith(xs, path, value) == Err(IndexError) && ListLeft(xs, path, value) == Rebuild(levels, slots, padded)
    ensures k == |path| - 1 && NumOf(path[k]).Some? ==>
      var i := NumOf(path[k]).value;
      var padded := Padded(wk, i, JNull);
      PyIndex(|padded|, i).Some? ==>
        var done := Rebuild(levels, slots, padded[PyIndex(|padded|, i).value := value]);
        ListWith(xs, path, value) == Ok(done) && ListLeft(xs, path, value) == done
  {
    assert path[k..][0] == path[k];
    assert k == |path| - 1 ==> |path[k..]| == 1;
  }

  /** The list walk of `__set_nested_list_value` on values: the list left
      behind and the error raised, if any. */
  method ListSet(xs: seq<Json>, path: seq<Json>, value: Json) returns (left: seq<Json>, err: Option<Error>)
    requires path != []
    ensures left == ListLeft(xs, path, value)
    ensures err == match ListWith(xs, path, value) case Ok(_) => None case Err(e) => Some(e)
  {
    // levels[m] is the padded list at depth m and slots[m] the position taken there
    var levels: seq<seq<Json>> := [];
    var slots: seq<nat> := [];
    var wk := xs;
    var k := 0;
    assert path[0..] == path;
    while k < |path| - 1
      invariant Descended(xs, path, value, levels, slots, wk, k)
      decreases |path| - k
    {
      DescendStop(xs, path, value, levels, slots, wk, k);
      var i := NumOf(path[k]);
      if i.None? {
        left := Climb(levels, slots, wk);
        return left, Some(TypeError);
      }
      var padded := Pad(wk, i.value, JList([]));
      var j := PyIndex(|padded|, i.value);
      if j.None? {
        left := Climb(levels, slots, padded);
        return left, Some(IndexError);
      }
      DescendStep(xs, path, value, levels, slots, wk, k, i.value, j.value);
      levels := levels + [padded];
      slots := slots + [j.value];
      wk := if padded[j.value].JList? then padded[j.value].items else [];
      k := k + 1;
    }
    DescendStop(xs, path, value, levels, slots, wk, k);
    var i := NumOf(path[k]);
    if i.None? {
      left := Climb(levels, slots, wk);
      return left, Some(TypeError);
    }
    var last := Pad(wk, i.value, JNull);
    var j := PyIndex(|last|, i.value);
    if j.None? {
      left := Climb(levels, slots, last);
      return left, Some(IndexError);
    }
    left := Climb(levels, slots, last[j.value := value]);
    return left, None;
  }

  /** Writing the rebuilt lists back up the levels, innermost first. */
  method Climb(levels: seq<seq<Json>>, slots: seq<nat>, inner: seq<Json>) returns (acc: seq<Json>)
    requires |levels| == |slots|
    requires forall m :: 0 <= m < |levels| ==> slots[m] < |levels[m]|
    ensures acc == Rebuild(levels, slots, inner)
  {
    acc := inner;
    var k := |levels|;
    assert levels[..k] == levels && slots[..k] == slots;
    while k > 0
      invariant 0 <= k <= |levels|
      invariant Rebuild(levels, slots, inner) == Rebuild(levels[..k], slots[..k], acc)
    {
      k := k - 1;
      TakeOneMore(levels, k);
      TakeOneMore(slots, k);
      RebuildSnoc(levels[..k], slots[..k], levels[k], slots[k], acc);
      acc := levels[k][slots[k] := JList(acc)];
    }
  }

  /** The second of two assignments to one key is the one that stays. */
  lemma UpdateTwice<K, V>(m: map<K, V>, k: K, x: V, y: V)
    ensures m[k := x][k := y] == m[k := y]
  {
  }

  /** A prefix one longer ends with the next element. */
  lemma TakeOneMore<T>(s: seq<T>, k: nat)
    requires k < |s|
    ensures s[..k + 1] == s[..k] + [s[k]]
  {
  }

  /** The strings of a path whose steps are all strings. */
  function StrsOf(path: seq<Json>): (r: seq<string>)
    requires forall i :: 0 <= i < |path| ==> path[i].JStr?
    ensures StrKeys(r) == path
  {
    seq(|path|, i requires 0 <= i < |path| => path[i].s)
  }

  /** `set_nested_value(data, value, *keys)`: flatten the keys, then set
      in a dict or a list. Dict keys are strings in this model, so a
      non-string step into a dict is not modelled. */
  method SetNestedValue(data: PyObject, value: Json, keys: seq<Json>) returns (r: Result<PyObject>)
    modifies data
    ensures var path := NormalizeKeys(keys);
      old(data.value).JObj? && (forall i :: 0 <= i < |path| ==> path[i].JStr?) ==>
        (if path == [] then r == Err(IndexError) && data.value == old(data.value)
         else r == Ok(data) && data.value == JObj(DictWith(old(data.value).fields, StrsOf(path), value)))
    ensures var path := NormalizeKeys(keys);
      old(data.value).JObj? && !(forall i :: 0 <= i < |path| ==> path[i].JStr?) ==>
        r == Err(Unmodelled) && data.value == old(data.value)
    ensures var path := NormalizeKeys(keys);
      old(data.value).JList? ==>
        (if path == [] then r == Err(IndexError) && data.value == old(data.value)
         else data.value == JList(ListLeft(old(data.value).items, path, value)) &&
              r == (match ListWith(old(data.value).items, path, value) case Ok(_) => Ok(data) case Err(e) => Err(e)))
    ensures !(old(data.value).JObj? || old(data.value).JList?) ==> r == Err(TypeError) && data.value == old(data.value)
  {
    var path := NormalizeKeys(keys);
    if data.value.JObj? {
      if forall i :: 0 <= i < |path| ==> path[i].JStr? {
        r := SetNestedDictValue(data, StrsOf(path), value);
      } else {
        r := Err(Unmodelled);
      }
    } else if data.value.JList? {
      r := SetNestedListValue(data, path, value);
    } else {
      r := Err(TypeError);
    }
  }

  /** `get_nested_value` reads back what `set_nested_value` wrote: after a
      successful dict or list set along `keys`, a get along the same keys
      yields the value set. */
  lemma GetNestedValueAfterSet(data: Json, keys: seq<Json>, v: Json)
    requires NormalizeKeys(keys) != []
    ensures var path := NormalizeKeys(keys);
      data.JObj? && (forall i :: 0 <= i < |path| ==> path[i].JStr?) ==>
        GetNestedValue(JObj(DictWith(data.fields, StrsOf(path), v)), keys) == Ok(v)
    ensures var path := NormalizeKeys(keys);
      data.JList? && ListWith(data.items, path, v).Ok? ==>
        GetNestedValue(JList(ListWith(data.items, path, v).value), keys) == Ok(v)
  {
    var path := NormalizeKeys(keys);
    if data.JObj? && (forall i :: 0 <= i < |path| ==> path[i].JStr?) {
      DictGetAfterSet(data.fields, StrsOf(path), v);
    }
    if data.JList? && ListWith(data.items, path, v).Ok? {
      ListGetAfterSet(data.items, path, v);
    }
  }
}
