/** The values the program handles: decoded JSON (and YAML) documents, with
    the Python operators the pipeline applies to them. Numbers are integers
    (amounts are compared and summed, never rounded, in this model). */
module PyJson {
  import opened Wrappers
  import opened PyStrings

  datatype Json =
    | JNull
    | JBool(b: bool)
    | JNum(n: int)
    | JStr(s: string)
    | JList(items: seq<Json>)
    | JObj(fields: map<string, Json>)

  /** A decoded JSON object: a Python dict with string keys. */
  type Dict = map<string, Json>

  /** Python's `False`, which the rule engine also uses as its "field is
      absent" marker. */
  const Absent: Json := JBool(false)

  /** `v is False`: identity with the `False` singleton (0 is not it). */
  predicate IsFalse(v: Json) { v == JBool(false) }

  /** `bool(v)` */
  predicate Truthy(v: Json)
  {
    match v
    case JNull => false
    case JBool(b) => b
    case JNum(n) => n != 0
    case JStr(s) => s != ""
    case JList(xs) => xs != []
    case JObj(m) => |m| != 0
  }

  /** The integer a value stands for in arithmetic and comparison:
      `bool` is a subclass of `int` in Python. */
  function NumOf(v: Json): Option<int>
  {
    match v
    case JBool(b) => Some(if b then 1 else 0)
    case JNum(n) => Some(n)
    case _ => None
  }

  /** `a == b`, which identifies `True` with 1 and `False` with 0, also
      inside lists and dicts. */
  predicate PyEq(a: Json, b: Json)
    decreases a
  {
    match a
    case JNull => b.JNull?
    case JBool(_) => NumOf(b).Some? && NumOf(a) == NumOf(b)
    case JNum(_) => NumOf(b).Some? && NumOf(a) == NumOf(b)
    case JStr(s) => b == JStr(s)
    case JList(xs) =>
      b.JList? && |xs| == |b.items| && forall i :: 0 <= i < |xs| ==> PyEq(xs[i], b.items[i])
    case JObj(m) =>
      b.JObj? && m.Keys == b.fields.Keys && forall k :: k in m ==> PyEq(m[k], b.fields[k])
  }

  lemma {:induction false} PyEqReflexive(a: Json)
    ensures PyEq(a, a)
    decreases a
  {
    match a
    case JList(xs) =>
      forall i | 0 <= i < |xs| ensures PyEq(xs[i], xs[i]) { PyEqReflexive(xs[i]); }
    case JObj(m) =>
      forall k | k in m ensures PyEq(m[k], m[k]) { PyEqReflexive(m[k]); }
    case _ =>
  }

  /** The position `i` denotes in a sequence of length `n`, counting from
      the end when negative. */
  function PyIndex(n: nat, i: int): (r: Option<nat>)
    ensures r.Some? <==> -(n as int) <= i < n
    ensures r.Some? ==> r.value < n && (r.value == i || r.value == n + i)
  {
    if 0 <= i < n then Some(i) else if -(n as int) <= i < 0 then Some(n + i) else None
  }

  /** `c[k]` */
  function Subscript(c: Json, k: Json): (r: Result<Json>)
    ensures c.JObj? && k.JStr? ==> (r.Ok? <==> k.s in c.fields)
    ensures c.JObj? && k.JStr? && k.s in c.fields ==> r == Ok(c.fields[k.s])
    ensures (c.JNull? || c.JBool? || c.JNum?) ==> r == Err(TypeError)
  {
    match c
    case JObj(m) =>
      (match k
       case JStr(s) => if s in m then Ok(m[s]) else Err(KeyError)
       case JList(_) => Err(TypeError)
       case JObj(_) => Err(TypeError)
       case _ => Err(KeyError))
    case JList(xs) =>
      (match NumOf(k)
       case Some(i) => (match PyIndex(|xs|, i) case Some(j) => Ok(xs[j]) case None => Err(IndexError))
       case None => Err(TypeError))
    case JStr(s) =>
      (match NumOf(k)
       case Some(i) => (match PyIndex(|s|, i) case Some(j) => Ok(JStr([s[j]])) case None => Err(IndexError))
       case None => Err(TypeError))
    case _ => Err(TypeError)
  }

  /** `c[key]` for a string key. */
  function Index(c: Json, key: string): Result<Json>
  {
    Subscript(c, JStr(key))
  }

  /** `x in c` */
  function In(x: Json, c: Json): (r: Result<bool>)
    ensures c.JList? ==> r == Ok(exists i :: 0 <= i < |c.items| && PyEq(x, c.items[i]))
    ensures c.JObj? && x.JStr? ==> r == Ok(x.s in c.fields)
  {
    match c
    case JList(xs) => Ok(exists i :: 0 <= i < |xs| && PyEq(x, xs[i]))
    case JObj(m) =>
      (match x
       case JStr(s) => Ok(s in m)
       case JList(_) => Err(TypeError)
       case JObj(_) => Err(TypeError)
       case _ => Ok(false))
    case JStr(s) =>
      (match x
       case JStr(t) => Ok(IsSubstring(t, s))
       case _ => Err(TypeError))
    case _ => Err(TypeError)
  }

  /** `str(v)`. The `repr` text of a list or dict is not computed. */
  function Str(v: Json): (r: Result<string>)
    ensures v.JStr? ==> r == Ok(v.s)
    ensures (v.JList? || v.JObj?) <==> r.Err?
  {
    match v
    case JNull => Ok("None")
    case JBool(b) => Ok(if b then "True" else "False")
    case JNum(n) => Ok(IntToDecimal(n))
    case JStr(s) => Ok(s)
    case _ => Err(Unmodelled)
  }

  /** `int(v)` */
  function IntOf(v: Json): (r: Result<int>)
    ensures v.JNum? ==> r == Ok(v.n)
  {
    match v
    case JNum(n) => Ok(n)
    case JBool(b) => Ok(if b then 1 else 0)
    case JStr(s) => (match ParseInt(s) case Some(n) => Ok(n) case None => Err(ValueError))
    case _ => Err(TypeError)
  }

  /** `len(v)` */
  function Len(v: Json): (r: Result<nat>)
  {
    match v
    case JStr(s) => Ok(|s|)
    case JList(xs) => Ok(|xs|)
    case JObj(m) => Ok(|m|)
    case _ => Err(TypeError)
  }

  /** `v` used as a `str` (calling a string method on it). */
  function AsStr(v: Json): Result<string>
  {
    if v.JStr? then Ok(v.s) else Err(AttributeError)
  }

  /** `v` used as a `dict` (calling `.get` or `.update` on it). */
  function AsObj(v: Json): Result<map<string, Json>>
  {
    if v.JObj? then Ok(v.fields) else Err(AttributeError)
  }

  /** `d[key]` on a string-keyed dict. */
  function Lookup(d: map<string, Json>, key: string): (r: Result<Json>)
    ensures r.Ok? <==> key in d
    ensures key in d ==> r.value == d[key]
    ensures key !in d ==> r.error == KeyError
  {
    if key in d then Ok(d[key]) else Err(KeyError)
  }

  /** `d.get(key, default)` on a dict. */
  function Get(d: map<string, Json>, key: string, default: Json): Json
  {
    if key in d then d[key] else default
  }

  /** The elements a `for` loop visits when its body begins by subscripting
      each element with a string key (`for b in v: b["type"] ...`).
      A list yields its items. Iterating a dict or a string yields strings,
      and a string subscripted by a string raises TypeError, so a non-empty
      dict or string fails at its first element; an empty one runs no
      iteration. Anything else is not iterable. */
  function KeyedElements(v: Json): (r: Result<seq<Json>>)
    ensures v.JList? ==> r == Ok(v.items)
    ensures r.Ok? ==> v.JList? || r.value == []
  {
    match v
    case JList(xs) => Ok(xs)
    case JObj(m) => if |m| == 0 then Ok([]) else Err(TypeError)
    case JStr(s) => if s == "" then Ok([]) else Err(TypeError)
    case _ => Err(TypeError)
  }

  /** The elements a `for` loop visits: a list's items, a string's
      one-character strings. A dict yields its keys in insertion order,
      which a map does not keep, so only the empty dict is covered;
      anything else is not iterable. */
  function Iterated(v: Json): (r: Result<seq<Json>>)
    ensures v.JList? ==> r == Ok(v.items)
    ensures v.JStr? ==>
      r.Ok? && |r.value| == |v.s| && forall i :: 0 <= i < |v.s| ==> r.value[i] == JStr([v.s[i]])
    ensures (v.JNull? || v.JBool? || v.JNum?) ==> r == Err(TypeError)
  {
    match v
    case JList(xs) => Ok(xs)
    case JStr(s) => Ok(seq(|s|, i requires 0 <= i < |s| => JStr([s[i]])))
    case JObj(m) => if |m| == 0 then Ok([]) else Err(Unmodelled)
    case _ => Err(TypeError)
  }
}
