/** Records (fines, credits, fetched accounts) are Python dicts shared by
    reference: the same object sits in the working list, in a filter's
    output and in the rejected-records list, and actions write into it. */
module Records {
  import opened Wrappers
  import opened PyJson

  /** A mutable string-keyed dict, compared by identity. */
  class Record {
    var fields: map<string, Json>

    constructor (fields: map<string, Json>)
      ensures this.fields == fields
    {
      this.fields := fields;
    }
  }

  /** No object occurs twice in the list. Every record list of the
      pipeline is a decoded JSON array or a sub-list of one. */
  predicate Distinct(rs: seq<Record>)
    decreases |rs|
  {
    rs == [] || (rs[|rs| - 1] !in rs[..|rs| - 1] && Distinct(rs[..|rs| - 1]))
  }

  /** In a list without repeats, the record at `i` is at no other index. */
  lemma {:induction false} DistinctAt(rs: seq<Record>, i: int)
    requires Distinct(rs) && 0 <= i < |rs|
    ensures forall j :: 0 <= j < |rs| && j != i ==> rs[j] != rs[i]
    decreases |rs|
  {
    var k := |rs| - 1;
    var w := rs[..k];
    if i < k {
      DistinctAt(w, i);
      assert w[i] == rs[i];
    }
    forall j | 0 <= j < |rs| && j != i
      ensures rs[j] != rs[i]
    {
      if j < k && i < k {
        assert w[j] == rs[j];
      } else if j < k {
        assert rs[j] == w[j] && w[j] in w;
      } else {
        assert rs[i] == w[i] && w[i] in w;
      }
    }
  }

  /** The dict contents of a record list. */
  function Contents(rs: seq<Record>): (r: seq<map<string, Json>>)
    reads rs
    ensures |r| == |rs| && forall i :: 0 <= i < |rs| ==> r[i] == rs[i].fields
  {
    seq(|rs|, i requires 0 <= i < |rs| reads rs => rs[i].fields)
  }

  /** Dicts as a JSON list of objects: what a list of records looks like
      in a JSON document. */
  function ObjList(vals: seq<map<string, Json>>): (r: Json)
    ensures r.JList? && |r.items| == |vals|
    ensures forall i :: 0 <= i < |vals| ==> r.items[i] == JObj(vals[i])
  {
    JList(seq(|vals|, i requires 0 <= i < |vals| => JObj(vals[i])))
  }

  /** Decoding a JSON array into record objects: one fresh record per
      element, in order. An element that is not an object is refused. */
  method FromJson(v: Json) returns (r: Result<seq<Record>>)
    ensures r.Ok? ==> v.JList? && |r.value| == |v.items| && Distinct(r.value)
    ensures r.Ok? ==> forall i :: 0 <= i < |v.items| ==> v.items[i] == JObj(r.value[i].fields)
    ensures r.Ok? ==> forall i :: 0 <= i < |r.value| ==> fresh(r.value[i])
    ensures r.Err? <==> !v.JList? || exists i :: 0 <= i < |v.items| && !v.items[i].JObj?
  {
    if !v.JList? {
      return Err(TypeError);
    }
    var out: seq<Record> := [];
    var i := 0;
    while i < |v.items|
      invariant 0 <= i <= |v.items| && |out| == i && Distinct(out)
      invariant forall j :: 0 <= j < i ==> v.items[j] == JObj(out[j].fields) && fresh(out[j])
    {
      if !v.items[i].JObj? {
        return Err(TypeError);
      }
      var rec := new Record(v.items[i].fields);
      assert Distinct(out + [rec]) by {
        assert (out + [rec])[..|out|] == out;
        assert rec !in out;
      }
      out := out + [rec];
      i := i + 1;
    }
    return Ok(out);
  }
}
