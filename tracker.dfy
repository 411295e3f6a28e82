/** The resource tracker record, its composite key, and the VM dumper. */
module Tracker {
  import opened Wrappers
  import opened Provider

  /** The `Type` string of a VM tracker. */
  const TypeVM: string := "VM"

  /** The closed set of resource kinds; a kind selects the record's Deleter and Dumper. */
  datatype Kind = VM

  /** The provider object a record owns, typed per kind. */
  datatype Handle<R> = VMHandle(vm: VirtualMachine<R>)

  /** One discovered resource: tracker.Resource with Deleter/Dumper given by `kind`. */
  datatype Resource<R> = Resource(name: string, id: string, typ: string, kind: Kind, obj: Handle<R>)

  /** GetResourceTrackerKey: the record's type, a colon, then its ID. */
  function Key<R>(t: Resource<R>): (k: string)
    ensures |k| == |t.typ| + 1 + |t.id| && k[|t.typ|] == ':'
  {
    t.typ + ":" + t.id
  }

  /** The key holds the type, then a colon at position |type|, then the ID. */
  lemma KeyLayout<R>(t: Resource<R>)
    ensures |Key(t)| == |t.typ| + 1 + |t.id|
    ensures Key(t)[..|t.typ|] == t.typ && Key(t)[|t.typ|] == ':' && Key(t)[|t.typ| + 1..] == t.id
  {
  }

  /**
   * The key identifies (type, ID) exactly when no type contains a colon:
   * equal keys mean equal type and ID, and records of different types, or
   * of different IDs, never share a key.
   */
  lemma KeyInjective<R>(a: Resource<R>, b: Resource<R>)
    requires ':' !in a.typ && ':' !in b.typ
    ensures Key(a) == Key(b) <==> a.typ == b.typ && a.id == b.id
  {
    KeyLayout(a);
    KeyLayout(b);
  }

  /** Without the colon restriction the key is ambiguous: ("a:", "b") and ("a", ":b") collide. */
  lemma KeyAmbiguousWithColon<R>(h: Handle<R>)
    ensures var a := Resource("x", "b", "a:", VM, h);
            var b := Resource("x", ":b", "a", VM, h);
            Key(a) == Key(b) && a.typ != b.typ
  {
    var a := Resource("x", "b", "a:", VM, h);
    var b := Resource("x", ":b", "a", VM, h);
    assert Key(a) == ['a', ':', ':', 'b'] == Key(b);
  }

  /** A value in a dump snapshot: a string field or the raw provider object. */
  datatype Field<R> = Text(s: string) | Raw(obj: Handle<R>)

  /** DumpVMInfo: a snapshot holding exactly `id`, `type` and `raw`, and never an error. */
  function DumpVMInfo<R>(r: Resource<R>): (out: (map<string, Field<R>>, Option<Error>))
    ensures out.1 == None
    ensures out.0.Keys == {"id", "type", "raw"}
    ensures out.0["id"] == Text(r.id) && out.0["type"] == Text(r.typ) && out.0["raw"] == Raw(r.obj)
  {
    var data := map[];
    var data := data["id" := Text(r.id)];
    var data := data["type" := Text(r.typ)];
    var data := data["raw" := Raw(r.obj)];
    (data, None)
  }

  /** The record's Dumper, selected by its kind: whatever the kind, the snapshot has id, type and raw, and no error. */
  function Dump<R>(r: Resource<R>): (out: (map<string, Field<R>>, Option<Error>))
    ensures out.1 == None
    ensures out.0.Keys == {"id", "type", "raw"}
    ensures out.0["id"] == Text(r.id) && out.0["type"] == Text(r.typ)
  {
    match r.kind
    case VM => DumpVMInfo(r)
  }

  /** A snapshot carries the record's key: its `type` field, a colon, its `id` field. */
  lemma DumpCarriesKey<R>(r: Resource<R>)
    ensures var snap := Dump(r).0;
            "type" in snap && "id" in snap && snap["type"].Text? && snap["id"].Text? &&
            Key(r) == snap["type"].s + ":" + snap["id"].s
  {
  }
}
