/**
 * The document database as the storefront uses it: a collection of documents
 * with ids, `add`, `update`, `set` with merge, `delete`, and equality queries.
 * Query results come in the collection's stored order.
 */
module Firestore {
  import opened JsValue
  import opened Wrappers
  import opened Seqs

  /** A stored document: its id and its fields. */
  datatype Doc = Doc(id: string, data: map<string, Value>)

  /** `{ id: d.id, ...d.data() }`, the shape the pages read documents in (a stored field named `id` wins). */
  function AsObject(d: Doc): (r: Value)
    ensures r.Obj?
    ensures forall k :: k in d.data ==> Get(r, k) == d.data[k]
    ensures "id" !in d.data ==> Get(r, "id") == Str(d.id)
  {
    Obj(map["id" := Str(d.id)] + d.data)
  }

  predicate DistinctIds(docs: seq<Doc>) {
    forall i, j :: 0 <= i < j < |docs| ==> docs[i].id != docs[j].id
  }

  predicate HasId(docs: seq<Doc>, id: string) {
    exists i :: 0 <= i < |docs| && docs[i].id == id
  }

  /** `where(field, '==', value)`: the documents whose field holds the value, in stored order. */
  function Where(docs: seq<Doc>, field: string, value: Value): (r: seq<Doc>)
    ensures forall d :: d in r <==> d in docs && field in d.data && StrictEq(d.data[field], value)
    ensures |r| <= |docs|
    ensures Subseq(r, docs)
  {
    if docs == [] then []
    else
      var rest := Where(docs[1..], field, value);
      var d := docs[0];
      if field in d.data && StrictEq(d.data[field], value) then
        assert ([d] + rest)[1..] == rest;
        [d] + rest
      else rest
  }

  /** A query returns every occurrence of a matching document and none of the others. */
  lemma {:induction false} WhereCounts(docs: seq<Doc>, field: string, value: Value)
    ensures forall d :: multiset(Where(docs, field, value))[d] ==
                        (if field in d.data && StrictEq(d.data[field], value) then multiset(docs)[d] else 0)
  {
    if docs != [] {
      WhereCounts(docs[1..], field, value);
      var rest := Where(docs[1..], field, value);
      assert docs == [docs[0]] + docs[1..];
      assert multiset(docs) == multiset([docs[0]]) + multiset(docs[1..]);
      if field in docs[0].data && StrictEq(docs[0].data[field], value) {
        assert multiset([docs[0]] + rest) == multiset([docs[0]]) + multiset(rest);
      }
    }
  }

  /**
   * A document with its fields deep-merged with `fields`, as `set(fields, { merge: true })` does:
   * nested objects are merged field by field, every other value is replaced.
   */
  function DeepMerge(a: Value, b: Value): Value
    decreases b
  {
    if a.Obj? && b.Obj? then
      Obj(map k | k in a.fields.Keys + b.fields.Keys ::
        if k in b.fields then (if k in a.fields then DeepMerge(a.fields[k], b.fields[k]) else b.fields[k])
        else a.fields[k])
    else b
  }

  /** The stored documents after `update(id, fields)`: the document's listed fields replaced, nothing else touched. */
  function Updated(docs: seq<Doc>, id: string, fields: map<string, Value>): (r: seq<Doc>)
    ensures |r| == |docs|
    ensures forall i :: 0 <= i < |docs| ==>
      r[i] == (if docs[i].id == id then Doc(id, docs[i].data + fields) else docs[i])
  {
    if docs == [] then []
    else
      var d := docs[0];
      [if d.id == id then Doc(id, d.data + fields) else d] + Updated(docs[1..], id, fields)
  }

  /** The stored documents after `delete(id)`. */
  function Removed(docs: seq<Doc>, id: string): (r: seq<Doc>)
    ensures forall d :: d in r <==> d in docs && d.id != id
    ensures !HasId(r, id)
  {
    if docs == [] then []
    else if docs[0].id == id then Removed(docs[1..], id)
    else [docs[0]] + Removed(docs[1..], id)
  }

  /** The fields of the document with this id, if there is one. */
  function Lookup(docs: seq<Doc>, id: string): (r: Option<map<string, Value>>)
    ensures r.Some? <==> HasId(docs, id)
    ensures r.Some? ==> Doc(id, r.value) in docs
  {
    if docs == [] then None
    else if docs[0].id == id then Some(docs[0].data)
    else
      var r := Lookup(docs[1..], id);
      assert HasId(docs[1..], id) ==> HasId(docs, id);
      assert HasId(docs, id) && docs[0].id != id ==> HasId(docs[1..], id);
      r
  }

  /**
   * The stored documents after `set(fields, { merge: true })`: the document is
   * deep-merged with `fields`, or created at the end when missing.
   */
  function Merged(docs: seq<Doc>, id: string, fields: map<string, Value>): (r: seq<Doc>)
    ensures HasId(docs, id) ==> |r| == |docs| && forall i :: 0 <= i < |docs| ==>
      r[i] == (if docs[i].id == id then Doc(id, DeepMerge(Obj(docs[i].data), Obj(fields)).fields) else docs[i])
    ensures !HasId(docs, id) ==> r == docs + [Doc(id, fields)]
    ensures DistinctIds(docs) ==> DistinctIds(r)
    ensures HasId(r, id) && forall k :: HasId(docs, k) ==> HasId(r, k)
  {
    if HasId(docs, id) then
      var r := seq(|docs|, i requires 0 <= i < |docs| =>
        if docs[i].id == id then Doc(id, DeepMerge(Obj(docs[i].data), Obj(fields)).fields) else docs[i]);
      assert forall i :: 0 <= i < |r| ==> r[i].id == docs[i].id;
      r
    else
      assert forall k :: HasId(docs, k) ==> HasId(docs + [Doc(id, fields)], k) by {
        forall k | HasId(docs, k) ensures HasId(docs + [Doc(id, fields)], k) {
          var i :| 0 <= i < |docs| && docs[i].id == k;
          assert (docs + [Doc(id, fields)])[i] == docs[i];
        }
      }
      assert (docs + [Doc(id, fields)])[|docs|].id == id;
      docs + [Doc(id, fields)]
  }

  /**
   * The database refuses to write a document with a field whose value is `undefined`
   * (neither SDK is configured with `ignoreUndefinedProperties`).
   */
  predicate NoUndefinedField(fields: map<string, Value>) {
    forall k :: k in fields ==> !fields[k].Undefined?
  }

  /** One collection of documents. */
  class Collection {
    var docs: seq<Doc>

    ghost predicate Valid()
      reads this
    {
      DistinctIds(docs)
    }

    constructor ()
      ensures Valid() && docs == []
    {
      docs := [];
    }

    predicate Has(id: string)
      reads this
    {
      HasId(docs, id)
    }

    /** `add(data)`: a new document under a fresh id. */
    method Add(id: string, data: map<string, Value>)
      requires Valid() && !Has(id)
      modifies this
      ensures Valid() && docs == old(docs) + [Doc(id, data)]
    {
      docs := docs + [Doc(id, data)];
    }

    /** `update(id, fields)`: merges the fields into an existing document; fails, changing nothing, when it does not exist. */
    method Update(id: string, fields: map<string, Value>) returns (ok: bool)
      requires Valid()
      modifies this
      ensures Valid()
      ensures ok == old(Has(id))
      ensures docs == (if ok then Updated(old(docs), id, fields) else old(docs))
    {
      ok := HasId(docs, id);
      if ok {
        docs := Updated(docs, id, fields);
        assert forall i :: 0 <= i < |docs| ==> docs[i].id == old(docs)[i].id;
      }
    }

    /** `set(fields, { merge: true })` */
    method SetMerge(id: string, fields: map<string, Value>)
      requires Valid()
      modifies this
      ensures Valid()
      ensures docs == Merged(old(docs), id, fields)
    {
      if HasId(docs, id) {
        var i := 0;
        var out: seq<Doc> := [];
        while i < |docs|
          invariant 0 <= i <= |docs| && |out| == i
          invariant forall j :: 0 <= j < i ==>
            out[j] == (if docs[j].id == id then Doc(id, DeepMerge(Obj(docs[j].data), Obj(fields)).fields) else docs[j])
        {
          var d := docs[i];
          out := out + [if d.id == id then Doc(id, DeepMerge(Obj(d.data), Obj(fields)).fields) else d];
          i := i + 1;
        }
        docs := out;
      } else {
        docs := docs + [Doc(id, fields)];
      }
    }

    /** `delete(id)` */
    method Delete(id: string)
      requires Valid()
      modifies this
      ensures Valid() && docs == Removed(old(docs), id)
    {
      docs := Removed(docs, id);
      assert forall i, j :: 0 <= i < j < |docs| ==> docs[i].id != docs[j].id by {
        RemovedKeepsOrder(old(docs), id);
      }
    }
  }

  /** Deleting keeps the other documents in their order, so ids stay distinct. */
  lemma {:induction false} RemovedKeepsOrder(docs: seq<Doc>, id: string)
    requires DistinctIds(docs)
    ensures DistinctIds(Removed(docs, id))
  {
    if docs != [] {
      RemovedKeepsOrder(docs[1..], id);
      var r := Removed(docs[1..], id);
      assert forall d :: d in r ==> d in docs[1..];
      assert forall d :: d in docs[1..] ==> d.id != docs[0].id;
    }
  }
}
