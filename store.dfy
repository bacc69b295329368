/**
 * The document database behind `BaseManager` (dataManager.ts), held in
 * memory: one database per manager, each a list of documents whose
 * `@metadata` carries the document id. Queries become predicates on the
 * document body, restricted to documents without a collection, and answer
 * in store order.
 */
module Raven {
  import opened Wrappers
  import opened Json

  datatype Metadata = Metadata(collection: Option<string>, id: string)

  /** `{ "@collection": null, "@id": "" }`: a document not yet stored. */
  const DEFAULT_META: Metadata := Metadata(None, "")

  datatype Doc<T> = Doc(meta: Metadata, body: T)

  function MetaObject(m: Metadata): Json {
    JObj([("@collection", if m.collection.Some? then JStr(m.collection.value) else JNull),
          ("@id", JStr(m.id))])
  }

  /** A document whose first property is its metadata is patched by its own id. */
  lemma MetaTarget(m: Metadata, rest: Members)
    ensures PatchTarget([(METADATA, MetaObject(m))] + rest) == Some(JStr(m.id))
  {
    var obj := [(METADATA, MetaObject(m))] + rest;
    assert Lookup(obj, METADATA) == Some(MetaObject(m));
    var meta := MetaObject(m).members;
    assert meta[1..] == [("@id", JStr(m.id))];
    assert Lookup(meta[1..], "@id") == Some(JStr(m.id));
  }

  /**
   * Every query of the managers reads `from "@empty"`: it sees only the
   * documents without a collection, and of those the ones whose body
   * satisfies the `where` clause.
   */
  predicate Selected<T>(d: Doc<T>, p: T -> bool) {
    d.meta.collection.None? && p(d.body)
  }

  /** `Results`: the selected documents, in store order. */
  function Matching<T(==)>(docs: seq<Doc<T>>, p: T -> bool): (r: seq<Doc<T>>)
    ensures |r| <= |docs|
    ensures forall i :: 0 <= i < |r| ==> Selected(r[i], p) && r[i] in docs
    ensures forall i :: 0 <= i < |docs| && Selected(docs[i], p) ==> docs[i] in r
    decreases |docs|
  {
    if docs == [] then []
    else (if Selected(docs[0], p) then [docs[0]] else []) + Matching(docs[1..], p)
  }

  /** `Results[0]`, undefined for an empty answer. */
  function First<X>(s: seq<X>): (r: Option<X>)
    ensures r.None? <==> s == []
  {
    if s == [] then None else Some(s[0])
  }

  /** The first selected document. */
  function FirstMatch<T>(docs: seq<Doc<T>>, p: T -> bool): (r: Option<Doc<T>>)
    ensures r.None? <==> forall i :: 0 <= i < |docs| ==> !Selected(docs[i], p)
    ensures r.Some? ==> exists k :: 0 <= k < |docs| && docs[k] == r.value && Selected(docs[k], p)
                                   && forall j :: 0 <= j < k ==> !Selected(docs[j], p)
    decreases |docs|
  {
    if docs == [] then None
    else if Selected(docs[0], p) then Some(docs[0])
    else
      var r := FirstMatch(docs[1..], p);
      assert r.Some? ==> exists k :: 0 <= k < |docs| && docs[k] == r.value && Selected(docs[k], p)
                                   && forall j :: 0 <= j < k ==> !Selected(docs[j], p) by {
        if r.Some? {
          var k :| 0 <= k < |docs[1..]| && docs[1..][k] == r.value && Selected(docs[1..][k], p)
                   && forall j :: 0 <= j < k ==> !Selected(docs[1..][j], p);
          assert docs[k + 1] == r.value;
          assert forall j :: 0 <= j < k + 1 ==> !Selected(docs[j], p) by {
            forall j | 0 <= j < k + 1 ensures !Selected(docs[j], p) {
              if j > 0 { assert docs[j] == docs[1..][j - 1]; }
            }
          }
        }
      }
      r
  }

  /** `get` answers with the first document `getAll` answers with. */
  lemma {:induction false} FirstMatchIsFirstOfAll<T>(docs: seq<Doc<T>>, p: T -> bool)
    ensures FirstMatch(docs, p) == First(Matching(docs, p))
    decreases |docs|
  {
    if docs != [] && !Selected(docs[0], p) {
      FirstMatchIsFirstOfAll(docs[1..], p);
    }
  }

  predicate DistinctIds<T>(docs: seq<Doc<T>>) {
    forall i, j :: 0 <= i < j < |docs| ==> docs[i].meta.id != docs[j].meta.id
  }

  function MaxIdLength<T>(docs: seq<Doc<T>>): (n: nat)
    ensures forall i :: 0 <= i < |docs| ==> |docs[i].meta.id| <= n
    decreases |docs|
  {
    if docs == [] then 0
    else
      var m := MaxIdLength(docs[1..]);
      assert forall i :: 1 <= i < |docs| ==> docs[i] == docs[1..][i - 1];
      if |docs[0].meta.id| > m then |docs[0].meta.id| else m
  }

  /** The id the database gives a document stored with `Id: ""`: one no stored document has. */
  function FreshId<T>(docs: seq<Doc<T>>): (id: string)
    ensures forall i :: 0 <= i < |docs| ==> docs[i].meta.id != id
  {
    seq(MaxIdLength(docs) + 1, _ => '#')
  }

  /** The document `create` stores for `data` in a database holding `docs`. */
  function Stored<T>(data: Doc<T>, docs: seq<Doc<T>>): (d: Doc<T>)
    ensures d.body == data.body && d.meta.collection == data.meta.collection
    ensures forall i :: 0 <= i < |docs| ==> docs[i].meta.id != d.meta.id
  {
    Doc(Metadata(data.meta.collection, FreshId(docs)), data.body)
  }

  /** The documents after the patch of `update`: the target's body replaced, its metadata kept. */
  function Patched<T>(docs: seq<Doc<T>>, id: string, body: T): (r: seq<Doc<T>>)
    ensures |r| == |docs|
    ensures forall i :: 0 <= i < |docs| ==> r[i].meta == docs[i].meta
    ensures forall i :: 0 <= i < |docs| && docs[i].meta.id == id ==> r[i].body == body
    ensures forall i :: 0 <= i < |docs| && docs[i].meta.id != id ==> r[i] == docs[i]
  {
    seq(|docs|, i requires 0 <= i < |docs| =>
          if docs[i].meta.id == id then Doc(docs[i].meta, body) else docs[i])
  }

  /** The documents after `deleteByID(id)`: the others, in their order. */
  function WithoutId<T(==)>(docs: seq<Doc<T>>, id: string): (r: seq<Doc<T>>)
    ensures forall i :: 0 <= i < |r| ==> r[i].meta.id != id && r[i] in docs
    ensures forall i :: 0 <= i < |docs| && docs[i].meta.id != id ==> docs[i] in r
    decreases |docs|
  {
    if docs == [] then []
    else (if docs[0].meta.id != id then [docs[0]] else []) + WithoutId(docs[1..], id)
  }

  /** Deleting keeps the stored ids distinct. */
  lemma {:induction false} WithoutIdDistinct<T>(docs: seq<Doc<T>>, id: string)
    requires DistinctIds(docs)
    ensures DistinctIds(WithoutId(docs, id))
    decreases |docs|
  {
    if docs != [] {
      var rest := WithoutId(docs[1..], id);
      WithoutIdDistinct(docs[1..], id);
      if docs[0].meta.id != id {
        var r := [docs[0]] + rest;
        forall j | 0 < j < |r| ensures r[0].meta.id != r[j].meta.id {
          assert r[j] == rest[j - 1];
          assert rest[j - 1] in docs[1..];
          var k :| 0 <= k < |docs[1..]| && docs[1..][k] == rest[j - 1];
          assert docs[k + 1] == r[j];
        }
      }
    }
  }

  function FirstWithId<T>(docs: seq<Doc<T>>, id: string): (r: Option<Doc<T>>)
    ensures r.None? <==> forall i :: 0 <= i < |docs| ==> docs[i].meta.id != id
    ensures r.Some? ==> r.value.meta.id == id && exists k :: 0 <= k < |docs| && docs[k] == r.value
    decreases |docs|
  {
    if docs == [] then None
    else if docs[0].meta.id == id then Some(docs[0])
    else
      var r := FirstWithId(docs[1..], id);
      assert r.Some? ==> exists k :: 0 <= k < |docs| && docs[k] == r.value by {
        if r.Some? {
          var k :| 0 <= k < |docs[1..]| && docs[1..][k] == r.value;
          assert docs[k + 1] == r.value;
        }
      }
      r
  }

  /** With distinct ids, `getByID` finds the one document that has the id. */
  lemma GetByIdUnique<T>(docs: seq<Doc<T>>, id: string, k: nat)
    requires DistinctIds(docs) && k < |docs| && docs[k].meta.id == id
    ensures FirstWithId(docs, id) == Some(docs[k])
  {
    var r := FirstWithId(docs, id);
    var k' :| 0 <= k' < |docs| && docs[k'] == r.value;
    assert k' == k;
  }

  /** A manager's database; `docs` is what the server holds. */
  class BaseManager<T(==)> {
    const dbName: string
    var docs: seq<Doc<T>>

    predicate Valid()
      reads this
    {
      DistinctIds(docs)
    }

    constructor (dbName: string, existing: seq<Doc<T>>)
      requires DistinctIds(existing)
      ensures this.dbName == dbName && docs == existing && Valid()
    {
      this.dbName := dbName;
      docs := existing;
    }

    /** `get(query)`: the first answer, or undefined. */
    method Get(p: T -> bool) returns (r: Option<Doc<T>>)
      ensures r == FirstMatch(docs, p)
    {
      FirstMatchIsFirstOfAll(docs, p);
      var all := GetAll(p);
      r := First(all);
    }

    /** `getAll(query)`: every answer. */
    method GetAll(p: T -> bool) returns (r: seq<Doc<T>>)
      ensures r == Matching(docs, p)
    {
      r := Matching(docs, p);
    }

    /** `create(data)`: a `PUT` with `Id: ""`, so the database picks a new id. */
    method Create(data: Doc<T>)
      requires Valid()
      modifies this
      ensures Valid()
      ensures docs == old(docs) + [Stored(data, old(docs))]
    {
      var id := FreshId(docs);
      docs := docs + [Doc(Metadata(data.meta.collection, id), data.body)];
    }

    /** `update(data)`: the patch of the document `data["@metadata"]["@id"]`. */
    method Update(data: Doc<T>)
      modifies this
      ensures docs == Patched(old(docs), data.meta.id, data.body)
      ensures old(Valid()) ==> Valid()
    {
      docs := Patched(docs, data.meta.id, data.body);
    }

    /** `deleteByID(id)`: the `DELETE` of the document with that id. */
    method DeleteById(id: string)
      modifies this
      ensures docs == WithoutId(old(docs), id)
      ensures old(Valid()) ==> Valid()
    {
      if Valid() {
        WithoutIdDistinct(docs, id);
      }
      docs := WithoutId(docs, id);
    }

    method GetById(id: string) returns (r: Option<Doc<T>>)
      ensures r == FirstWithId(docs, id)
    {
      r := FirstWithId(docs, id);
    }
  }
}
