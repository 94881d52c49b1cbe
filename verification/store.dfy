/**
 The document store as the ledger sees it: a collection keeps its documents
 by identifier (`findById`) and lists them in the order they were inserted
 (`find`, the store's natural order). Saving a new document inserts it under
 a freshly generated identifier; saving a loaded document replaces its body.
 */
module Store {

  /** Identifier of a stored document (an ObjectId in the store). */
  type Id = nat

  datatype Option<+T> = None | Some(value: T)

  /** A document together with its identifier, as `find` and `findById` return it. */
  datatype Doc<T> = Doc(id: Id, body: T)

  /** One collection: the documents by identifier, and the identifiers in insertion order. */
  datatype Collection<T> = Collection(docs: map<Id, T>, order: seq<Id>)

  /** The insertion order lists every stored identifier exactly once. */
  ghost predicate WellFormed<T>(c: Collection<T>) {
    && (forall i :: 0 <= i < |c.order| ==> c.order[i] in c.docs)
    && (forall k :: k in c.docs ==> k in c.order)
    && (forall i, j :: 0 <= i < j < |c.order| ==> c.order[i] != c.order[j])
  }

  function EmptyCollection<T>(): (c: Collection<T>)
    ensures WellFormed(c)
    ensures c.docs == map[] && c.order == []
  {
    Collection(map[], [])
  }

  /** `findById`: the document stored under `id`; None when the store answers null. */
  function FindById<T>(c: Collection<T>, id: Option<Id>): Option<Doc<T>> {
    if id.Some? && id.value in c.docs then Some(Doc(id.value, c.docs[id.value])) else None
  }

  /** `find`: every document of the collection, in insertion order. */
  function List<T>(c: Collection<T>): seq<Doc<T>>
    requires WellFormed(c)
  {
    seq(|c.order|, i requires 0 <= i < |c.order| => Doc(c.order[i], c.docs[c.order[i]]))
  }

  /** The listing holds every stored document, exactly once, and nothing else. */
  lemma ListHoldsExactlyTheDocuments<T>(c: Collection<T>)
    requires WellFormed(c)
    ensures forall i :: 0 <= i < |List(c)| ==> List(c)[i].id in c.docs && List(c)[i].body == c.docs[List(c)[i].id]
    ensures forall k :: k in c.docs ==> Doc(k, c.docs[k]) in List(c)
    ensures forall i, j :: 0 <= i < j < |List(c)| ==> List(c)[i].id != List(c)[j].id
  {
    var r := List(c);
    forall k | k in c.docs
      ensures Doc(k, c.docs[k]) in r
    {
      var i :| 0 <= i < |c.order| && c.order[i] == k;
      assert r[i] == Doc(k, c.docs[k]);
    }
  }

  /** `findById` finds a document exactly when `find` lists one with that identifier, and finds that one. */
  lemma FindByIdAgreesWithList<T>(c: Collection<T>, k: Id)
    requires WellFormed(c)
    ensures FindById(c, Some(k)).Some? <==> exists i :: 0 <= i < |List(c)| && List(c)[i].id == k
    ensures forall i :: 0 <= i < |List(c)| && List(c)[i].id == k ==> FindById(c, Some(k)) == Some(List(c)[i])
  {
    if k in c.docs {
      var i :| 0 <= i < |c.order| && c.order[i] == k;
      assert List(c)[i].id == k;
    }
  }

  /** `save` of a new document under an identifier the collection does not hold yet. */
  function Insert<T>(c: Collection<T>, id: Id, body: T): (r: Collection<T>)
    requires WellFormed(c) && id !in c.docs
    ensures WellFormed(r)
    ensures r.docs == c.docs[id := body]
    ensures List(r) == List(c) + [Doc(id, body)]
  {
    var r := Collection(c.docs[id := body], c.order + [id]);
    assert forall i :: 0 <= i < |c.order| ==> c.order[i] != id;
    assert WellFormed(r);
    var before, after := List(c), List(r);
    assert forall i :: 0 <= i < |before| ==> after[i] == before[i];
    assert after == before + [Doc(id, body)];
    r
  }

  /** `save` of a loaded document: its body is replaced and its place in the order kept. */
  function Replace<T>(c: Collection<T>, id: Id, body: T): (r: Collection<T>)
    requires WellFormed(c) && id in c.docs
    ensures WellFormed(r)
    ensures r.order == c.order && r.docs.Keys == c.docs.Keys
    ensures r.docs[id] == body
    ensures forall k :: k in c.docs && k != id ==> r.docs[k] == c.docs[k]
  {
    Collection(c.docs[id := body], c.order)
  }
}
