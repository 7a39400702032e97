/**
 * The generic CRUD layer every repository builds on (models/base/entity.repository.ts).
 * A collection is the sequence of its documents in insertion order, which is the
 * order a query without a sort returns them in.
 */
module EntityRepo {
  import opened Wrappers
  import opened Common
  import opened Text
  import opened Pagination
  import opened MongoModel

  /**
   * A filter document: the number of keys it holds (`Object.keys(query).length`, which
   * the empty-query guards read) and the condition it imposes. The two are independent
   * fields: each query builder sets `keyCount` to the number of keys it adds, and nothing
   * ties a zero count to a condition that accepts every document.
   */
  datatype Query<!T> = Query(keyCount: nat, matches: T -> bool)
  {
    predicate IsEmpty() { keyCount == 0 }
  }

  datatype DeleteResult = DeleteResult(acknowledged: bool, deletedCount: nat)

  datatype UpdateResult = UpdateResult(acknowledged: bool, matchedCount: nat, modifiedCount: nat, upsertedCount: nat)

  /** The documents satisfying `p`, in collection order. */
  function Filter<T>(docs: seq<T>, p: T -> bool): (r: seq<T>)
    ensures |r| <= |docs|
    ensures forall i :: 0 <= i < |r| ==> r[i] in docs && p(r[i])
    ensures forall i :: 0 <= i < |docs| && p(docs[i]) ==> docs[i] in r
  {
    if |docs| == 0 then []
    else
      var last := docs[|docs| - 1];
      assert docs == docs[..|docs| - 1] + [last];
      Filter(docs[..|docs| - 1], p) + (if p(last) then [last] else [])
  }

  /** Filtering on a predicate and on its negation splits the collection. */
  lemma {:induction false} FilterSplits<T>(docs: seq<T>, p: T -> bool)
    ensures |Filter(docs, p)| + |Filter(docs, (x: T) => !p(x))| == |docs|
  {
    if |docs| > 0 {
      FilterSplits(docs[..|docs| - 1], p);
    }
  }

  /** The position of the first document satisfying `p`. */
  function FirstIndex<T>(docs: seq<T>, p: T -> bool): (r: Option<nat>)
    ensures r.Some? ==> r.value < |docs| && p(docs[r.value]) && forall j :: 0 <= j < r.value ==> !p(docs[j])
    ensures r.None? ==> forall j :: 0 <= j < |docs| ==> !p(docs[j])
  {
    if |docs| == 0 then None
    else if p(docs[0]) then Some(0)
    else match FirstIndex(docs[1..], p)
      case None => None
      case Some(i) => Some(i + 1)
  }

  /** Predicates that agree on every document find the same first match. */
  lemma {:induction false} FirstIndexAgrees<T>(docs: seq<T>, p: T -> bool, q: T -> bool)
    requires forall i :: 0 <= i < |docs| ==> p(docs[i]) == q(docs[i])
    ensures FirstIndex(docs, p) == FirstIndex(docs, q)
  {
    if |docs| > 0 {
      FirstIndexAgrees(docs[1..], p, q);
    }
  }

  /** The first document satisfying `p` keeps its place when documents are appended. */
  lemma FirstIndexOfExtension<T>(docs: seq<T>, rest: seq<T>, p: T -> bool)
    requires FirstIndex(docs, p).Some?
    ensures FirstIndex(docs + rest, p) == FirstIndex(docs, p)
  {
    var i := FirstIndex(docs, p).value;
    assert forall j :: 0 <= j <= i ==> (docs + rest)[j] == docs[j];
  }

  /** With no document satisfying `p`, the first match among appended documents is theirs. */
  lemma FirstIndexPastPrefix<T>(docs: seq<T>, rest: seq<T>, p: T -> bool)
    requires forall i :: 0 <= i < |docs| ==> !p(docs[i])
    requires FirstIndex(rest, p).Some?
    ensures FirstIndex(docs + rest, p) == Some(|docs| + FirstIndex(rest, p).value)
  {
    assert forall j :: 0 <= j < |docs| ==> (docs + rest)[j] == docs[j];
    assert forall j :: 0 <= j < |rest| ==> (docs + rest)[|docs| + j] == rest[j];
  }

  /** The first document satisfying `p`: what `findOne` returns. */
  function FirstMatch<T>(docs: seq<T>, p: T -> bool): (r: Option<T>)
    ensures r.Some? <==> exists j :: 0 <= j < |docs| && p(docs[j])
    ensures r.Some? ==> r.value in docs && p(r.value)
  {
    match FirstIndex(docs, p)
    case None => None
    case Some(i) => Some(docs[i])
  }

  /** Every document satisfying `p` rewritten by `f`, the others untouched. */
  function MapWhere<T>(docs: seq<T>, p: T -> bool, f: T -> T): (r: seq<T>)
    ensures |r| == |docs|
    ensures forall i :: 0 <= i < |docs| ==> r[i] == (if p(docs[i]) then f(docs[i]) else docs[i])
  {
    if |docs| == 0 then [] else [if p(docs[0]) then f(docs[0]) else docs[0]] + MapWhere(docs[1..], p, f)
  }

  /** The number of documents skipped: the `skip` option, 0 when absent. */
  function Offset(skip: Option<nat>): nat { if skip.Some? then skip.value else 0 }

  /**
   * The page the database returns: skip the offset first, then keep at most `limit`
   * documents; a limit of 0 means no limit.
   */
  function Window<T>(docs: seq<T>, skip: Option<nat>, limit: Option<nat>): (r: seq<T>)
    ensures skip.None? && (limit.None? || limit == Some(0)) ==> r == docs
    ensures limit.Some? && limit.value > 0 ==> |r| <= limit.value
    ensures |r| <= |docs|
    ensures forall i :: 0 <= i < |r| ==> Offset(skip) + i < |docs| && r[i] == docs[Offset(skip) + i]
  {
    var k := Offset(skip);
    var s := if k <= |docs| then k else |docs|;
    var rest := docs[s..];
    assert forall i :: 0 <= i < |rest| ==> s == k && rest[i] == docs[k + i];
    var page := if limit.Some? && 0 < limit.value < |rest| then rest[..limit.value] else rest;
    assert forall i :: 0 <= i < |page| ==> page[i] == rest[i];
    assert forall i :: 0 <= i < |page| ==> k + i < |docs| && page[i] == docs[k + i];
    page
  }

  /** The collection a model uses: the configured name, or the lower-cased class name plus "s". */
  function CollectionName(collection: string, className: string): (r: string)
    ensures collection != "" ==> r == collection
    ensures collection == "" ==> |r| == |className| + 1 && r[|className|] == 's'
    ensures collection == "" ==> forall i :: 0 <= i < |className| ==> r[i] == LowerChar(className[i])
  {
    if collection != "" then collection else ToLower(className) + "s"
  }

  /** JSON.stringify({ requestId }): the comment attached to every query. */
  function CommentPayload(requestId: string): string
  {
    "{\"requestId\":\"" + requestId + "\"}"
  }

  /** `EntityBaseCrud<T>`: one collection of one tenant's database. */
  class EntityBaseCrud<T(==)> {
    var docs: seq<T>
    const className: string
    const collection: string
    const cacheModel: bool
    const useGlobalClient: bool
    /** Reads a document's `_id`. */
    const idOf: T -> Id

    constructor(className: string, collection: string, cacheModel: Option<bool>, useGlobalClient: bool, idOf: T -> Id)
      ensures docs == []
      ensures this.className == className && this.collection == collection && this.idOf == idOf
      ensures this.cacheModel == OrElse(cacheModel, false) && this.useGlobalClient == useGlobalClient
    {
      docs := [];
      this.className := className;
      this.collection := collection;
      this.cacheModel := OrElse(cacheModel, false);
      this.useGlobalClient := useGlobalClient;
      this.idOf := idOf;
    }

    /** The query `{ _id: id }`. */
    function HasId(id: Id): T -> bool
    {
      (d: T) => idOf(d) == id
    }

    /**
     * `getModel`: resolve this repository's model for the context's tenant, keyed by
     * tenant and class unless the repository uses the global client.
     */
    method GetModel(registry: ModelRegistry, context: Context) returns (m: CompiledModel)
      requires registry.Valid()
      modifies registry
      ensures registry.Valid()
      ensures m.customName == CachingKey(useGlobalClient, context.tenantId, className)
      ensures registry.models == old(registry.models)[m.customName := m]
    {
      var props := GetEntityMongoModelProps(className, context.tenantId, CollectionName(collection, className),
        cacheModel, useGlobalClient);
      var getter := new TenantInfoMongoModelGetterService(props);
      m := getter.GetEntityMongoModel(registry);
    }

    /** The documents matching `p`, in collection order. */
    method MatchAll(p: T -> bool) returns (found: seq<T>)
      ensures found == Filter(docs, p)
    {
      found := [];
      var i := 0;
      while i < |docs|
        invariant 0 <= i <= |docs|
        invariant found == Filter(docs[..i], p)
      {
        assert docs[..i + 1][..i] == docs[..i];
        if p(docs[i]) {
          found := found + [docs[i]];
        }
        i := i + 1;
      }
      assert docs[..|docs|] == docs;
    }

    /** `findById`. */
    method FindById(id: Id) returns (r: Option<T>)
      ensures r == FirstMatch(docs, HasId(id))
    {
      r := FindFirst(HasId(id));
    }

    /** The first document matching `p`, scanning in collection order. */
    method FindFirst(p: T -> bool) returns (r: Option<T>)
      ensures r == FirstMatch(docs, p)
    {
      var i := 0;
      while i < |docs|
        invariant 0 <= i <= |docs|
        invariant forall j :: 0 <= j < i ==> !p(docs[j])
      {
        if p(docs[i]) {
          assert FirstIndex(docs, p) == Some(i);
          return Some(docs[i]);
        }
        i := i + 1;
      }
      r := None;
    }

    /** `findAll`: nothing for an empty query, otherwise the page of the matches. */
    method FindAll(q: Query<T>, options: QueryOptions) returns (r: seq<T>)
      ensures q.IsEmpty() ==> r == []
      ensures !q.IsEmpty() ==> r == Window(Filter(docs, q.matches), options.skip, options.limit)
    {
      if q.IsEmpty() {
        return [];
      }
      var found := MatchAll(q.matches);
      r := Window(found, options.skip, options.limit);
    }

    /**
     * `find`: nothing for an empty query unless empty queries are allowed; otherwise
     * the matches after skipping `offset` (default 0), at most `limit` (default 20).
     */
    method Find(q: Query<T>, allowEmptyQuery: Option<bool>, limit: nat := 20, offset: nat := 0) returns (r: seq<T>)
      ensures !OrElse(allowEmptyQuery, false) && q.IsEmpty() ==> r == []
      ensures OrElse(allowEmptyQuery, false) || !q.IsEmpty() ==> r == Window(Filter(docs, q.matches), Some(offset), Some(limit))
    {
      if !OrElse(allowEmptyQuery, false) && q.IsEmpty() {
        return [];
      }
      var found := MatchAll(q.matches);
      r := Window(found, Some(offset), Some(limit));
    }

    /** `findOne`: null for an empty query unless allowed, otherwise the first match. */
    method FindOne(q: Query<T>, allowEmptyQuery: Option<bool>) returns (r: Option<T>)
      ensures !OrElse(allowEmptyQuery, false) && q.IsEmpty() ==> r.None?
      ensures OrElse(allowEmptyQuery, false) || !q.IsEmpty() ==> r == FirstMatch(docs, q.matches)
    {
      if !OrElse(allowEmptyQuery, false) && q.IsEmpty() {
        return None;
      }
      r := FindFirst(q.matches);
    }

    /** `count`: the number of matching documents (an empty query matches all). */
    method Count(q: Query<T>) returns (n: nat)
      ensures n == |Filter(docs, q.matches)|
      ensures n <= |docs|
    {
      var found := MatchAll(q.matches);
      n := |found|;
    }

    /** `create`: append the document. */
    method Create(doc: T) returns (created: T)
      modifies this
      ensures docs == old(docs) + [doc] && created == doc
    {
      docs := docs + [doc];
      created := doc;
    }

    /** `removeOne`: an empty query deletes nothing; otherwise the first match is deleted. */
    method RemoveOne(q: Query<T>) returns (res: DeleteResult)
      modifies this
      ensures res.acknowledged
      ensures q.IsEmpty() || FirstIndex(old(docs), q.matches).None? ==> docs == old(docs) && res.deletedCount == 0
      ensures !q.IsEmpty() && FirstIndex(old(docs), q.matches).Some? ==>
        var i := FirstIndex(old(docs), q.matches).value;
        docs == old(docs)[..i] + old(docs)[i + 1..] && res.deletedCount == 1
    {
      if q.IsEmpty() {
        return DeleteResult(true, 0);
      }
      match FirstIndex(docs, q.matches)
      case None =>
        res := DeleteResult(true, 0);
      case Some(i) =>
        docs := docs[..i] + docs[i + 1..];
        res := DeleteResult(true, 1);
    }

    /** `remove`: an empty query deletes nothing; otherwise every match is deleted. */
    method Remove(q: Query<T>) returns (res: DeleteResult)
      modifies this
      ensures res.acknowledged
      ensures q.IsEmpty() ==> docs == old(docs) && res.deletedCount == 0
      ensures !q.IsEmpty() ==>
        docs == Filter(old(docs), (x: T) => !q.matches(x)) &&
        res.deletedCount == |Filter(old(docs), q.matches)| &&
        |docs| + res.deletedCount == |old(docs)|
    {
      if q.IsEmpty() {
        return DeleteResult(true, 0);
      }
      FilterSplits(docs, q.matches);
      res := DeleteResult(true, |Filter(docs, q.matches)|);
      docs := Filter(docs, (x: T) => !q.matches(x));
    }

    /**
     * `update` (updateMany): an empty query is refused unacknowledged with zero counts;
     * otherwise every match is rewritten.
     */
    method Update(q: Query<T>, f: T -> T) returns (res: UpdateResult)
      modifies this
      ensures q.IsEmpty() ==> docs == old(docs) && res == UpdateResult(false, 0, 0, 0)
      ensures !q.IsEmpty() ==>
        docs == MapWhere(old(docs), q.matches, f) &&
        res == UpdateResult(true, |Filter(old(docs), q.matches)|,
                            |Filter(old(docs), (x: T) => q.matches(x) && f(x) != x)|, 0)
    {
      if q.IsEmpty() {
        return UpdateResult(false, 0, 0, 0);
      }
      res := UpdateResult(true, |Filter(docs, q.matches)|, |Filter(docs, (x: T) => q.matches(x) && f(x) != x)|, 0);
      docs := MapWhere(docs, q.matches, f);
    }

    /**
     * `findOneAndUpdate` with `new: true`: the first match (there is no empty-query
     * guard) is rewritten and returned; without a match nothing changes.
     */
    method FindOneAndUpdate(q: Query<T>, f: T -> T) returns (r: Option<T>)
      modifies this
      ensures FirstIndex(old(docs), q.matches).None? ==> r.None? && docs == old(docs)
      ensures FirstIndex(old(docs), q.matches).Some? ==>
        var i := FirstIndex(old(docs), q.matches).value;
        r == Some(f(old(docs)[i])) && docs == old(docs)[i := f(old(docs)[i])]
    {
      match FirstIndex(docs, q.matches)
      case None =>
        r := None;
      case Some(i) =>
        r := Some(f(docs[i]));
        docs := docs[i := f(docs[i])];
    }
  }

  /** Without pagination options a query returns every match. */
  lemma NoPaginationReturnsAll<T>(docs: seq<T>)
    ensures Window(docs, None, None) == docs
  {
  }
}
