/** Queries of query.go: a query is the store query, the builder that makes
    result elements and collects them, and the transaction handle of the
    client it was started from. Building a query copies it; running it walks
    the store's document iterator. */
module Queries {
  import opened Types
  import opened Clients

  /** A filter value or cursor value, passed to the store untouched. */
  datatype Value = Value(repr: string)

  datatype Direction = Asc | Desc

  /** One refinement of a store query, in the order the builders added it. */
  datatype Modifier =
    | Filter(path: string, op: string, value: Value)
    | Order(path: string, dir: Direction)
    | OffsetBy(n: int)
    | LimitTo(n: int)
    | LimitToLastN(n: int)
    | StartAtCursor(values: seq<Value>)
    | StartAfterCursor(values: seq<Value>)
    | EndAtCursor(values: seq<Value>)
    | EndBeforeCursor(values: seq<Value>)

  /** What a store query ranges over: one collection, or every collection
      with a given name (a collection group). */
  datatype QuerySource = CollectionSource(collection: CollectionRef) | GroupSource(name: string)

  /** The store query: its source and its refinements. The store's query
      value is immutable; each refinement returns a new one. */
  datatype FsQuery = FsQuery(source: QuerySource, modifiers: seq<Modifier>)

  /** The target builder: the caller's result slice, which GetAll appends to. */
  class TargetBuilder {
    var elems: seq<Rec>

    constructor (initial: seq<Rec>)
      ensures elems == initial
    {
      elems := initial;
    }
  }

  /** The blank element the builder makes for each document (createElement):
      a zero record of the target's element type. */
  const ZeroElement: Rec := Rec("", None, map[])

  datatype Query = Query(q: FsQuery, tb: TargetBuilder, transaction: Option<TransactionHandle>)

  /** A target resolved by the client's collection helper: the collection (or
      group) to query and the builder for the caller's slice. */
  datatype Target = Target(source: QuerySource, tb: TargetBuilder)

  /** The query the three constructors build from a resolved target: no
      refinements, and the transaction handle of client `c`. */
  function Start(c: Client, target: Result<Target>): (r: Result<Query>)
    reads c
    ensures r.Success? <==> target.Success?
    ensures target.Failure? ==> r.error == target.error
    ensures r.Success? ==>
      r.value.q.source == target.value.source && r.value.q.modifiers == []
      && r.value.tb == target.value.tb && r.value.transaction == c.firestoreTransaction
  {
    match target
    case Failure(e) => Failure(e)
    case Success(t) => Success(Query(FsQuery(t.source, []), t.tb, c.firestoreTransaction))
  }

  /** QuerySafe; `target` is what the client's collection helper answers for
      the caller's slice (that helper is not part of this model). */
  function QuerySafe(c: Client, target: Result<(CollectionRef, TargetBuilder)>): (r: Result<Query>)
    reads c
    ensures r.Success? <==> target.Success?
    ensures target.Failure? ==> r.error == target.error
    ensures r.Success? ==>
      r.value.q == FsQuery(CollectionSource(target.value.0), [])
      && r.value.tb == target.value.1 && r.value.transaction == c.firestoreTransaction
  {
    Start(c, match target case Failure(e) => Failure(e) case Success(t) => Success(Target(CollectionSource(t.0), t.1)))
  }

  /** QueryGroupSafe; `target` is what the client's collection-group helper
      answers (that helper is not part of this model). */
  function QueryGroupSafe(c: Client, target: Result<(string, TargetBuilder)>): (r: Result<Query>)
    reads c
    ensures r.Success? <==> target.Success?
    ensures target.Failure? ==> r.error == target.error
    ensures r.Success? ==>
      r.value.q == FsQuery(GroupSource(target.value.0), [])
      && r.value.tb == target.value.1 && r.value.transaction == c.firestoreTransaction
  {
    Start(c, match target case Failure(e) => Failure(e) case Success(t) => Success(Target(GroupSource(t.0), t.1)))
  }

  /** QueryNestedSafe: `target` is what the nested-collection helper answers
      for the parent record and the slice: the parent's document, the name of
      the collection under it, and the builder (that helper is not part of
      this model). */
  function QueryNestedSafe(c: Client, target: Result<(Location, string, TargetBuilder)>): (r: Result<Query>)
    reads c
    ensures r.Success? <==> target.Success?
    ensures target.Failure? ==> r.error == target.error
    ensures r.Success? ==>
      r.value.q.modifiers == [] && r.value.q.source.CollectionSource?
      && r.value.q.source.collection.parent == target.value.0
      && r.value.q.source.collection.name == target.value.1
      && r.value.tb == target.value.2 && r.value.transaction == c.firestoreTransaction
  {
    Start(c, match target
      case Failure(e) => Failure(e)
      case Success(t) => Success(Target(CollectionSource(CollectionRef(t.0, t.1)), t.2)))
  }

  /** Query: QuerySafe, panicking with its error. */
  function QueryOrPanic(c: Client, target: Result<(CollectionRef, TargetBuilder)>): (o: Outcome<Query>)
    reads c
    ensures o.Panicked? <==> target.Failure?
    ensures o.Panicked? ==> o.error == target.error
    ensures o.Returned? ==> o.value == QuerySafe(c, target).value
  {
    OrPanic(QuerySafe(c, target))
  }

  /** QueryGroup: QueryGroupSafe, panicking with its error. */
  function QueryGroupOrPanic(c: Client, target: Result<(string, TargetBuilder)>): (o: Outcome<Query>)
    reads c
    ensures o.Panicked? <==> target.Failure?
    ensures o.Panicked? ==> o.error == target.error
    ensures o.Returned? ==> o.value == QueryGroupSafe(c, target).value
  {
    OrPanic(QueryGroupSafe(c, target))
  }

  /** QueryNested: QueryNestedSafe, panicking with its error. */
  function QueryNestedOrPanic(c: Client, target: Result<(Location, string, TargetBuilder)>): (o: Outcome<Query>)
    reads c
    ensures o.Panicked? <==> target.Failure?
    ensures o.Panicked? ==> o.error == target.error
    ensures o.Returned? ==> o.value == QueryNestedSafe(c, target).value
  {
    OrPanic(QueryNestedSafe(c, target))
  }

  /** `r` is `q` refined by `m`: same source, builder and transaction, and
      `m` added after q's own refinements. */
  predicate Extends(q: Query, r: Query, m: Modifier)
  {
    r.tb == q.tb && r.transaction == q.transaction
    && r.q.source == q.q.source && r.q.modifiers == q.q.modifiers + [m]
  }

  /** A copy of `q` whose store query carries `m` as well. */
  function Refine(q: Query, m: Modifier): Query
  {
    q.(q := q.q.(modifiers := q.q.modifiers + [m]))
  }

  function Where(q: Query, path: string, op: string, value: Value): (r: Query)
    ensures Extends(q, r, Filter(path, op, value))
  {
    Refine(q, Filter(path, op, value))
  }

  function OrderBy(q: Query, path: string, dir: Direction): (r: Query)
    ensures Extends(q, r, Order(path, dir))
  {
    Refine(q, Order(path, dir))
  }

  function Offset(q: Query, n: int): (r: Query)
    ensures Extends(q, r, OffsetBy(n))
  {
    Refine(q, OffsetBy(n))
  }

  function Limit(q: Query, n: int): (r: Query)
    ensures Extends(q, r, LimitTo(n))
  {
    Refine(q, LimitTo(n))
  }

  function LimitToLast(q: Query, n: int): (r: Query)
    ensures Extends(q, r, LimitToLastN(n))
  {
    Refine(q, LimitToLastN(n))
  }

  function StartAt(q: Query, values: seq<Value>): (r: Query)
    ensures Extends(q, r, StartAtCursor(values))
  {
    Refine(q, StartAtCursor(values))
  }

  function StartAfter(q: Query, values: seq<Value>): (r: Query)
    ensures Extends(q, r, StartAfterCursor(values))
  {
    Refine(q, StartAfterCursor(values))
  }

  function EndAt(q: Query, values: seq<Value>): (r: Query)
    ensures Extends(q, r, EndAtCursor(values))
  {
    Refine(q, EndAtCursor(values))
  }

  function EndBefore(q: Query, values: seq<Value>): (r: Query)
    ensures Extends(q, r, EndBeforeCursor(values))
  {
    Refine(q, EndBeforeCursor(values))
  }

  /** The builder call that adds `m`. */
  function Apply(q: Query, m: Modifier): Query
  {
    match m
    case Filter(path, op, value) => Where(q, path, op, value)
    case Order(path, dir) => OrderBy(q, path, dir)
    case OffsetBy(n) => Offset(q, n)
    case LimitTo(n) => Limit(q, n)
    case LimitToLastN(n) => LimitToLast(q, n)
    case StartAtCursor(values) => StartAt(q, values)
    case StartAfterCursor(values) => StartAfter(q, values)
    case EndAtCursor(values) => EndAt(q, values)
    case EndBeforeCursor(values) => EndBefore(q, values)
  }

  /** A chain of builder calls, left to right. */
  function Chain(q: Query, ms: seq<Modifier>): Query
    decreases |ms|
  {
    if ms == [] then q else Chain(Apply(q, ms[0]), ms[1..])
  }

  /** A chain of builders keeps the target builder and the transaction of
      the query it starts from and appends its refinements in call order. */
  lemma {:induction false} ChainAppends(q: Query, ms: seq<Modifier>)
    ensures Chain(q, ms).tb == q.tb && Chain(q, ms).transaction == q.transaction
    ensures Chain(q, ms).q == FsQuery(q.q.source, q.q.modifiers + ms)
    decreases |ms|
  {
    if ms != [] {
      var q1 := Apply(q, ms[0]);
      assert Extends(q, q1, ms[0]);
      ChainAppends(q1, ms[1..]);
      assert q.q.modifiers + [ms[0]] + ms[1..] == q.q.modifiers + ms;
    }
  }

  /** Where a query's documents are read: directly, or through the
      transaction the query carries. */
  datatype ReadView = LiveRead(query: FsQuery) | TransactionRead(handle: TransactionHandle, query: FsQuery)

  function ReadViewOf(q: Query): (v: ReadView)
    ensures v.query == q.q
    ensures v.TransactionRead? <==> q.transaction.Some?
    ensures v.TransactionRead? ==> v.handle == q.transaction.value
  {
    match q.transaction
    case None => LiveRead(q.q)
    case Some(h) => TransactionRead(h, q.q)
  }

  /** A query started on a client reads through a transaction exactly when
      that client carries one, and then through that client's handle. */
  lemma QueryReadsThroughClientTransaction(c: Client, target: Result<(CollectionRef, TargetBuilder)>, ms: seq<Modifier>)
    requires target.Success?
    ensures ReadViewOf(Chain(QuerySafe(c, target).value, ms)).TransactionRead? <==> c.firestoreTransaction.Some?
    ensures c.firestoreTransaction.Some? ==>
      ReadViewOf(Chain(QuerySafe(c, target).value, ms)).handle == c.firestoreTransaction.value
  {
    ChainAppends(QuerySafe(c, target).value, ms);
  }

  /** One answer of the store's document iterator. */
  datatype Next = Document(snapshot: Snapshot) | Done | IterError(error: Error)

  /** The caller's callback accepts `o` and asks for more. */
  predicate Accepts(f: Rec -> Option<Error>, o: Rec)
  {
    f(o).None?
  }

  /** Every delivered element decodes from the iterator's first answers and
      was accepted by the callback. */
  predicate DeliveredPrefix(steps: seq<Next>, store: Store, f: Rec -> Option<Error>, delivered: seq<Rec>)
  {
    |delivered| <= |steps|
    && forall j :: 0 <= j < |delivered| ==>
      steps[j].Document? && store.dataTo(steps[j].snapshot, ZeroElement) == Decoded(delivered[j], None)
  }

  /** The outcome of Iter over the iterator's answers `steps` (an exhausted
      iterator answers Done): decoding starts from a blank element, every
      decoded element is handed to `f` in order, and the first iterator
      error, decoding error or callback error stops the walk and is
      returned. `delivered` lists the elements handed to `f`. */
  predicate IterOutcome(steps: seq<Next>, store: Store, f: Rec -> Option<Error>, err: Option<Error>, delivered: seq<Rec>)
  {
    DeliveredPrefix(steps, store, f, delivered)
    && var k := |delivered|;
    (forall j :: 0 <= j < k - 1 ==> Accepts(f, delivered[j]))
    && if k > 0 && !Accepts(f, delivered[k - 1]) then
      err == f(delivered[k - 1])
    else
      (k == |steps| && err == None)
      || (k < |steps| && steps[k].Done? && err == None)
      || (k < |steps| && steps[k].IterError? && err == Some(steps[k].error))
      || (k < |steps| && steps[k].Document? && store.dataTo(steps[k].snapshot, ZeroElement).err.Some?
          && err == store.dataTo(steps[k].snapshot, ZeroElement).err)
  }

  /** Iter's outcome is a function of its inputs. */
  lemma {:induction false} IterOutcomeUnique(steps: seq<Next>, store: Store, f: Rec -> Option<Error>,
                                           err1: Option<Error>, d1: seq<Rec>, err2: Option<Error>, d2: seq<Rec>)
    requires IterOutcome(steps, store, f, err1, d1)
    requires IterOutcome(steps, store, f, err2, d2)
    ensures err1 == err2 && d1 == d2
  {
    var k1, k2 := |d1|, |d2|;
    forall j | 0 <= j < k1 && j < k2
      ensures d1[j] == d2[j]
    {
      assert Decoded(d1[j], None) == store.dataTo(steps[j].snapshot, ZeroElement) == Decoded(d2[j], None);
    }
    if k1 != k2 {
      assert false;
    }
  }

  /** Iter: walks the documents the query's read view yields
      (`documents`, the store's answers), decoding each into a blank element
      and handing it to `f`. */
  method Iter(q: Query, store: Store, documents: ReadView -> seq<Next>, f: Rec -> Option<Error>)
    returns (err: Option<Error>, delivered: seq<Rec>)
    ensures IterOutcome(documents(ReadViewOf(q)), store, f, err, delivered)
  {
    var steps := documents(ReadViewOf(q));
    delivered := [];
    var i := 0;
    while i < |steps|
      invariant 0 <= i <= |steps| && |delivered| == i
      invariant DeliveredPrefix(steps, store, f, delivered)
      invariant forall j :: 0 <= j < i ==> Accepts(f, delivered[j])
    {
      var step := steps[i];
      if step.Done? {
        return None, delivered;
      }
      if step.IterError? {
        return Some(step.error), delivered;
      }
      var dst := store.dataTo(step.snapshot, ZeroElement);
      if dst.err.Some? {
        // the partly decoded element is dropped
        return dst.err, delivered;
      }
      delivered := delivered + [dst.rec];
      var e := f(dst.rec);
      if e.Some? {
        return e, delivered;
      }
      i := i + 1;
    }
    err := None;
  }

  /** GetAll's callback: accept every element and carry on. The append
      that the source's callback makes is done by GetAll on the delivered
      elements, in the same order, once the walk is over. */
  function AppendAll(o: Rec): (r: Option<Error>)
    ensures r == None
  {
    None
  }

  /** With a callback that accepts everything, the walk stops only at the
      iterator's end or at the first iterator or decoding error, and it
      delivers every document before that point. */
  lemma AcceptingWalk(steps: seq<Next>, store: Store, err: Option<Error>, delivered: seq<Rec>)
    requires IterOutcome(steps, store, AppendAll, err, delivered)
    ensures |delivered| <= |steps|
    ensures err.None? <==> |delivered| == |steps| || steps[|delivered|].Done?
    ensures err.Some? ==>
      steps[|delivered|].IterError? || store.dataTo(steps[|delivered|].snapshot, ZeroElement).err.Some?
  {
    var k := |delivered|;
    if k > 0 {
      assert Accepts(AppendAll, delivered[k - 1]);
    }
  }

  /** GetAll: the decoded documents are appended, in order, to the target
      slice the query was started with. */
  method GetAll(q: Query, store: Store, documents: ReadView -> seq<Next>) returns (err: Option<Error>)
    modifies q.tb
    ensures |q.tb.elems| >= |old(q.tb.elems)| && q.tb.elems[..|old(q.tb.elems)|] == old(q.tb.elems)
    ensures IterOutcome(documents(ReadViewOf(q)), store, AppendAll, err, q.tb.elems[|old(q.tb.elems)|..])
  {
    var delivered;
    err, delivered := Iter(q, store, documents, AppendAll);
    q.tb.elems := q.tb.elems + delivered;
    assert q.tb.elems[|old(q.tb.elems)|..] == delivered;
  }
}
