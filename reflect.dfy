/** The mapping from a record's type and value to its document location
    (reflect.go): the accessor (type descriptor), path resolution, the ID
    write-back and the list resolution used by the batch read. */
module Reflect {
  import opened Types

  /** The type descriptor of reflect.go: the record's struct type, its
      collection name and, when the struct has a `Parent` field, the parent's
      descriptor. */
  datatype Accessor = Accessor(t: GoType, collectionName: string, parentAccessor: Option<Accessor>)

  /** The shapes newAccessor accepts, stated independently of it: a pointer
      to a struct with a string `ID` field whose `Parent` field, if any, is
      itself an accepted type. */
  predicate Accepted(pt: GoType)
  {
    pt.Pointer? && pt.elem.Struct? && pt.elem.idField == Some(StringType)
    && (pt.elem.parentField.Some? ==> Accepted(pt.elem.parentField.value))
  }

  /** The number of accessors in the descriptor chain of an accepted type. */
  function Depth(pt: GoType): nat
    requires Accepted(pt)
  {
    if pt.elem.parentField.None? then 1 else 1 + Depth(pt.elem.parentField.value)
  }

  /** The number of links of a descriptor chain. */
  function ChainLength(a: Accessor): nat
  {
    if a.parentAccessor.None? then 1 else 1 + ChainLength(a.parentAccessor.value)
  }

  /** newAccessor. The Go code takes any reflect.Type and panics in
      pt.Elem() unless it is a pointer; here that is the precondition. A type
      whose `Parent` points back to itself would make the Go code recurse
      forever (reflect.go:45); such a type cannot be written as a GoType. */
  function NewAccessor(pt: GoType): (r: Result<Accessor>)
    requires pt.Pointer?
    ensures r.Failure? ==> r.error.ProgrammingError?
    ensures r.Success? ==> pt.elem.Struct? && r.value.t == pt.elem && r.value.collectionName == pt.elem.name
    ensures r.Success? ==> (r.value.parentAccessor.Some? <==> pt.elem.parentField.Some?)
    decreases pt
  {
    var t := pt.elem;
    if !t.Struct? then
      Failure(ProgrammingError(NotPointerOfStruct))
    else if t.idField.None? then
      Failure(ProgrammingError(IdFieldMissing(t.name)))
    else if t.idField.value != StringType then
      Failure(ProgrammingError(IdFieldNotString(t.name)))
    else
      match t.parentField
      case None => Success(Accessor(t, t.name, None))
      case Some(parentT) =>
        if !parentT.Pointer? then
          Failure(ProgrammingError(ParentNotPointer))
        else
          match NewAccessor(parentT)
          case Failure(e) => Failure(ProgrammingError(InvalidParent(t.name, e.reason)))
          case Success(pa) => Success(Accessor(t, t.name, Some(pa)))
  }

  /** newAccessor succeeds exactly on the accepted shapes. */
  lemma {:induction false} NewAccessorSucceedsIffAccepted(pt: GoType)
    requires pt.Pointer?
    ensures NewAccessor(pt).Success? <==> Accepted(pt)
    decreases pt
  {
    var t := pt.elem;
    if t.Struct? && t.idField == Some(StringType) && t.parentField.Some? && t.parentField.value.Pointer? {
      NewAccessorSucceedsIffAccepted(t.parentField.value);
    }
  }

  /** The descriptor is a linked chain: each link's parent is the descriptor
      of the type its `Parent` field points to, and the chain is as long as
      the type's nesting. */
  lemma {:induction false} DescriptorChain(pt: GoType)
    requires pt.Pointer? && NewAccessor(pt).Success?
    ensures Accepted(pt) && ChainLength(NewAccessor(pt).value) == Depth(pt)
    ensures pt.elem.parentField.Some? ==>
      pt.elem.parentField.value.Pointer?
      && NewAccessor(pt).value.parentAccessor == Some(NewAccessor(pt.elem.parentField.value).value)
    decreases pt
  {
    NewAccessorSucceedsIffAccepted(pt);
    if pt.elem.parentField.Some? {
      DescriptorChain(pt.elem.parentField.value);
    }
  }

  /** A parent's rejection is wrapped, naming the child type, never
      swallowed. */
  lemma ParentRejectionIsWrapped(pt: GoType)
    requires pt.Pointer? && pt.elem.Struct? && pt.elem.idField == Some(StringType)
    requires pt.elem.parentField.Some? && pt.elem.parentField.value.Pointer?
    requires NewAccessor(pt.elem.parentField.value).Failure?
    ensures NewAccessor(pt) == Failure(ProgrammingError(InvalidParent(pt.elem.name,
      NewAccessor(pt.elem.parentField.value).error.reason)))
  {
  }

  /** The record types of the library's tests. */
  const SimpleDoc := Struct("TestSimpleDoc", Some(StringType), None)
  const ChildDoc := Struct("TestChildDoc", Some(StringType), Some(Pointer(SimpleDoc)))
  const GrandChildDoc := Struct("TestGrandChildDoc", Some(StringType), Some(Pointer(ChildDoc)))

  /** The accepted and rejected shapes of reflect_test.go (a pointer of a
      non-struct, no ID, a non-string ID, a non-pointer Parent, a bad parent
      and a bad grandparent). */
  lemma AccessorTestCases()
    ensures NewAccessor(Pointer(SimpleDoc)).Success?
    ensures NewAccessor(Pointer(ChildDoc)).Success?
    ensures NewAccessor(Pointer(GrandChildDoc)).Success?
    ensures NewAccessor(Pointer(StringType)) == Failure(ProgrammingError(NotPointerOfStruct))
    ensures NewAccessor(Pointer(Struct("", None, None))) == Failure(ProgrammingError(IdFieldMissing("")))
    ensures NewAccessor(Pointer(Struct("", Some(OtherType("int64")), None)))
         == Failure(ProgrammingError(IdFieldNotString("")))
    ensures NewAccessor(Pointer(Struct("", Some(StringType), Some(SimpleDoc))))
         == Failure(ProgrammingError(ParentNotPointer))
    ensures NewAccessor(Pointer(Struct("", Some(StringType), Some(Pointer(Struct("", Some(OtherType("int64")), None))))))
         == Failure(ProgrammingError(InvalidParent("", IdFieldNotString(""))))
    ensures NewAccessor(Pointer(Struct("", Some(StringType), Some(Pointer(
              Struct("", Some(StringType), Some(Pointer(Struct("", Some(OtherType("int64")), None)))))))))
         == Failure(ProgrammingError(InvalidParent("", InvalidParent("", IdFieldNotString("")))))
  {
  }

  /** The outcome of getDocumentRef: the document reference (None for nil)
      and whether the ID is a fresh one. */
  datatype Resolved = Resolved(ref: Option<Location>, isNew: bool)

  /** The ID a resolution addresses: the record's own, or the fresh one. */
  function LeafId(rec: Rec, newId: string): string
  {
    if rec.id == "" then newId else rec.id
  }

  /** getDocumentRef with the isNew flag as the library's test expects it
      (reflect_test.go:120-121): true only when a fresh ID was allocated.
      Line 82 of the source reports true for every non-nil record; that
      version is GetDocumentRefAsWritten. `newId` is the ID the store's
      NewDoc would allocate; it is used only when `mightNew` holds. */
  function GetDocumentRef(a: Accessor, pv: Option<Rec>, mightNew: bool, newId: string): (r: Result<Resolved>)
    ensures pv.None? ==> r == Success(Resolved(None, false))
    ensures r.Failure? ==> r.error.ProgrammingError? && pv.Some?
    ensures r.Success? && pv.Some? ==>
      r.value.ref.Some? && |r.value.ref.value| >= 1
      && r.value.ref.value[|r.value.ref.value| - 1] == Segment(a.collectionName, LeafId(pv.value, newId))
      && r.value.isNew == (pv.value.id == "")
    ensures r.Success? && r.value.isNew ==> mightNew
    ensures pv.Some? && pv.value.id == "" && !mightNew ==> r.Failure?
    decreases a
  {
    match pv
    case None => Success(Resolved(None, false))
    case Some(v) =>
      var parent: Result<Resolved> :=
        if a.parentAccessor.Some? then GetDocumentRef(a.parentAccessor.value, v.parent, false, newId)
        else Success(Resolved(None, false));
      if parent.Failure? then
        // a.t.Name() in the source, which is the collection name
        Failure(ProgrammingError(InvalidParent(a.collectionName, parent.error.reason)))
      else
        var collection := CollectionRef(if parent.value.ref.Some? then parent.value.ref.value else [], a.collectionName);
        if v.id == "" then
          if mightNew then Success(Resolved(Some(Doc(collection, newId)), true))
          else Failure(ProgrammingError(IdNotSet))
        else
          Success(Resolved(Some(Doc(collection, v.id)), false))
  }

  /** getDocumentRef exactly as reflect.go:53-83 is written: line 82 reports
      isNew = true also for a record whose ID is already set. */
  function GetDocumentRefAsWritten(a: Accessor, pv: Option<Rec>, mightNew: bool, newId: string): (r: Result<Resolved>)
    ensures r.Failure? <==> GetDocumentRef(a, pv, mightNew, newId).Failure?
    ensures r.Success? ==> r.value.ref == GetDocumentRef(a, pv, mightNew, newId).value.ref
    ensures r.Success? ==> (r.value.isNew <==> pv.Some?)
  {
    var r := GetDocumentRef(a, pv, mightNew, newId);
    if r.Success? && pv.Some? then Success(Resolved(r.value.ref, true)) else r
  }

  /** The finding: for TestSimpleDoc{ID: "123"} the code as written reports
      a new document, which reflect_test.go:121 says it is not; the
      corrected resolution reports it as existing. The location,
      "TestSimpleDoc/123", is the same in both. */
  lemma ExistingIdReportedAsNew(mightNew: bool)
    ensures var a := NewAccessor(Pointer(SimpleDoc)).value;
      var rec := Some(Rec("123", None, map[]));
      GetDocumentRefAsWritten(a, rec, mightNew, "").value == Resolved(Some([Segment("TestSimpleDoc", "123")]), true)
      && GetDocumentRef(a, rec, mightNew, "").value == Resolved(Some([Segment("TestSimpleDoc", "123")]), false)
  {
  }

  /** A resolution succeeds exactly when the record is nil, or its ID is set
      (or may be generated) and its parent resolves without generation. */
  predicate Resolvable(a: Accessor, pv: Option<Rec>, mightNew: bool)
    decreases a
  {
    pv.None? ||
    ((pv.value.id != "" || mightNew)
     && (a.parentAccessor.Some? ==> Resolvable(a.parentAccessor.value, pv.value.parent, false)))
  }

  lemma {:induction false} ResolvesIffResolvable(a: Accessor, pv: Option<Rec>, mightNew: bool, newId: string)
    ensures GetDocumentRef(a, pv, mightNew, newId).Success? <==> Resolvable(a, pv, mightNew)
    decreases a
  {
    if pv.Some? && a.parentAccessor.Some? {
      ResolvesIffResolvable(a.parentAccessor.value, pv.value.parent, false, newId);
    }
  }

  /** Ancestors never use ID generation: without `mightNew` the fresh ID
      plays no part. */
  lemma {:induction false} NoGenerationIgnoresFresh(a: Accessor, pv: Option<Rec>, newId1: string, newId2: string)
    ensures GetDocumentRef(a, pv, false, newId1) == GetDocumentRef(a, pv, false, newId2)
    decreases a
  {
    if pv.Some? && a.parentAccessor.Some? {
      NoGenerationIgnoresFresh(a.parentAccessor.value, pv.value.parent, newId1, newId2);
    }
  }

  /** Under a non-nil parent, the child lives in the parent's document:
      child location = parent location + [(collection, id)]. */
  lemma ChildUnderParent(a: Accessor, rec: Rec, mightNew: bool, newId: string)
    requires a.parentAccessor.Some? && rec.parent.Some?
    requires GetDocumentRef(a, Some(rec), mightNew, newId).Success?
    ensures var p := GetDocumentRef(a.parentAccessor.value, rec.parent, false, newId);
      p.Success? && p.value.ref.Some?
      && GetDocumentRef(a, Some(rec), mightNew, newId).value.ref
         == Some(p.value.ref.value + [Segment(a.collectionName, LeafId(rec, newId))])
  {
  }

  /** Without a `Parent` field, or with a nil `Parent` pointer, the document
      is in a root collection. */
  lemma AtRoot(a: Accessor, rec: Rec, mightNew: bool, newId: string)
    requires a.parentAccessor.None? || rec.parent.None?
    requires GetDocumentRef(a, Some(rec), mightNew, newId).Success?
    ensures GetDocumentRef(a, Some(rec), mightNew, newId).value.ref
         == Some([Segment(a.collectionName, LeafId(rec, newId))])
  {
  }

  /** A parent whose ID is empty makes the whole resolution fail, with a
      ProgrammingError naming the child type, even when the child may get a
      fresh ID. */
  lemma ParentWithoutId(a: Accessor, rec: Rec, mightNew: bool, newId: string)
    requires a.parentAccessor.Some? && rec.parent.Some? && rec.parent.value.id == ""
    ensures var r := GetDocumentRef(a, Some(rec), mightNew, newId);
      r.Failure? && r.error.ProgrammingError? && r.error.reason.InvalidParent? && r.error.reason.typeName == a.collectionName
  {
  }

  /** The example of doc.go: a Document under ParentDocument "c". */
  lemma NestedPathExample()
    ensures var parentT := Struct("ParentDocument", Some(StringType), None);
      var docT := Struct("Document", Some(StringType), Some(Pointer(parentT)));
      var a := NewAccessor(Pointer(docT)).value;
      var parent := Rec("c", None, map["Name" := "cryptography"]);
      GetDocumentRef(a, Some(Rec("123", Some(parent), map["Name" := "Alice"])), false, "").value.ref
        == Some([Segment("ParentDocument", "c"), Segment("Document", "123")])
      && GetDocumentRef(a, Some(Rec("123", None, map["Name" := "Alice"])), false, "").value.ref
        == Some([Segment("Document", "123")])
  {
    var parentT := Struct("ParentDocument", Some(StringType), None);
    var docT := Struct("Document", Some(StringType), Some(Pointer(parentT)));
    assert NewAccessor(Pointer(parentT)) == Success(Accessor(parentT, "ParentDocument", None));
    var a := NewAccessor(Pointer(docT)).value;
    assert a == Accessor(docT, "Document", Some(Accessor(parentT, "ParentDocument", None)));
    var parent := Rec("c", None, map["Name" := "cryptography"]);
    assert GetDocumentRef(a.parentAccessor.value, Some(parent), false, "")
        == Success(Resolved(Some([Segment("ParentDocument", "c")]), false));
    assert GetDocumentRef(a, Some(Rec("123", Some(parent), map["Name" := "Alice"])), false, "")
        == Success(Resolved(Some(Doc(CollectionRef([Segment("ParentDocument", "c")], "Document"), "123")), false));
    assert Doc(CollectionRef([Segment("ParentDocument", "c")], "Document"), "123")
        == [Segment("ParentDocument", "c"), Segment("Document", "123")];
  }

  /** A Go pointer to a record: the write-back and the decoder change the
      record it points to. */
  class RecordPtr {
    var val: Rec

    constructor (v: Rec)
      ensures val == v
    {
      val := v;
    }
  }

  /** The record a possibly nil pointer points to. */
  function ValueOf(o: RecordPtr?): Option<Rec>
    reads o
  {
    if o == null then None else Some(o.val)
  }

  /** setID: overwrite the record's `ID` field. */
  method SetID(o: RecordPtr, id: string)
    modifies o
    ensures o.val == old(o.val).(id := id)
  {
    o.val := o.val.(id := id);
  }

  /** GetDocumentRefSafe: the document of a record, never generating an ID.
      As written, with a pointer parameter, a nil record returns before the
      type is looked at. */
  function GetDocumentRefSafe(pt: GoType, pv: Option<Rec>): (r: Result<Option<Location>>)
    requires pt.Pointer?
    ensures pv.None? ==> r == Success(None)
    ensures pv.Some? && NewAccessor(pt).Failure? ==> r == Failure(NewAccessor(pt).error)
    ensures pv.Some? && pv.value.id == "" ==> r.Failure? && r.error.ProgrammingError?
    ensures r.Failure? ==> r.error.ProgrammingError?
    ensures r.Success? && pv.Some? ==>
      r.value.Some? && |r.value.value| >= 1
      && r.value.value[|r.value.value| - 1] == Segment(pt.elem.name, pv.value.id)
  {
    if pv.None? then Success(None)
    else match NewAccessor(pt)
      case Failure(e) => Failure(e)
      case Success(a) =>
        var d := GetDocumentRef(a, pv, false, "");
        if d.Failure? then Failure(d.error) else Success(d.value.ref)
  }

  /** GetDocumentRef: GetDocumentRefSafe, panicking with its error. */
  function GetDocumentRefOrPanic(pt: GoType, pv: Option<Rec>): (o: Outcome<Option<Location>>)
    requires pt.Pointer?
    ensures o.Panicked? <==> GetDocumentRefSafe(pt, pv).Failure?
    ensures o.Panicked? ==> o.error.ProgrammingError?
    ensures pv.None? ==> o == Returned(None)
  {
    OrPanic(GetDocumentRefSafe(pt, pv))
  }

  /** Get, Delete and the batch read never generate an ID: a record without
      one is refused with "ID is not set" when its type and ancestors are
      fine. */
  lemma EmptyIdIsNotSet(pt: GoType, rec: Rec)
    requires pt.Pointer? && NewAccessor(pt).Success? && rec.id == ""
    requires NewAccessor(pt).value.parentAccessor.Some? && rec.parent.Some? ==>
      GetDocumentRef(NewAccessor(pt).value.parentAccessor.value, rec.parent, false, "").Success?
    ensures GetDocumentRefSafe(pt, Some(rec)) == Failure(ProgrammingError(IdNotSet))
  {
  }

  /** The deferred ID write-back prepareSetDocument returns (its closure):
      nothing (nop) or setID with the document's ID. */
  datatype WriteBack = Nop | WriteID(id: string)

  /** Run the write-back on a record. */
  function ApplyWriteBack(rec: Rec, wb: WriteBack): Rec
  {
    match wb
    case Nop => rec
    case WriteID(id) => rec.(id := id)
  }

  /** What prepareSetDocument returns on success: the document to write and
      the write-back to run after the write succeeds. */
  datatype Prepared = Prepared(ref: Location, writeBack: WriteBack)

  function PrepareFrom(d: Result<Resolved>): Result<Prepared>
  {
    if d.Failure? then Failure(d.error)
    else if d.value.ref.None? then Failure(ProgrammingError(ObjectIsNil))
    else if !d.value.isNew then Success(Prepared(d.value.ref.value, Nop))
    else
      var loc := d.value.ref.value;
      Success(Prepared(loc, WriteID(if |loc| > 0 then loc[|loc| - 1].id else "")))
  }

  /** prepareSetDocument: resolve with ID generation allowed; a nil record
      is refused after the type check. */
  function PrepareSetDocument(pt: GoType, pv: Option<Rec>, newId: DocId): (r: Result<Prepared>)
    requires pt.Pointer?
    ensures NewAccessor(pt).Failure? ==> r == Failure(NewAccessor(pt).error)
    ensures NewAccessor(pt).Success? && pv.None? ==> r == Failure(ProgrammingError(ObjectIsNil))
    ensures r.Failure? ==> r.error.ProgrammingError?
    ensures r.Success? ==>
      pv.Some? && |r.value.ref| >= 1
      && r.value.ref[|r.value.ref| - 1] == Segment(pt.elem.name, LeafId(pv.value, newId))
    ensures r.Success? ==>
      var after := ApplyWriteBack(pv.value, r.value.writeBack);
      after == pv.value.(id := LeafId(pv.value, newId)) && after.id != ""
      && (pv.value.id != "" ==> after == pv.value)
  {
    match NewAccessor(pt)
    case Failure(e) => Failure(e)
    case Success(a) => PrepareFrom(GetDocumentRef(a, pv, true, newId))
  }

  /** prepareSetDocument as written, on top of line 82's isNew: every
      successful preparation schedules an ID write-back, also for a record
      whose ID is already set. */
  function PrepareSetDocumentAsWritten(pt: GoType, pv: Option<Rec>, newId: DocId): (r: Result<Prepared>)
    requires pt.Pointer?
    ensures NewAccessor(pt).Failure? ==> r == Failure(NewAccessor(pt).error)
    ensures NewAccessor(pt).Success? && pv.None? ==> r == Failure(ProgrammingError(ObjectIsNil))
    ensures r.Success? ==> pv.Some? && r.value.writeBack == WriteID(LeafId(pv.value, newId))
  {
    match NewAccessor(pt)
    case Failure(e) => Failure(e)
    case Success(a) => PrepareFrom(GetDocumentRefAsWritten(a, pv, true, newId))
  }

  /** The isNew discrepancy cannot be seen through a write: as written the
      write-back rewrites the ID the record already has, which leaves it
      as it was. Both versions target the same document. */
  lemma AsWrittenWriteBackIsHarmless(pt: GoType, pv: Option<Rec>, newId: DocId)
    requires pt.Pointer?
    ensures var w := PrepareSetDocumentAsWritten(pt, pv, newId);
      var c := PrepareSetDocument(pt, pv, newId);
      w.Success? == c.Success? && (w.Failure? ==> w.error == c.error)
      && (w.Success? ==>
            w.value.ref == c.value.ref
            && ApplyWriteBack(pv.value, w.value.writeBack) == ApplyWriteBack(pv.value, c.value.writeBack))
  {
  }

  /** One element of the slice given to GetDocumentRefListSafe: the
      element's own pointer type and what it points to. */
  datatype Item = Item(ptrType: GoType, rec: Option<Rec>)

  /** The reference of one element: through the slice's shared accessor
      when the slice's element type is a struct, through
      GetDocumentRefSafe otherwise. */
  function ElementRef(acc: Option<Accessor>, it: Item): Result<Option<Location>>
    requires acc.None? ==> it.ptrType.Pointer?
  {
    match acc
    case Some(a) =>
      var d := GetDocumentRef(a, it.rec, false, "");
      if d.Failure? then Failure(d.error) else Success(d.value.ref)
    case None => GetDocumentRefSafe(it.ptrType, it.rec)
  }

  /** Every element may be resolved with the given accessor. */
  predicate Resolvers(acc: Option<Accessor>, items: seq<Item>)
  {
    acc.None? ==> forall i :: 0 <= i < |items| ==> items[i].ptrType.Pointer?
  }

  /** The reference list of a slice: one reference per element, in order,
      or the first element's error. */
  function Refs(acc: Option<Accessor>, items: seq<Item>): (r: Result<seq<Option<Location>>>)
    requires Resolvers(acc, items)
    ensures r.Success? <==> forall i :: 0 <= i < |items| ==> ElementRef(acc, items[i]).Success?
    ensures r.Success? ==>
      |r.value| == |items|
      && forall i :: 0 <= i < |items| ==> ElementRef(acc, items[i]) == Success(r.value[i])
    ensures r.Failure? ==>
      exists i :: 0 <= i < |items| && ElementRef(acc, items[i]) == Failure(r.error)
        && forall j :: 0 <= j < i ==> ElementRef(acc, items[j]).Success?
  {
    if items == [] then Success([])
    else match ElementRef(acc, items[0])
      case Failure(e) => Failure(e)
      case Success(d) =>
        var rest := Refs(acc, items[1..]);
        assert forall i :: 1 <= i < |items| ==> items[i] == items[1..][i - 1];
        if rest.Failure? then Failure(rest.error) else Success([d] + rest.value)
  }

  /** The slice's element type is a pointer, and every element's own type
      is one too. */
  predicate ListTyped(sliceElem: GoType, items: seq<Item>)
  {
    sliceElem.Pointer? && forall i :: 0 <= i < |items| ==> items[i].ptrType.Pointer?
  }

  /** What GetDocumentRefListSafe computes: over a slice of struct pointers
      one accessor for all elements (so a bad type fails even for an empty
      slice), otherwise each element on its own. */
  function RefList(sliceElem: GoType, items: seq<Item>): Result<seq<Option<Location>>>
    requires ListTyped(sliceElem, items)
  {
    if sliceElem.elem.Struct? then
      match NewAccessor(sliceElem)
      case Failure(e) => Failure(e)
      case Success(a) => Refs(Some(a), items)
    else Refs(None, items)
  }

  /** The reference list is as long as the input and has a nil exactly where
      the input has a nil record; every failure is a ProgrammingError. */
  lemma RefListAligned(sliceElem: GoType, items: seq<Item>)
    requires ListTyped(sliceElem, items)
    ensures var r := RefList(sliceElem, items);
      (r.Failure? ==> r.error.ProgrammingError?)
      && (r.Success? ==>
            |r.value| == |items|
            && forall i :: 0 <= i < |items| ==> (r.value[i].None? <==> items[i].rec.None?))
  {
    var r := RefList(sliceElem, items);
    var acc := if sliceElem.elem.Struct? && NewAccessor(sliceElem).Success? then Some(NewAccessor(sliceElem).value) else None;
    if r.Failure? && !(sliceElem.elem.Struct? && NewAccessor(sliceElem).Failure?) {
      var i :| 0 <= i < |items| && ElementRef(acc, items[i]) == Failure(r.error);
    }
  }

  /** The loop of both list functions: resolve each element in turn,
      append its reference, stop at the first error. */
  method CollectRefs(acc: Option<Accessor>, os: seq<Item>) returns (r: Result<seq<Option<Location>>>)
    requires Resolvers(acc, os)
    ensures r == Refs(acc, os)
  {
    var docList: seq<Option<Location>> := [];
    var i := 0;
    while i < |os|
      invariant 0 <= i <= |os| && |docList| == i
      invariant forall j :: 0 <= j < i ==> ElementRef(acc, os[j]) == Success(docList[j])
    {
      var doc := ElementRef(acc, os[i]);
      if doc.Failure? {
        r := Failure(doc.error);
        var expected := Refs(acc, os);
        if expected.Failure? {
          var k :| 0 <= k < |os| && ElementRef(acc, os[k]) == Failure(expected.error)
            && forall j :: 0 <= j < k ==> ElementRef(acc, os[j]).Success?;
          assert k == i;
        }
        return;
      }
      docList := docList + [doc.value];
      i := i + 1;
    }
    r := Success(docList);
    assert Refs(acc, os).value == docList;
  }

  /** GetDocumentRefListSafe. */
  method GetDocumentRefListSafe(sliceElem: GoType, os: seq<Item>) returns (r: Result<seq<Option<Location>>>)
    requires ListTyped(sliceElem, os)
    ensures r == RefList(sliceElem, os)
  {
    if sliceElem.elem.Struct? {
      r := GetDocumentRefListSafeWithSameType(sliceElem, os);
      return;
    }
    r := CollectRefs(None, os);
  }

  /** getDocumentRefListSafeWithSameType: one accessor, built from the
      slice's element type, serves every element. */
  method GetDocumentRefListSafeWithSameType(sliceElem: GoType, os: seq<Item>) returns (r: Result<seq<Option<Location>>>)
    requires sliceElem.Pointer?
    ensures NewAccessor(sliceElem).Failure? ==> r == Failure(NewAccessor(sliceElem).error)
    ensures NewAccessor(sliceElem).Success? ==> r == Refs(Some(NewAccessor(sliceElem).value), os)
  {
    var a := NewAccessor(sliceElem);
    if a.Failure? {
      return Failure(a.error);
    }
    r := CollectRefs(Some(a.value), os);
  }

  /** getCollectionRef: the root collection named after the slice's struct
      type. It checks only that the type is a struct. */
  function GetCollectionRef(sliceElem: GoType): (r: Result<CollectionRef>)
    requires sliceElem.Pointer?
    ensures r.Success? <==> sliceElem.elem.Struct?
    ensures r.Failure? ==> r.error == ProgrammingError(NotPointerOfStruct)
    ensures r.Success? ==> r.value == CollectionRef([], sliceElem.elem.name)
  {
    var t := sliceElem.elem;
    if !t.Struct? then Failure(ProgrammingError(NotPointerOfStruct))
    else Success(CollectionRef([], t.name))
  }

  /** Every accepted type has a collection, the one its descriptor names;
      getCollectionRef also accepts structs newAccessor rejects. */
  lemma CollectionOfAcceptedType(pt: GoType)
    requires pt.Pointer? && NewAccessor(pt).Success?
    ensures GetCollectionRef(pt) == Success(CollectionRef([], NewAccessor(pt).value.collectionName))
  {
  }
}
