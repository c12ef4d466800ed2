/** The read, write and delete operations of crud.go. Each operation
    resolves the record's document first and sends nothing to the store when
    that fails; `issued` lists the requests that reach the store. */
module Crud {
  import opened Types
  import opened Reflect

  /** Get: read the record's document and decode it into the record. The
      decoder works on the caller's record in place, so a decoding error
      leaves it as far as decoding got. */
  method Get(store: Store, pt: GoType, o: RecordPtr?) returns (err: Option<Error>, issued: seq<StoreCall>)
    requires pt.Pointer?
    modifies o
    ensures var d := GetDocumentRefSafe(pt, old(ValueOf(o)));
      d.Failure? ==> err == Some(d.error) && issued == [] && ValueOf(o) == old(ValueOf(o))
    ensures var d := GetDocumentRefSafe(pt, old(ValueOf(o)));
      d.Success? && d.value.None? ==> o == null && err == Some(NilDocumentRef) && issued == []
    ensures var d := GetDocumentRefSafe(pt, old(ValueOf(o)));
      d.Success? && d.value.Some? ==>
        o != null && issued == [GetDoc(d.value.value)]
        && var s := store.getDoc(d.value.value);
        (s.Failure? ==> err == Some(s.error) && o.val == old(o.val))
        && (s.Success? ==>
              var f := store.dataTo(s.value, old(o.val));
              err == f.err && o.val == f.rec)
  {
    var doc := GetDocumentRefSafe(pt, ValueOf(o));
    if doc.Failure? {
      return Some(doc.error), [];
    }
    if doc.value.None? {
      // the store client refuses a nil reference
      return Some(NilDocumentRef), [];
    }
    var loc := doc.value.value;
    issued := [GetDoc(loc)];
    var snap := store.getDoc(loc);
    if snap.Failure? {
      return Some(snap.error), issued;
    }
    var filled := store.dataTo(snap.value, o.val);
    o.val := filled.rec;
    err := filled.err;
  }

  /** The positions of the non-nil references, in order: the elements of
      validList and dstList in GetAll. */
  function Positions(refs: seq<Option<Location>>): (ps: seq<nat>)
    ensures forall k :: 0 <= k < |ps| ==> ps[k] < |refs| && refs[ps[k]].Some?
    ensures forall k, l :: 0 <= k < l < |ps| ==> ps[k] < ps[l]
    ensures forall i :: 0 <= i < |refs| && refs[i].Some? ==> i in ps
  {
    if refs == [] then []
    else
      var init := Positions(refs[..|refs| - 1]);
      if refs[|refs| - 1].Some? then init + [|refs| - 1] else init
  }

  /** The references at the given positions. */
  function ValidRefs(refs: seq<Option<Location>>, ps: seq<nat>): (valid: seq<Location>)
    requires forall k :: 0 <= k < |ps| ==> ps[k] < |refs| && refs[ps[k]].Some?
    ensures |valid| == |ps| && forall k :: 0 <= k < |ps| ==> Some(valid[k]) == refs[ps[k]]
  {
    seq(|ps|, k requires 0 <= k < |ps| => refs[ps[k]].value)
  }

  /** One slot after one iteration of GetAll's second loop, and the
      decoding error that stops the loop there, if any. */
  datatype Step = Step(item: Item, err: Option<Error>)

  /** One iteration of GetAll's second loop: a snapshot that does not exist
      leaves the record as it is; an existing one is decoded into it, in
      place, so a decoding error leaves the record as far as decoding got. */
  function FillStep(store: Store, it: Item, snap: Snapshot): (s: Step)
    ensures s.item.ptrType == it.ptrType && (s.item.rec.Some? <==> it.rec.Some?)
    ensures !snap.present || it.rec.None? ==> s == Step(it, None)
    ensures snap.present && it.rec.Some? ==>
      s.item.rec == Some(store.dataTo(snap, it.rec.value).rec) && s.err == store.dataTo(snap, it.rec.value).err
  {
    if !snap.present then Step(it, None)
    else match it.rec
      case None => Step(it, None)
      case Some(rec) =>
        var d := store.dataTo(snap, rec);
        Step(it.(rec := Some(d.rec)), d.err)
  }

  /** After the first k snapshots: the records at the first k positions are
      as decoding left them, every other slot is as before. */
  ghost predicate FilledPrefix(store: Store, before: seq<Item>, after: seq<Item>, ps: seq<nat>, snaps: seq<Snapshot>, k: nat)
    requires |after| == |before| && k <= |ps| <= |snaps|
    requires forall j :: 0 <= j < |ps| ==> ps[j] < |before|
  {
    (forall j :: 0 <= j < k ==> FillStep(store, before[ps[j]], snaps[j]).item == after[ps[j]])
    && (forall i :: 0 <= i < |before| && i !in ps[..k] ==> after[i] == before[i])
  }

  /** The records at the given positions. */
  function Records(items: seq<Item>, ps: seq<nat>): (recs: seq<Rec>)
    requires forall k :: 0 <= k < |ps| ==> ps[k] < |items| && items[ps[k]].rec.Some?
    ensures |recs| == |ps| && forall k :: 0 <= k < |ps| ==> Some(recs[k]) == items[ps[k]].rec
  {
    seq(|ps|, k requires 0 <= k < |ps| => items[ps[k]].rec.value)
  }

  /** GetAll: resolve every element (never generating IDs), read all
      non-nil references in one batch, decode each existing snapshot into
      the record at the same position, and return the non-nil records in
      their order. */
  method GetAll(store: Store, sliceElem: GoType, os: array<Item>) returns (r: Result<Option<seq<Rec>>>, issued: seq<StoreCall>)
    requires ListTyped(sliceElem, os[..]) && BatchAligned(store)
    modifies os
    ensures var refs := RefList(sliceElem, old(os[..]));
      refs.Failure? ==> r == Failure(refs.error) && issued == [] && os[..] == old(os[..])
    ensures var refs := RefList(sliceElem, old(os[..]));
      refs.Success? && refs.value == [] ==> r == Success(None) && issued == [] && os[..] == old(os[..])
    ensures var refs := RefList(sliceElem, old(os[..]));
      refs.Success? && refs.value != [] ==>
        var ps := Positions(refs.value);
        var valid := ValidRefs(refs.value, ps);
        issued == [GetDocs(valid)]
        && (store.getDocs(valid).Failure? ==> r == Failure(store.getDocs(valid).error) && os[..] == old(os[..]))
        && (store.getDocs(valid).Success? ==>
              var snaps := store.getDocs(valid).value;
              |snaps| == |ps|
              && (r.Success? <==> forall k :: 0 <= k < |ps| ==> FillStep(store, old(os[..])[ps[k]], snaps[k]).err.None?)
              && (r.Success? ==>
                    FilledPrefix(store, old(os[..]), os[..], ps, snaps, |ps|)
                    && (forall k :: 0 <= k < |ps| ==> os[ps[k]].rec.Some?)
                    && r.value == Some(Records(os[..], ps)))
              && (r.Failure? ==>
                    exists k :: 0 <= k < |ps| && FillStep(store, old(os[..])[ps[k]], snaps[k]).err == Some(r.error)
                      && (forall j :: 0 <= j < k ==> FillStep(store, old(os[..])[ps[j]], snaps[j]).err.None?)
                      && FilledPrefix(store, old(os[..]), os[..], ps, snaps, k + 1)))
  {
    var refs := GetDocumentRefListSafe(sliceElem, os[..]);
    if refs.Failure? {
      return Failure(refs.error), [];
    }
    var docList := refs.value;
    if |docList| == 0 {
      return Success(None), [];
    }
    RefListAligned(sliceElem, os[..]);
    var validList, dstList := SplitValid(docList);
    issued := [GetDocs(validList)];
    var snapList := store.getDocs(validList);
    if snapList.Failure? {
      return Failure(snapList.error), issued;
    }
    var err := FillRecords(store, os, dstList, snapList.value);
    if err.Some? {
      return Failure(err.value), issued;
    }
    r := Success(Some(Records(os[..], dstList)));
  }

  /** GetAll's first loop: keep the non-nil references (validList) and the
      positions they come from (dstList). */
  method SplitValid(docList: seq<Option<Location>>) returns (validList: seq<Location>, dstList: seq<nat>)
    ensures dstList == Positions(docList) && validList == ValidRefs(docList, dstList)
  {
    validList, dstList := [], [];
    var idx := 0;
    while idx < |docList|
      invariant 0 <= idx <= |docList|
      invariant dstList == Positions(docList[..idx])
      invariant validList == ValidRefs(docList, dstList)
    {
      assert docList[..idx + 1][..idx] == docList[..idx];
      if docList[idx].Some? {
        validList := validList + [docList[idx].value];
        dstList := dstList + [idx];
      }
      idx := idx + 1;
    }
    assert docList[..idx] == docList;
  }

  /** GetAll's second loop: decode each snapshot into the record at the
      matching position, stopping at the first decoding error, which leaves
      that record as far as decoding got. */
  method FillRecords(store: Store, os: array<Item>, dstList: seq<nat>, snaps: seq<Snapshot>) returns (err: Option<Error>)
    requires |snaps| == |dstList|
    requires forall k, l :: 0 <= k < l < |dstList| ==> dstList[k] < dstList[l]
    requires forall k :: 0 <= k < |dstList| ==> dstList[k] < os.Length && os[dstList[k]].rec.Some?
    modifies os
    ensures forall k :: 0 <= k < |dstList| ==> os[dstList[k]].rec.Some?
    ensures err.None? <==> forall k :: 0 <= k < |dstList| ==> FillStep(store, old(os[..])[dstList[k]], snaps[k]).err.None?
    ensures err.None? ==> FilledPrefix(store, old(os[..]), os[..], dstList, snaps, |dstList|)
    ensures err.Some? ==>
      exists k :: 0 <= k < |dstList| && FillStep(store, old(os[..])[dstList[k]], snaps[k]).err == err
        && (forall j :: 0 <= j < k ==> FillStep(store, old(os[..])[dstList[j]], snaps[j]).err.None?)
        && FilledPrefix(store, old(os[..]), os[..], dstList, snaps, k + 1)
  {
    ghost var before := os[..];
    var k := 0;
    while k < |snaps|
      invariant 0 <= k <= |snaps|
      invariant FilledPrefix(store, before, os[..], dstList, snaps, k)
      invariant forall j :: 0 <= j < |dstList| ==> os[dstList[j]].rec.Some?
      invariant forall j :: 0 <= j < k ==> FillStep(store, before[dstList[j]], snaps[j]).err.None?
    {
      assert dstList[k] !in dstList[..k];
      var step := FillStep(store, os[dstList[k]], snaps[k]);
      os[dstList[k]] := step.item;
      assert dstList[..k + 1] == dstList[..k] + [dstList[k]];
      if step.err.Some? {
        return step.err;
      }
      k := k + 1;
    }
    assert dstList[..k] == dstList;
    err := None;
  }

  /** The batch result holds exactly the non-nil input records, in their
      order: the positions GetAll reads are those of the non-nil records. */
  lemma PositionsAreNonNilRecords(sliceElem: GoType, items: seq<Item>)
    requires ListTyped(sliceElem, items) && RefList(sliceElem, items).Success?
    ensures var ps := Positions(RefList(sliceElem, items).value);
      (forall k :: 0 <= k < |ps| ==> ps[k] < |items| && items[ps[k]].rec.Some?)
      && (forall i :: 0 <= i < |items| && items[i].rec.Some? ==> i in ps)
  {
    RefListAligned(sliceElem, items);
  }

  /** Create: write the record where no document exists yet; a generated ID
      is written back into the record only once the store accepted it. */
  method Create(store: Store, pt: GoType, o: RecordPtr?, newId: DocId) returns (r: Result<WriteResult>, issued: seq<StoreCall>)
    requires pt.Pointer?
    modifies o
    ensures var p := PrepareSetDocument(pt, old(ValueOf(o)), newId);
      p.Failure? ==> r == Failure(p.error) && issued == [] && ValueOf(o) == old(ValueOf(o))
    ensures var p := PrepareSetDocument(pt, old(ValueOf(o)), newId);
      p.Success? ==>
        o != null && issued == [CreateDoc(p.value.ref, old(o.val))] && r == store.createDoc(p.value.ref, old(o.val))
        && (r.Failure? ==> o.val == old(o.val))
        && (r.Success? ==> o.val == ApplyWriteBack(old(o.val), p.value.writeBack))
    ensures r.Success? ==>
      o != null && o.val.id != "" && o.val == old(o.val).(id := o.val.id)
      && (old(o.val).id != "" ==> o.val == old(o.val))
      && (old(o.val).id == "" ==> o.val.id == newId)
  {
    var p := PrepareSetDocument(pt, ValueOf(o), newId);
    if p.Failure? {
      return Failure(p.error), [];
    }
    issued := [CreateDoc(p.value.ref, o.val)];
    r := store.createDoc(p.value.ref, o.val);
    if r.Failure? {
      return;
    }
    if p.value.writeBack.WriteID? {
      SetID(o, p.value.writeBack.id);
    }
  }

  /** Set: write the record whether or not its document exists; the ID
      write-back follows the same rule as Create. */
  method Set(store: Store, pt: GoType, o: RecordPtr?, newId: DocId) returns (r: Result<WriteResult>, issued: seq<StoreCall>)
    requires pt.Pointer?
    modifies o
    ensures var p := PrepareSetDocument(pt, old(ValueOf(o)), newId);
      p.Failure? ==> r == Failure(p.error) && issued == [] && ValueOf(o) == old(ValueOf(o))
    ensures var p := PrepareSetDocument(pt, old(ValueOf(o)), newId);
      p.Success? ==>
        o != null && issued == [SetDoc(p.value.ref, old(o.val))] && r == store.setDoc(p.value.ref, old(o.val))
        && (r.Failure? ==> o.val == old(o.val))
        && (r.Success? ==> o.val == ApplyWriteBack(old(o.val), p.value.writeBack))
    ensures r.Success? ==>
      o != null && o.val.id != "" && o.val == old(o.val).(id := o.val.id)
      && (old(o.val).id != "" ==> o.val == old(o.val))
      && (old(o.val).id == "" ==> o.val.id == newId)
  {
    var p := PrepareSetDocument(pt, ValueOf(o), newId);
    if p.Failure? {
      return Failure(p.error), [];
    }
    issued := [SetDoc(p.value.ref, o.val)];
    r := store.setDoc(p.value.ref, o.val);
    if r.Failure? {
      return;
    }
    if p.value.writeBack.WriteID? {
      SetID(o, p.value.writeBack.id);
    }
  }

  /** Delete: remove the record's document; the record itself is not
      changed. */
  method Delete(store: Store, pt: GoType, o: RecordPtr?) returns (r: Result<WriteResult>, issued: seq<StoreCall>)
    requires pt.Pointer?
    ensures var d := GetDocumentRefSafe(pt, ValueOf(o));
      d.Failure? ==> r == Failure(d.error) && issued == []
    ensures var d := GetDocumentRefSafe(pt, ValueOf(o));
      d.Success? && d.value.None? ==> r == Failure(NilDocumentRef) && issued == []
    ensures var d := GetDocumentRefSafe(pt, ValueOf(o));
      d.Success? && d.value.Some? ==> issued == [DeleteDoc(d.value.value)] && r == store.deleteDoc(d.value.value)
  {
    var doc := GetDocumentRefSafe(pt, ValueOf(o));
    if doc.Failure? {
      return Failure(doc.error), [];
    }
    if doc.value.None? {
      return Failure(NilDocumentRef), [];
    }
    issued := [DeleteDoc(doc.value.value)];
    r := store.deleteDoc(doc.value.value);
  }
}
