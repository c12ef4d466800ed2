/** Values shared by every part of the model: wrappers, errors, Go type
    shapes, record values, document locations and the document store seen as
    an oracle whose answers are inputs. */
module Types {

  datatype Option<+T> = None | Some(value: T)

  datatype Result<+T> = Success(value: T) | Failure(error: Error)

  /** Why a ProgrammingError was raised; one constructor per message the
      library builds (reflect.go, lines 27, 31, 34, 42, 47/65, 79, 119). */
  datatype Reason =
    | NotPointerOfStruct                              // "value must be a pointer of a struct"
    | IdFieldMissing(typeName: string)                // "ID field doesn't exist: ..."
    | IdFieldNotString(typeName: string)              // "ID field must be a string: ..."
    | ParentNotPointer                                // "Parent must be a pointer of a struct"
    | InvalidParent(typeName: string, cause: Reason)  // "invalid parent in ...: <cause>"
    | IdNotSet                                        // "ID is not set"
    | ObjectIsNil                                     // "object is nil"

  /** Errors seen by callers. ProgrammingError is the library's own error
      type; NilDocumentRef is the store client's refusal of a nil document
      reference; External carries any other error of the store, of decoding
      or of a caller's callback, passed through unchanged. */
  datatype Error =
    | ProgrammingError(reason: Reason)
    | NilDocumentRef
    | External(message: string)

  /** The shape of a Go type, as far as reflection looks at it: a pointer, a
      struct with its optional `ID` and `Parent` fields, a string, or another
      kind. */
  datatype GoType =
    | Pointer(elem: GoType)
    | Struct(name: string, idField: Option<GoType>, parentField: Option<GoType>)
    | StringType
    | OtherType(kind: string)

  /** The outcome of a call that panics instead of returning an error. */
  datatype Outcome<+T> = Returned(value: T) | Panicked(error: Error)

  /** What a panicking variant does with its safe variant's answer. */
  function OrPanic<T>(r: Result<T>): (o: Outcome<T>)
    ensures o.Panicked? <==> r.Failure?
    ensures o.Panicked? ==> o.error == r.error
    ensures o.Returned? ==> o.value == r.value
  {
    match r
    case Failure(e) => Panicked(e)
    case Success(v) => Returned(v)
  }

  /** A record value: its `ID` field, the record its `Parent` pointer points
      to (None for nil or for a type without that field), and its other
      fields, which only the store's decoder reads or writes. */
  datatype Rec = Rec(id: string, parent: Option<Rec>, fields: map<string, string>)

  /** One step of a document path: a collection and a document ID in it. */
  datatype Segment = Segment(collection: string, id: string)

  /** A document location, outermost segment first. */
  type Location = seq<Segment>

  /** A collection: its name and the document it is nested under ([] for a
      root collection). */
  datatype CollectionRef = CollectionRef(parent: Location, name: string)

  /** An ID the store allocates for a new document; never empty. */
  type DocId = s: string | s != "" witness "x"

  /** The document `id` inside collection `c`. */
  function Doc(c: CollectionRef, id: string): (loc: Location)
    ensures |loc| == |c.parent| + 1 && loc[..|c.parent|] == c.parent
    ensures loc[|c.parent|] == Segment(c.name, id)
  {
    c.parent + [Segment(c.name, id)]
  }

  /** A document snapshot: whether the document exists, and its data. */
  datatype Snapshot = Snapshot(present: bool, data: map<string, string>)

  /** What the store answers to a successful write. */
  datatype WriteResult = WriteResult(updateTime: int)

  /** What the decoder (DataTo) leaves behind: the record as it stands after
      decoding, which may be partly filled when decoding stops with an
      error, and that error. */
  datatype Decoded = Decoded(rec: Rec, err: Option<Error>)

  /** The store as an oracle: for every request, the answer it gives. It also
      holds the decoder (DataTo) that fills a record from a snapshot. */
  datatype Store = Store(
    getDoc: Location -> Result<Snapshot>,
    getDocs: seq<Location> -> Result<seq<Snapshot>>,
    createDoc: (Location, Rec) -> Result<WriteResult>,
    setDoc: (Location, Rec) -> Result<WriteResult>,
    deleteDoc: Location -> Result<WriteResult>,
    dataTo: (Snapshot, Rec) -> Decoded)

  /** The store answers a batch read with one snapshot per reference. */
  ghost predicate BatchAligned(store: Store)
  {
    forall refs: seq<Location> :: store.getDocs(refs).Success? ==> |store.getDocs(refs).value| == |refs|
  }

  /** The requests that reach the store, in the order they are sent. */
  datatype StoreCall =
    | GetDoc(loc: Location)
    | GetDocs(locs: seq<Location>)
    | CreateDoc(loc: Location, rec: Rec)
    | SetDoc(loc: Location, rec: Rec)
    | DeleteDoc(loc: Location)
}
