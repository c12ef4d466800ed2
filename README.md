# simplestore, modelled in Dafny

simplestore is a thin Go layer over a Firestore client. It maps struct
records to documents by reflection. The type name is the collection, the
`ID` string field is the document ID, and an optional `Parent` pointer field
places the document under its parent's document. On top of that mapping the
client offers:

- single and batch reads, and create/set/delete;
- transactions, which run the caller's body on a copy of the client that
  carries the transaction handle;
- queries, which are built by copying and run through an iterator.

This project models that core:

- **Types** (`types.dfy`): the values everything else shares.
  - Go type shapes, reduced to what reflection inspects.
  - Records.
  - Document locations, as a path of (collection, ID) segments.
  - The library's error reasons.
  - The store as an oracle. Its answers to each request are inputs, and so
    is its decoder `dataTo`.
- **Reflect** (`reflect.go`), covering:
  - building the accessor chain for a type;
  - resolving a record to its document, with or without ID generation;
  - the ID write-back;
  - the reference list of a slice;
  - the root collection of a slice.
- **Crud** (`crud.go`): Get, GetAll, Create, Set and Delete. Each returns
  the requests it sent to the store (`issued`) as well as its result. A
  record pointer is a `RecordPtr` object. A slice of record pointers is an
  `array<Item>`.
- **Clients** (`client.go`): project ID discovery from the environment, and
  the client object with its transaction handle and failure callbacks.
- **Transaction** (`transaction.go`): RunTransaction. The store's
  transaction runner is an input: it lists the attempt handles, and it
  gives the runner's final error.
- **Queries** (`query.go`), covering:
  - the query value;
  - its constructors and their panicking variants;
  - the nine builders;
  - Iter over the store's iterator answers;
  - GetAll into the target slice.

Behaviour of the code worth knowing:

- Get, GetAll, Create, Set and Delete (crud.go) do not route through a
  transaction the client may carry. Only queries do (query.go:102-106), so
  only queries read through a transaction here.
- Nothing in the modelled code appends to `transactionFailureCallbacks`. The
  callbacks RunTransaction runs are therefore those of the client it was
  called on.
- The ID write-back of Create and Set (crud.go:76, crud.go:92) happens only
  after the store accepted the write. It is not a rollback. The record is
  sent to the store with its ID still empty.
- GetDocumentRefSafe returns early for a nil record, before the type is
  examined (reflect.go:94-97). prepareSetDocument examines the type first
  and refuses nil afterwards (reflect.go:109-120).
- The query constructors in query.go call collection helpers that return a
  target builder as well (query.go:20, 47, 75). Those helpers, and the
  builder type, are not part of this model. Their answers are inputs of the
  constructors.

## Model

| member | source | states |
|---|---|---|
| Reflect.NewAccessor | reflect.go:20-51 | fails only with a ProgrammingError; on success the accessor describes the pointed-to struct, its collection is the struct's name, and it has a parent accessor exactly when the struct has a `Parent` field |
| Reflect.NewAccessorSucceedsIffAccepted | reflect.go:26-49 | building succeeds if and only if the struct has a string `ID` field and every `Parent` field, transitively, is a pointer to a struct accepted by the same rule |
| Reflect.DescriptorChain | reflect.go:38-49 | the accessor chain is as long as the chain of `Parent` types, and each parent accessor is the accessor of the parent field's type |
| Reflect.ParentRejectionIsWrapped | reflect.go:44-48 | a rejected parent type is reported as "invalid parent in" the child's type, carrying the parent's own reason |
| Reflect.AccessorTestCases | reflect.go:26-48 | the accepted and rejected types of the reflection tests get the error each test expects: not a struct, no ID, ID not a string, parent not a pointer, invalid parent, invalid grandparent |
| Reflect.GetDocumentRef | reflect.go:53-83 | a nil record resolves to no document and no error; failures are ProgrammingErrors of non-nil records; the document is reported new only when generation was allowed; an empty ID without generation fails; the last segment is the type's collection and the record's ID, or the fresh ID when the record has none |
| Reflect.ResolvesIffResolvable | reflect.go:53-83 | resolution succeeds exactly when every record on the parent chain has an ID, except that the leaf may lack one while generation is allowed |
| Reflect.NoGenerationIgnoresFresh | reflect.go:63 | without generation the fresh ID has no effect, so parents never receive a generated ID |
| Reflect.ChildUnderParent | reflect.go:61-70 | with a non-nil parent, the child's document is the parent's document followed by (collection, ID) |
| Reflect.AtRoot | reflect.go:72-74 | with no `Parent` field, or a nil parent, the document sits in the root collection named after the type |
| Reflect.ParentWithoutId | reflect.go:63-66 | a parent without an ID makes the child fail with "invalid parent" naming the child's type, even when the child may get a fresh ID |
| Reflect.NestedPathExample | reflect.go:53-83 | a Document "123" under a ParentDocument "c" resolves to the path ParentDocument/c/Document/123 |
| Reflect.GetDocumentRefAsWritten | reflect.go:82 | line 82 as written: the same document and the same errors as the corrected resolution, but every non-nil record is reported new |
| Reflect.ExistingIdReportedAsNew | reflect.go:82 | as written, a record whose ID is already "123" is reported new whether or not generation was allowed |
| Reflect.SetID | reflect.go:85-88 | the record's ID becomes the given ID and nothing else changes |
| Reflect.GetDocumentRefSafe | reflect.go:90-104 | nil resolves to no document without checking the type; an unusable type's error is passed on; a record without an ID fails with a ProgrammingError; otherwise the document ends in (type name, ID) |
| Reflect.GetDocumentRefOrPanic | reflect.go:132-138 | panics exactly when GetDocumentRefSafe fails, and always with a ProgrammingError; nil returns no document |
| Reflect.EmptyIdIsNotSet | reflect.go:75-80 | without generation, a record whose own ID is empty fails with "ID is not set" when its type and ancestors are in order |
| Reflect.PrepareSetDocument | reflect.go:108-127 | an unusable type's error is passed on; nil fails with "object is nil"; failures are ProgrammingErrors; on success the document ends in (type name, the record's ID or the fresh ID), and after the write-back the record has a non-empty ID; a record that had an ID is left unchanged |
| Reflect.PrepareSetDocumentAsWritten | reflect.go:108-127 | prepareSetDocument on top of line 82 as written: the same type and nil errors as the corrected version, but every successful preparation schedules an ID write-back, also for a record whose ID is already set |
| Reflect.AsWrittenWriteBackIsHarmless | reflect.go:121-126 | as written, the write-back of a record that already has an ID rewrites that same ID: the outcome and the target document equal the corrected version's |
| Reflect.Refs | reflect.go:148-156 | the list succeeds exactly when every element resolves, and then holds each element's document in order; otherwise it returns the first element's error |
| Reflect.RefListAligned | reflect.go:142-174 | the reference list is as long as the slice, nil exactly where the slice holds nil, and every failure is a ProgrammingError |
| Reflect.CollectRefs | reflect.go:148-156 | the loop returns the list Refs describes |
| Reflect.GetDocumentRefListSafe | reflect.go:142-157 | a struct element type takes the same-type path; any other element type resolves each element by its own dynamic type |
| Reflect.GetDocumentRefListSafeWithSameType | reflect.go:159-174 | an unusable element type fails before any element is looked at; otherwise each element resolves through the one accessor of the slice type |
| Reflect.GetCollectionRef | reflect.go:176-182 | succeeds exactly for a pointer-to-struct element type, returning the root collection named after the struct, and otherwise fails with "value must be a pointer of a struct" |
| Reflect.CollectionOfAcceptedType | reflect.go:176-182 | for a type accepted by newAccessor, the collection is the accessor's collection |
| Crud.Get | crud.go:13-23 | a resolution error is returned with no request sent; a nil record returns the store's nil-reference error with no request sent; otherwise exactly one read of that document is sent; a read error is returned with the record unchanged; otherwise the snapshot is decoded into the record in place, and the record is what the decoder left (partly filled if it stopped) and the error is the decoder's |
| Crud.Positions | crud.go:41-47 | the positions of the non-nil references, strictly increasing, and every non-nil position is among them |
| Crud.ValidRefs | crud.go:41-47 | the non-nil references, in slice order |
| Crud.Records | crud.go:56-61 | the records at the given positions of the slice |
| Crud.SplitValid | crud.go:37-47 | the loop produces those positions and references |
| Crud.FillStep | crud.go:53-59 | the snapshot of a missing document, or a nil slot, leaves the slot as it is with no error; otherwise the slot holds what the decoder left in its record, and the error is the decoder's; the slot's type and nil-ness are kept |
| Crud.FillRecords | crud.go:52-60 | snapshots of missing documents are skipped; each existing one is decoded into its record, in order and in place; the loop ends with no error exactly when no decoding fails; otherwise it returns the first decoding error, the records up to and including the failing one are as decoding left them, and the rest are unchanged |
| Crud.PositionsAreNonNilRecords | crud.go:41-47 | the kept positions are exactly the slice's non-nil records |
| Crud.GetAll | crud.go:29-62 | a list error is returned with no request sent; an empty list returns nil, nil; otherwise one batch read of the non-nil documents is sent; a store error is returned with the slice unchanged; otherwise the records are filled as FillRecords states: on success the non-nil records are returned in slice order, and on the first decoding error that error is returned with the records up to and including the failing one decoded in place |
| Crud.Create | crud.go:67-78 | resolution errors are returned with no request sent and the record unchanged; otherwise exactly one create of the record as given is sent; a failed write leaves the record unchanged; a successful one leaves it with a non-empty ID: the fresh ID when it had none, its own otherwise, with nothing else changed |
| Crud.Set | crud.go:83-94 | the same as Create, with a set request |
| Crud.Delete | crud.go:98-104 | a resolution error is returned with no request sent; a nil record returns the store's nil-reference error; otherwise exactly one delete of that document is sent and its answer returned |
| Clients.FirstPresent | client.go:82-88 | none is found exactly when no listed variable is set; otherwise the value of the first listed variable that is set |
| Clients.GetProjectID | client.go:82-90 | CLOUDSDK_CORE_PROJECT wins when set, then GOOGLE_CLOUD_PROJECT; with neither set, the store's detect-project sentinel |
| Clients.LookupProjectID | client.go:82-90 | the loop returns getProjectID's answer |
| Clients.ProjectIDTestCases | client.go:82-90 | nothing set gives the sentinel; both set gives the first; only the second set gives the second; a variable set to the empty string still counts |
| Clients.Client.constructor | client.go:60-62 | a new client has no transaction and no failure callbacks |
| Clients.Client.Copy | transaction.go:10 | the copy has the same store client, transaction handle and callbacks |
| Clients.NewWithProjectID | client.go:55-63 | a connection error is returned with no client; otherwise a new client with no transaction and no callbacks |
| Clients.New | client.go:50-52 | NewWithProjectID for the project ID found in the environment |
| Transaction.RunTransaction | transaction.go:9-21 | the caller's client is unchanged; the body runs once per attempt, always on the same new copy, which carries that attempt's handle; the runner's error is returned; the failure callbacks run in order exactly when that error is set |
| Queries.Start | query.go:24-28 | a resolved target gives a query with no refinements and the client's transaction handle; a failed one gives its error |
| Queries.QuerySafe | query.go:19-29 | fails exactly when the collection lookup fails, with its error; otherwise queries that collection, collecting into that target and reading through the client's transaction |
| Queries.QueryGroupSafe | query.go:46-56 | fails exactly when the collection-group lookup fails, with its error; otherwise queries the group the lookup answers, collecting into its target and reading through the client's transaction |
| Queries.QueryNestedSafe | query.go:74-84 | fails exactly when the nested-collection lookup fails, with its error; otherwise queries the collection of the answered name under the answered parent document, collecting into its target and reading through the client's transaction |
| Types.OrPanic | query.go:35-41 | a failure becomes a panic with that error; a success is returned |
| Queries.QueryOrPanic | query.go:35-41 | panics exactly when the lookup fails, with its error; otherwise returns QuerySafe's query |
| Queries.QueryGroupOrPanic | query.go:62-68 | panics exactly when QueryGroupSafe fails, with its error; otherwise returns its query |
| Queries.QueryNestedOrPanic | query.go:90-96 | panics exactly when QueryNestedSafe fails, with its error; otherwise returns its query |
| Queries.Where | query.go:139-143 | a copy with the filter appended; source, target and transaction are kept |
| Queries.OrderBy | query.go:146-150 | a copy with the ordering appended |
| Queries.Offset | query.go:153-157 | a copy with the offset appended |
| Queries.Limit | query.go:160-164 | a copy with the limit appended |
| Queries.LimitToLast | query.go:167-171 | a copy with the last-n limit appended |
| Queries.StartAt | query.go:174-178 | a copy with the start-at cursor appended |
| Queries.StartAfter | query.go:181-185 | a copy with the start-after cursor appended |
| Queries.EndAt | query.go:188-192 | a copy with the end-at cursor appended |
| Queries.EndBefore | query.go:195-199 | a copy with the end-before cursor appended |
| Queries.ChainAppends | query.go:139-199 | any chain of builder calls keeps the base query's target and transaction, and appends its refinements after the base's in call order; the base itself is a value and never changes |
| Queries.ReadViewOf | query.go:101-106 | a query reads through a transaction exactly when it carries one, and then through that handle |
| Queries.QueryReadsThroughClientTransaction | query.go:19-29 | a query started on a client, refined by any chain, reads through that client's transaction exactly when the client carries one |
| Queries.IterOutcomeUnique | query.go:100-127 | the outcome of a walk over given iterator answers is determined: one error and one list of delivered elements |
| Queries.Iter | query.go:100-127 | walks the iterator answers in order; stops without error at Done or at the end; returns the first iterator error, decoding error or callback error; each element is decoded into a blank element and handed to the callback, and an element whose decoding fails is dropped |
| Queries.AppendAll | query.go:132-135 | GetAll's callback never fails |
| Queries.AcceptingWalk | query.go:131-136 | with GetAll's callback, the walk ends without error exactly at Done or at the end of the answers, and otherwise at an iterator or decoding error |
| Queries.GetAll | query.go:131-136 | the target slice keeps its old elements, and after them come the decoded documents, in order, up to the point where the walk stopped |

## Left out

- The store client itself is not modelled: the network, contexts, retries, commits, the ID generator and the decoder. Its answers are inputs: the `Store` oracle, the fresh `DocId`, the iterator answers and the transaction runner's attempts and error.
- Store decoding (`DataTo`) is an oracle. It answers the record as it left it, possibly partly filled, together with its error if any. Which fields a failing decode has already written is the oracle's choice.
- The ID generated for a new document is an input of type `DocId`, which is never empty.
- Go's `any` parameters are modelled as pointers to records of a known type shape. A non-pointer argument panics inside reflection. The reflection tests expect a ProgrammingError there. The model requires a pointer instead (`requires pt.Pointer?`).
- Self-referential struct types are not modelled. Go's recursive newAccessor never terminates on them. Type shapes here are finite trees.
- Reflect.GetDocumentRefSafe, Reflect.PrepareSetDocument: reflect.go:93 and reflect.go:108 take `*any`, while crud.go:14, crud.go:30, crud.go:68, crud.go:84 and crud.go:99 pass an `any`. Read literally, the type of a `*any` is a pointer to an interface, and newAccessor would refuse every non-nil record at reflect.go:26-27. The model reads that type as the record's own pointer type instead. The nil test at reflect.go:94 is read literally: a nil record returns before its type is examined. With crud.go's `any` argument a typed nil pointer is not equal to nil, so its type would be examined first. The two readings differ in one case only: a nil pointer of a rejected type. There the model answers no document (Get and Delete then report the nil-reference error), where the `any` reading gives the type's ProgrammingError.
- Crud.GetAll: the destination slice is the caller's array. Aliasing between slots, or between a slot and a record's parent, is not modelled. Each slot holds its own value.
- Crud.GetAll requires `BatchAligned`: a successful batch read answers one snapshot per reference.
- Crud.Create, Crud.Set: on a failed write the source returns the WriteResult together with the error. The model keeps only the error.
- SetOption (crud.go:83) and Precondition (crud.go:98) are passed to the store untouched. They are not modelled.
- client.go's Close and NewWithScope are not modelled. They release a connection and run a callback around New.
- The table maps, the read-only flag and Count of the wider library do not exist in the modelled code.
- typesafed.go, errors.go's message formatting, struct.go and the IDer interface are not part of this model.
- Error messages are modelled as the `Reason` constructors, not as formatted strings.
- The collection helpers used by the query constructors, and the target builder, are not part of this model. The model keeps only their results and the slice the builder collects into.
- Concurrency and the store's transaction isolation are not modelled.
- Query values are not interpreted: filters, orderings, limits, offsets and cursors are recorded in order, with no semantics.

## Findings

| source | as written | input that shows it | evidently intended | confidence | as-written member | corrected member |
|---|---|---|---|---|---|---|
| reflect.go:82 | every non-nil record whose document was found is reported new (`true`) | a record of a type with a string ID, whose ID is "123", resolved with or without ID generation | a record that already has an ID is not new (reflect_test.go expects `false`) | not executed | Reflect.GetDocumentRefAsWritten, Reflect.PrepareSetDocumentAsWritten, Reflect.ExistingIdReportedAsNew | Reflect.GetDocumentRef |
