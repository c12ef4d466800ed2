/** RunTransaction of transaction.go: the body runs on a copy of the
    client that carries the attempt's transaction handle; the copy's
    failure callbacks run, in order, only when the store reports failure. */
module Transaction {
  import opened Types
  import opened Clients

  /** One call of the caller's body: the client it received and the
      transaction handle that client carried at that moment. */
  datatype BodyCall = BodyCall(client: Client, handle: Option<TransactionHandle>)

  /** RunTransaction. The store's runner is an input: it calls the body once
      per attempt, with that attempt's handle, and then answers `runnerErr`
      (its retry policy and commit are the store's). `ran` lists the failure
      callbacks in the order they were run. */
  method RunTransaction(c: Client, attempts: seq<TransactionHandle>, runnerErr: Option<Error>)
    returns (err: Option<Error>, txClient: Client, calls: seq<BodyCall>, ran: seq<Callback>)
    ensures fresh(txClient)
    ensures c.firestoreTransaction == old(c.firestoreTransaction)
    ensures c.transactionFailureCallbacks == old(c.transactionFailureCallbacks)
    ensures txClient.firestoreClient == c.firestoreClient
    ensures txClient.transactionFailureCallbacks == c.transactionFailureCallbacks
    ensures txClient.firestoreTransaction == if attempts == [] then c.firestoreTransaction else Some(attempts[|attempts| - 1])
    ensures |calls| == |attempts| && forall i :: 0 <= i < |calls| ==> calls[i] == BodyCall(txClient, Some(attempts[i]))
    ensures err == runnerErr
    ensures ran == if runnerErr.Some? then c.transactionFailureCallbacks else []
  {
    var newClient := new Client.Copy(c);
    calls := [];
    var i := 0;
    while i < |attempts|
      invariant 0 <= i <= |attempts| && |calls| == i
      invariant newClient.firestoreClient == c.firestoreClient
      invariant newClient.transactionFailureCallbacks == c.transactionFailureCallbacks
      invariant newClient.firestoreTransaction == if i == 0 then c.firestoreTransaction else Some(attempts[i - 1])
      invariant forall j :: 0 <= j < i ==> calls[j] == BodyCall(newClient, Some(attempts[j]))
    {
      newClient.firestoreTransaction := Some(attempts[i]);
      calls := calls + [BodyCall(newClient, newClient.firestoreTransaction)];
      i := i + 1;
    }
    err := runnerErr;
    ran := [];
    if err.Some? {
      var callbacks := newClient.transactionFailureCallbacks;
      var j := 0;
      while j < |callbacks|
        invariant 0 <= j <= |callbacks| && ran == callbacks[..j]
      {
        ran := ran + [callbacks[j]];
        j := j + 1;
      }
    }
    txClient := newClient;
  }
}
