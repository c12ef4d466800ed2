/** The client of client.go: its state (the store client, the transaction
    handle of a transaction-scoped copy, the failure callbacks) and the
    discovery of the project ID from the environment. */
module Clients {
  import opened Types

  /** The environment variables that name the project, in priority order. */
  const KnownProjectIDEnvs: seq<string> := ["CLOUDSDK_CORE_PROJECT", "GOOGLE_CLOUD_PROJECT"]

  /** The store library's sentinel asking it to find the project from the
      credentials (firestore.DetectProjectID). */
  const DetectProjectID: string := "*detect-project-id*"

  /** The value of the first listed variable that is set, even to the empty
      string (presence is what counts). */
  function FirstPresent(names: seq<string>, env: map<string, string>): (r: Option<string>)
    ensures r.None? <==> forall i :: 0 <= i < |names| ==> names[i] !in env
    ensures r.Some? ==>
      exists i :: 0 <= i < |names| && names[i] in env && env[names[i]] == r.value
        && forall j :: 0 <= j < i ==> names[j] !in env
  {
    if names == [] then None
    else if names[0] in env then Some(env[names[0]])
    else
      var r := FirstPresent(names[1..], env);
      assert forall i :: 1 <= i < |names| ==> names[i] == names[1..][i - 1];
      r
  }

  /** getProjectID. */
  function GetProjectID(env: map<string, string>): (id: string)
    ensures (forall i :: 0 <= i < |KnownProjectIDEnvs| ==> KnownProjectIDEnvs[i] !in env) ==> id == DetectProjectID
    ensures "CLOUDSDK_CORE_PROJECT" in env ==> id == env["CLOUDSDK_CORE_PROJECT"]
    ensures "CLOUDSDK_CORE_PROJECT" !in env && "GOOGLE_CLOUD_PROJECT" in env ==> id == env["GOOGLE_CLOUD_PROJECT"]
  {
    assert KnownProjectIDEnvs[0] == "CLOUDSDK_CORE_PROJECT" && KnownProjectIDEnvs[1] == "GOOGLE_CLOUD_PROJECT";
    match FirstPresent(KnownProjectIDEnvs, env)
    case Some(v) => v
    case None => DetectProjectID
  }

  /** getProjectID's scan: the variables are looked up in order and the
      first one set is returned. */
  method LookupProjectID(env: map<string, string>) returns (id: string)
    ensures id == GetProjectID(env)
  {
    var i := 0;
    while i < |KnownProjectIDEnvs|
      invariant 0 <= i <= |KnownProjectIDEnvs|
      invariant FirstPresent(KnownProjectIDEnvs, env) == FirstPresent(KnownProjectIDEnvs[i..], env)
    {
      var name := KnownProjectIDEnvs[i];
      if name in env {
        return env[name];
      }
      assert KnownProjectIDEnvs[i..][1..] == KnownProjectIDEnvs[i + 1..];
      i := i + 1;
    }
    id := DetectProjectID;
  }

  /** The cases of client_test.go, and a variable set to the empty string. */
  lemma ProjectIDTestCases()
    ensures GetProjectID(map[]) == DetectProjectID
    ensures GetProjectID(map["CLOUDSDK_CORE_PROJECT" := "project1", "GOOGLE_CLOUD_PROJECT" := "project2"]) == "project1"
    ensures GetProjectID(map["GOOGLE_CLOUD_PROJECT" := "project2"]) == "project2"
    ensures GetProjectID(map["CLOUDSDK_CORE_PROJECT" := "", "GOOGLE_CLOUD_PROJECT" := "project2"]) == ""
  {
  }

  /** A handle to the underlying store client. */
  datatype FirestoreClient = FirestoreClient(handle: nat)

  /** The store's handle of one transaction attempt. */
  datatype TransactionHandle = TransactionHandle(attempt: nat)

  /** A failure callback; running it is recorded, not interpreted. */
  datatype Callback = Callback(id: nat)

  class Client {
    const firestoreClient: FirestoreClient
    var firestoreTransaction: Option<TransactionHandle>
    var transactionFailureCallbacks: seq<Callback>

    /** The state NewWithProjectID builds: no transaction, no callbacks. */
    constructor (fc: FirestoreClient)
      ensures firestoreClient == fc && firestoreTransaction == None && transactionFailureCallbacks == []
    {
      firestoreClient := fc;
      firestoreTransaction := None;
      transactionFailureCallbacks := [];
    }

    /** A field-by-field copy (`newClient := *c`). */
    constructor Copy(c: Client)
      ensures firestoreClient == c.firestoreClient
      ensures firestoreTransaction == c.firestoreTransaction
      ensures transactionFailureCallbacks == c.transactionFailureCallbacks
    {
      firestoreClient := c.firestoreClient;
      firestoreTransaction := c.firestoreTransaction;
      transactionFailureCallbacks := c.transactionFailureCallbacks;
    }
  }

  /** NewWithProjectID: `connect` is the store library's client constructor
      for a project ID. */
  method NewWithProjectID(projectID: string, connect: string -> Result<FirestoreClient>) returns (c: Client?, err: Option<Error>)
    ensures connect(projectID).Failure? ==> c == null && err == Some(connect(projectID).error)
    ensures connect(projectID).Success? ==>
      err == None && c != null && fresh(c) && c.firestoreClient == connect(projectID).value
      && c.firestoreTransaction == None && c.transactionFailureCallbacks == []
  {
    var fc := connect(projectID);
    if fc.Failure? {
      return null, Some(fc.error);
    }
    c := new Client(fc.value);
    err := None;
  }

  /** New: NewWithProjectID with the project ID found in the environment. */
  method New(env: map<string, string>, connect: string -> Result<FirestoreClient>) returns (c: Client?, err: Option<Error>)
    ensures connect(GetProjectID(env)).Failure? ==> c == null && err == Some(connect(GetProjectID(env)).error)
    ensures connect(GetProjectID(env)).Success? ==>
      err == None && c != null && fresh(c) && c.firestoreClient == connect(GetProjectID(env)).value
      && c.firestoreTransaction == None && c.transactionFailureCallbacks == []
  {
    c, err := NewWithProjectID(GetProjectID(env), connect);
  }
}
