/** The custom-resource handler (src/constructs/bedrockKnowledgeBase/functions/crudKnowledgeBase.ts): on Create it
    provisions the policies, the collection, the index, the knowledge base and the data source in
    that order; on Update it reads the persisted identifiers back; on Delete it tears the
    resources down and removes the persisted identifiers. Every failure is thrown out of the
    handler: nothing earlier is undone. */
module KnowledgeBaseLifecycle {
  import opened Outcomes
  import opened Naming
  import opened Requests
  import opened Parameters
  import opened OpenSearchServerless
  import opened BedrockKnowledgeBase

  datatype RequestType = Create | Update | Delete

  /** The resource properties the handler reads. `accessPolicyArns` is the JSON-encoded list of
      extra principals, here already decoded: None when it does not parse as a list of strings. */
  datatype Properties = Properties(namePrefix: string, nameSuffix: string, knowledgeBaseBucketArn: string,
                                   knowledgeBaseRoleArn: string, knowledgeBaseCustomResourceRole: string,
                                   accessPolicyArns: Option<seq<string>>, knowledgeBaseEmbeddingModelArn: string)

  function NamesOf(p: Properties): Names {
    Names(p.namePrefix, p.nameSuffix)
  }

  datatype Event = Event(requestType: RequestType, resourceProperties: Properties,
                         stackId: string, requestId: string, logicalResourceId: string)

  /** The attributes the handler reports back to the stack. */
  datatype Data = Data(collectionArn: string, collectionId: string, collectionName: string,
                       collectionEndpoint: string, dataSourceId: string, knowledgeBaseId: string)

  /** The response object; every field starts out unset. */
  datatype Response = Response(status: Option<string>, reason: Option<string>, data: Option<Data>,
                               stackId: Option<string>, requestId: Option<string>,
                               logicalResourceId: Option<string>, physicalResourceId: Option<string>)

  const EmptyResponse: Response := Response(None, None, None, None, None, None, None)

  const Success: string := "SUCCESS"
  const CreateReason: string := "CreateKnowledgeBaseSuccessful"
  const UpdateReason: string := "UpdateKnowledgeBase successful"
  const DeleteReason: string := "DeleteKnowledgeBase successful"

  /** The provider's answers to every request the handler may send, and the parameter names the
      store fails requests about: `unreachable` for a put or a get, `undeletable` for a delete.
      A get and the later delete of the same name are separate requests, so either may fail
      while the other goes through. */
  datatype Script = Script(
    accessPolicyAccepted: bool, networkPolicyAccepted: bool, encryptionPolicyAccepted: bool,
    collectionCreated: Option<string>, polls: seq<PollAnswer>, indexAccepted: bool,
    knowledgeBase: KnowledgeBaseAnswer, dataSource: DataSourceAnswer,
    accessPolicyDeleted: bool, networkPolicyDeleted: bool, encryptionPolicyDeleted: bool,
    collectionDeleted: bool, knowledgeBaseDeleted: bool,
    unreachable: set<string>, undeletable: set<string>)

  // ---------------------------------------------------------------- Create

  /** A request that removes something. */
  predicate IsDeletion(c: Call) {
    c.DeleteAccessPolicyCall? || c.DeleteSecurityPolicyCall? || c.DeleteCollectionCall? || c.DeleteKnowledgeBaseCall?
  }

  /** The first three steps of Create: the access policy and the two security policies. The
      first one that throws ends the branch. */
  function PolicyCreation(p: Properties, s: Script): (r: Exchange<()>)
    ensures var access := CreateAccessPolicy(NamesOf(p), p.knowledgeBaseRoleArn, p.knowledgeBaseCustomResourceRole,
                                             p.accessPolicyArns, s.accessPolicyAccepted);
            && (r.result.Ok? <==> access.result.Ok? && s.networkPolicyAccepted && s.encryptionPolicyAccepted)
            && (r.result.Ok? ==> r.sent == access.sent + CreateNetworkSecurityPolicy(NamesOf(p), true).sent
                                           + CreateEncryptionSecurityPolicy(NamesOf(p), true).sent)
            && |r.sent| <= 3
            && (forall c | c in r.sent :: c.CreateAccessPolicyCall? || c.CreateSecurityPolicyCall?)
  {
    var n := NamesOf(p);
    var access := CreateAccessPolicy(n, p.knowledgeBaseRoleArn, p.knowledgeBaseCustomResourceRole,
                                     p.accessPolicyArns, s.accessPolicyAccepted);
    if access.result.Err? then access else
    var network := CreateNetworkSecurityPolicy(n, s.networkPolicyAccepted);
    if network.result.Err? then Exchange(network.result, access.sent + network.sent) else
    var encryption := CreateEncryptionSecurityPolicy(n, s.encryptionPolicyAccepted);
    Exchange(encryption.result, access.sent + network.sent + encryption.sent)
  }

  /** The last three steps of Create, on the collection `c`: the index on its endpoint (which
      never throws), the knowledge base bound to its ARN, and the data source bound to the
      knowledge base's id. */
  function Provisioning(m: map<string, string>, p: Properties, s: Script, c: CollectionDetail): (r: Run<Data>)
    ensures 2 <= |r.sent| <= 3
  {
    var n := NamesOf(p);
    var index := CreateIndex(c.collectionEndpoint, n, s.indexAccepted);
    var kb := KnowledgeBaseCreation(m, n, p.knowledgeBaseRoleArn, p.knowledgeBaseEmbeddingModelArn, c.arn,
                                    s.knowledgeBase, s.unreachable);
    if kb.result.Err? then Run(Err(kb.result.error), kb.params, index.sent + kb.sent) else
    var ds := DataSourceCreation(kb.params, p.knowledgeBaseBucketArn, kb.result.value.knowledgeBaseId, n,
                                 s.dataSource, s.unreachable);
    Run(if ds.result.Ok? then Ok(Data(c.arn, c.id, c.name, c.collectionEndpoint, ds.result.value, kb.result.value.knowledgeBaseId))
        else Err(ds.result.error),
        ds.params, index.sent + kb.sent + ds.sent)
  }

  /** The knowledge base succeeds when the answer carries a non-empty id and ARN and both puts go through. */
  predicate KnowledgeBaseStepSucceeds(n: Names, s: Script) {
    && s.knowledgeBase.KnowledgeBaseReturned?
    && s.knowledgeBase.knowledgeBaseId != "" && s.knowledgeBase.knowledgeBaseArn != ""
    && ParameterPath(n, "knowledgeBaseId") !in s.unreachable
    && ParameterPath(n, "knowledgeBaseArn") !in s.unreachable
  }

  /** The data source succeeds when the answer carries a non-empty id and its put goes through. */
  predicate DataSourceStepSucceeds(n: Names, s: Script) {
    && s.dataSource.DataSourceReturned? && s.dataSource.dataSourceId != ""
    && ParameterPath(n, "dataSourceId") !in s.unreachable
  }

  /** The requests of the last three steps: always the index and the knowledge base, on the
      collection's endpoint and ARN; the data source, bound to the new knowledge base's id, only
      when the knowledge-base step succeeded. */
  lemma ProvisioningSent(m: map<string, string>, p: Properties, s: Script, c: CollectionDetail)
    ensures var r := Provisioning(m, p, s, c);
            var n := NamesOf(p);
            && (forall call | call in r.sent ::
                  call.CreateIndexCall? || call.CreateKnowledgeBaseCall? || call.CreateDataSourceCall?)
            && r.sent[0] == CreateIndexCall(c.collectionEndpoint, ResourceName(n), VectorIndexMapping(n))
            && r.sent[1] == KnowledgeBaseRequest(n, p.knowledgeBaseRoleArn, p.knowledgeBaseEmbeddingModelArn, c.arn)
            && (|r.sent| == 3 <==> KnowledgeBaseStepSucceeds(n, s))
            && (|r.sent| == 3 ==> r.sent[2] == DataSourceRequest(n, p.knowledgeBaseBucketArn, s.knowledgeBase.knowledgeBaseId))
  {
  }

  /** How the last three steps end: the knowledge-base error when its step fails, the data-source
      error when that one fails, and otherwise the reported identifiers, all persisted. */
  lemma ProvisioningOutcome(m: map<string, string>, p: Properties, s: Script, c: CollectionDetail)
    ensures var r := Provisioning(m, p, s, c);
            var n := NamesOf(p);
            && (!KnowledgeBaseStepSucceeds(n, s) ==> r.result == Err(KnowledgeBaseFailure))
            && (KnowledgeBaseStepSucceeds(n, s) && !DataSourceStepSucceeds(n, s) ==> r.result == Err(DataSourceFailure))
            && (r.result.Ok? <==> KnowledgeBaseStepSucceeds(n, s) && DataSourceStepSucceeds(n, s))
            && (r.result.Ok? ==>
                  && r.result.value == Data(c.arn, c.id, c.name, c.collectionEndpoint,
                                            s.dataSource.dataSourceId, s.knowledgeBase.knowledgeBaseId)
                  && r.params == m[ParameterPath(n, "knowledgeBaseId") := s.knowledgeBase.knowledgeBaseId]
                                  [ParameterPath(n, "knowledgeBaseArn") := s.knowledgeBase.knowledgeBaseArn]
                                  [ParameterPath(n, "dataSourceId") := s.dataSource.dataSourceId])
  {
  }

  /** Whatever happens, the last three steps lose no key and change none but their own three. */
  lemma ProvisioningFrame(m: map<string, string>, p: Properties, s: Script, c: CollectionDetail)
    ensures var r := Provisioning(m, p, s, c);
            var n := NamesOf(p);
            && m.Keys <= r.params.Keys
            && (forall k | k != ParameterPath(n, "knowledgeBaseId") && k != ParameterPath(n, "knowledgeBaseArn")
                           && k != ParameterPath(n, "dataSourceId") :: SameAt(m, r.params, k))
  {
  }

  /** The Create branch: the policies, the collection, then the rest on that collection. Each
      step is awaited and the first one that throws ends the branch, leaving every request and
      every put made so far in place. */
  function Creation(m: map<string, string>, p: Properties, s: Script): Run<Data> {
    var policies := PolicyCreation(p, s);
    if policies.result.Err? then Run(Err(policies.result.error), m, policies.sent) else
    var collection := CollectionCreation(m, NamesOf(p), s.collectionCreated, s.polls, s.unreachable);
    if collection.result.Err? then Run(Err(collection.result.error), collection.params, policies.sent + collection.sent) else
    var rest := Provisioning(collection.params, p, s, collection.result.value);
    Run(rest.result, rest.params, policies.sent + collection.sent + rest.sent)
  }

  // ---------------------------------------------------------------- Update

  /** The Update branch: read the collection's identifiers, then the knowledge base's; nothing is
      sent and nothing is written. */
  function Readback(m: map<string, string>, n: Names, unreachable: set<string>): Result<Data> {
    match UpdateCollection(m, n, unreachable)
    case Err(e) => Err(e)
    case Ok(ci) =>
      match UpdateKnowledgeBase(m, n, unreachable)
      case Err(e) => Err(e)
      case Ok(ki) =>
        Ok(Data(ci.collectionArn, ci.collectionId, ci.collectionName, ci.collectionEndpoint,
                ki.dataSourceId, ki.knowledgeBaseId))
  }

  // ---------------------------------------------------------------- Delete

  /** The three policy deletions Delete starts with; each swallows its own failure. */
  function PolicyDeletions(n: Names, s: Script): seq<Call> {
    DeleteAccessPolicy(n, s.accessPolicyDeleted).sent
    + DeleteSecurityPolicy(n, "network", s.networkPolicyDeleted).sent
    + DeleteSecurityPolicy(n, "encryption", s.encryptionPolicyDeleted).sent
  }

  /** The parameter paths Delete removes, in order. */
  function DeletedPaths(n: Names): seq<string> {
    Paths(n, DeletedAttributes)
  }

  /** The Delete branch: the policy deletions, then the collection's and the knowledge base's
      (each reading its id from the store), then the seven parameter deletions; the first step
      that throws ends the branch. */
  function Deletion(m: map<string, string>, n: Names, s: Script): Run<()> {
    var policies := PolicyDeletions(n, s);
    var collection := DeleteCollection(m, n, s.unreachable, s.collectionDeleted);
    var collected := policies + collection.sent;
    if collection.result.Err? then Run(Err(collection.result.error), m, collected) else
    var kb := DeleteKnowledgeBase(m, n, s.unreachable, s.knowledgeBaseDeleted);
    var sent := collected + kb.sent;
    if kb.result.Err? then Run(Err(kb.result.error), m, sent) else
    var removed := RemoveAll(m, DeletedPaths(n), s.undeletable);
    Run(removed.outcome, removed.params, sent)
  }

  // ---------------------------------------------------------------- the handler

  /** After any branch: echo the request's identifiers and name the log group as the physical id. */
  function Envelope(response: Response, event: Event, logGroupName: string): Response {
    response.(stackId := Some(event.stackId), requestId := Some(event.requestId),
              logicalResourceId := Some(event.logicalResourceId), physicalResourceId := Some(logGroupName))
  }

  /** The response of a branch that returned. */
  function Succeeded(data: Option<Data>, reason: string): Response {
    EmptyResponse.(status := Some(Success), reason := Some(reason), data := data)
  }

  /** What the handler does with one event: the branch for its request type, then the envelope.
      A branch that throws makes the whole invocation throw. */
  function Handling(m: map<string, string>, event: Event, logGroupName: string, s: Script): Run<Response> {
    var p := event.resourceProperties;
    match event.requestType
    case Create =>
      var r := Creation(m, p, s);
      Run(if r.result.Ok? then Ok(Envelope(Succeeded(Some(r.result.value), CreateReason), event, logGroupName))
          else Err(r.result.error), r.params, r.sent)
    case Update =>
      var r := Readback(m, NamesOf(p), s.unreachable);
      Run(if r.Ok? then Ok(Envelope(Succeeded(Some(r.value), UpdateReason), event, logGroupName))
          else Err(r.error), m, [])
    case Delete =>
      var r := Deletion(m, NamesOf(p), s);
      Run(if r.result.Ok? then Ok(Envelope(Succeeded(None, DeleteReason), event, logGroupName))
          else Err(r.result.error), r.params, r.sent)
  }

  /** `handler`: run the branch for the event's request type, filling the response in as it
      goes, then the envelope. The log group name stands for the invocation context. */
  method Handler(store: ParameterStore, event: Event, logGroupName: string, s: Script)
    returns (r: Result<Response>, sent: seq<Call>)
    modifies store
    ensures Run(r, store.params, sent) == Handling(old(store.params), event, logGroupName, s)
  {
    var p := event.resourceProperties;
    var response := EmptyResponse;
    match event.requestType {
      case Create =>
        var data;
        data, sent := CreateResources(store, p, s);
        if data.Err? {
          r := Err(data.error);
          return;
        }
        response := response.(data := Some(data.value));
        response := response.(status := Some(Success));
        response := response.(reason := Some(CreateReason));
      case Update =>
        sent := [];
        var info := Readback(store.params, NamesOf(p), s.unreachable);
        if info.Err? {
          r := Err(info.error);
          return;
        }
        response := response.(data := Some(info.value));
        response := response.(status := Some(Success));
        response := response.(reason := Some(UpdateReason));
      case Delete =>
        var deleted;
        deleted, sent := DeleteResources(store, NamesOf(p), s);
        if deleted.Err? {
          r := Err(deleted.error);
          return;
        }
        response := response.(status := Some(Success));
        response := response.(reason := Some(DeleteReason));
    }
    response := response.(stackId := Some(event.stackId));
    response := response.(requestId := Some(event.requestId));
    response := response.(logicalResourceId := Some(event.logicalResourceId));
    response := response.(physicalResourceId := Some(logGroupName));
    r := Ok(response);
  }

  /** The Create branch, step by step. */
  method CreateResources(store: ParameterStore, p: Properties, s: Script) returns (r: Result<Data>, sent: seq<Call>)
    modifies store
    ensures Run(r, store.params, sent) == Creation(old(store.params), p, s)
  {
    var policies := PolicyCreation(p, s);
    sent := policies.sent;
    if policies.result.Err? {
      r := Err(policies.result.error);
      return;
    }
    var collection, polled := CreateCollection(store, NamesOf(p), s.collectionCreated, s.polls, s.unreachable);
    sent := sent + polled;
    if collection.Err? {
      r := Err(collection.error);
      return;
    }
    var rest;
    r, rest := Provision(store, p, s, collection.value);
    sent := sent + rest;
  }

  /** The index, the knowledge base and the data source, on the collection `c`. */
  method Provision(store: ParameterStore, p: Properties, s: Script, c: CollectionDetail)
    returns (r: Result<Data>, sent: seq<Call>)
    modifies store
    ensures Run(r, store.params, sent) == Provisioning(old(store.params), p, s, c)
  {
    var n := NamesOf(p);
    sent := CreateIndex(c.collectionEndpoint, n, s.indexAccepted).sent;
    var kb, kbSent := CreateKnowledgeBase(store, n, p.knowledgeBaseRoleArn, p.knowledgeBaseEmbeddingModelArn,
                                          c.arn, s.knowledgeBase, s.unreachable);
    sent := sent + kbSent;
    if kb.Err? {
      r := Err(kb.error);
      return;
    }
    var ds, dsSent := CreateDataSource(store, p.knowledgeBaseBucketArn, kb.value.knowledgeBaseId, n,
                                       s.dataSource, s.unreachable);
    sent := sent + dsSent;
    if ds.Err? {
      r := Err(ds.error);
      return;
    }
    r := Ok(Data(c.arn, c.id, c.name, c.collectionEndpoint, ds.value, kb.value.knowledgeBaseId));
  }

  /** The Delete branch, step by step: seven awaited parameter deletions after the two resource
      deletions. */
  method DeleteResources(store: ParameterStore, n: Names, s: Script) returns (r: Result<()>, sent: seq<Call>)
    modifies store
    ensures Run(r, store.params, sent) == Deletion(old(store.params), n, s)
  {
    sent := PolicyDeletions(n, s);
    var collection := DeleteCollection(store.params, n, s.unreachable, s.collectionDeleted);
    sent := sent + collection.sent;
    if collection.result.Err? {
      r := collection.result;
      return;
    }
    var kb := DeleteKnowledgeBase(store.params, n, s.unreachable, s.knowledgeBaseDeleted);
    sent := sent + kb.sent;
    if kb.result.Err? {
      r := kb.result;
      return;
    }
    r := RemoveParameters(store, DeletedPaths(n), s.undeletable);
  }

  /** The seven awaited `deleteParameter` calls at the end of Delete, one after another in the
      order of `paths` (Delete passes `DeletedPaths`). */
  method RemoveParameters(store: ParameterStore, paths: seq<string>, unreachable: set<string>) returns (r: Result<()>)
    requires |paths| == 7
    modifies store
    ensures Effect(r, store.params) == RemoveAll(old(store.params), paths, unreachable)
  {
    assert paths[0..] == paths;
    r := RemoveNext(store, paths, 0, unreachable);
    if r.Err? { return; }
    r := RemoveNext(store, paths, 1, unreachable);
    if r.Err? { return; }
    r := RemoveNext(store, paths, 2, unreachable);
    if r.Err? { return; }
    r := RemoveNext(store, paths, 3, unreachable);
    if r.Err? { return; }
    r := RemoveLastThree(store, paths, unreachable);
  }

  /** The last three of the seven deletions: the data source's and the knowledge base's paths. */
  method RemoveLastThree(store: ParameterStore, paths: seq<string>, unreachable: set<string>) returns (r: Result<()>)
    requires |paths| == 7
    modifies store
    ensures Effect(r, store.params) == RemoveAll(old(store.params), paths[4..], unreachable)
  {
    r := RemoveNext(store, paths, 4, unreachable);
    if r.Err? { return; }
    r := RemoveNext(store, paths, 5, unreachable);
    if r.Err? { return; }
    r := RemoveNext(store, paths, 6, unreachable);
    if r.Err? { return; }
    assert paths[7..] == [];
    r := Ok(());
  }

  /** One awaited `deleteParameter` call: the delete at position `k` of `paths`. */
  method RemoveNext(store: ParameterStore, paths: seq<string>, k: nat, unreachable: set<string>)
    returns (r: Result<()>)
    requires k < |paths|
    modifies store
    ensures RemoveAll(old(store.params), paths[k..], unreachable)
            == if r.Ok? then RemoveAll(store.params, paths[k + 1..], unreachable) else Effect(r, store.params)
  {
    RemoveAllStep(store.params, paths, k, unreachable);
    r := store.DeleteParameter(paths[k], paths[k] !in unreachable);
  }
}
