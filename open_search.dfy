/** The search-collection side (src/util/openSearchServerlessAPIUtil.ts): the access policy, the
    network and encryption security policies, the collection with its readiness poll, and the
    vector index. A request's outcome at the provider is an input (`accepted`, an answer record). */
module OpenSearchServerless {
  import opened Outcomes
  import opened Naming
  import opened Requests
  import opened Parameters

  /** How many status polls `createCollection` issues at most. */
  const MaxAttempts: nat := 30
  const TimeoutMessage: string := "Failed to create collection: Timeout exceeded"

  const CollectionPermissions: seq<string> :=
    ["aoss:DescribeCollectionItems", "aoss:CreateCollectionItems", "aoss:UpdateCollectionItems"]
  const IndexPermissions: seq<string> :=
    ["aoss:UpdateIndex", "aoss:DescribeIndex", "aoss:ReadDocument", "aoss:WriteDocument", "aoss:CreateIndex"]

  /** A collection as the status query reports it; an attribute the provider leaves out is "". */
  datatype CollectionDetail = CollectionDetail(id: string, arn: string, name: string, status: string,
                                               collectionEndpoint: string)

  /** The answer to one status query: the query threw, or the list of details it returned. */
  datatype PollAnswer = PollFailed | Collections(details: seq<CollectionDetail>)

  /** The four identifiers `updateCollection` reads back. */
  datatype CollectionInfo = CollectionInfo(collectionId: string, collectionName: string,
                                           collectionEndpoint: string, collectionArn: string)

  // ---------------------------------------------------------------- policies

  /** The principals of the access policy: the parsed extra ARNs in order, then the
      knowledge-base role, then the custom-resource role. */
  function Principals(parsedArns: seq<string>, roleArn: string, customResourceRole: string): (p: seq<string>)
    ensures |p| == |parsedArns| + 2
    ensures p[..|parsedArns|] == parsedArns
    ensures p[|parsedArns|] == roleArn && p[|parsedArns| + 1] == customResourceRole
  {
    parsedArns + [roleArn, customResourceRole]
  }

  function AccessPolicy(n: Names, principals: seq<string>): AccessPolicyDocument {
    AccessPolicyDocument(
      [DataRule(["collection/" + ResourceName(n)], CollectionPermissions, "collection"),
       DataRule(["index/" + ResourceName(n) + "/*"], IndexPermissions, "index")],
      principals, "")
  }

  /** `createAccessPolicy`. `accessPolicyArns` is the parsed JSON string, None when it does not
      parse as a string array; the parse sits outside the `try`, so its error propagates before
      any request. Any provider failure becomes one fixed error. */
  function CreateAccessPolicy(n: Names, roleArn: string, customResourceRole: string,
                              accessPolicyArns: Option<seq<string>>, accepted: bool): (r: Exchange<()>)
    ensures r.result.Ok? <==> accessPolicyArns.Some? && accepted
    ensures accessPolicyArns.None? ==> r == Exchange(Err(MalformedJson), [])
    ensures accessPolicyArns.Some? && !accepted ==> r.result == Err(Thrown("Failed to create AccessPolicy"))
    ensures accessPolicyArns.Some? ==> |r.sent| == 1 && r.sent[0].CreateAccessPolicyCall?
    ensures forall c | c in r.sent ::
              && c.name == ResourceName(n) && c.policyType == "data"
              && c.accessPolicy.principal == Principals(accessPolicyArns.value, roleArn, customResourceRole)
              && |c.accessPolicy.rules| == 2
              && c.accessPolicy.rules[0].resource == ["collection/" + ResourceName(n)]
              && c.accessPolicy.rules[1].resource == ["index/" + ResourceName(n) + "/*"]
  {
    match accessPolicyArns
    case None => Exchange(Err(MalformedJson), [])
    case Some(parsed) =>
      var call := CreateAccessPolicyCall(ResourceName(n), "data",
                                         AccessPolicy(n, Principals(parsed, roleArn, customResourceRole)));
      Exchange(if accepted then Ok(()) else Err(Thrown("Failed to create AccessPolicy")), [call])
  }

  /** `createNetworkSecurityPolicy`: public access to the collection and its dashboard. */
  function CreateNetworkSecurityPolicy(n: Names, accepted: bool): (r: Exchange<()>)
    ensures r.result.Ok? <==> accepted
    ensures !accepted ==> r.result.error == Thrown("Failed to create SecurityPolicy")
    ensures |r.sent| == 1 && r.sent[0].CreateSecurityPolicyCall?
    ensures r.sent[0].name == ResourceName(n) && r.sent[0].policyType == "network"
    ensures r.sent[0].securityPolicy.NetworkPolicy? && r.sent[0].securityPolicy.allowFromPublic
    ensures forall rule | rule in r.sent[0].securityPolicy.networkRules :: rule.resource == ["collection/" + ResourceName(n)]
  {
    var scope := ["collection/" + ResourceName(n)];
    var policy := NetworkPolicy(true, [ScopeRule("dashboard", scope), ScopeRule("collection", scope)]);
    Exchange(if accepted then Ok(()) else Err(Thrown("Failed to create SecurityPolicy")),
             [CreateSecurityPolicyCall(ResourceName(n), "network", policy)])
  }

  /** `createEncryptionSecurityPolicy`: the collection is encrypted with a provider-owned key. */
  function CreateEncryptionSecurityPolicy(n: Names, accepted: bool): (r: Exchange<()>)
    ensures r.result.Ok? <==> accepted
    ensures !accepted ==> r.result.error == Thrown("Failed to create Encryption SecurityPolicy")
    ensures |r.sent| == 1 && r.sent[0].CreateSecurityPolicyCall?
    ensures r.sent[0].name == ResourceName(n) && r.sent[0].policyType == "encryption"
    ensures r.sent[0].securityPolicy == EncryptionPolicy([ScopeRule("collection", ["collection/" + ResourceName(n)])], true)
  {
    var policy := EncryptionPolicy([ScopeRule("collection", ["collection/" + ResourceName(n)])], true);
    Exchange(if accepted then Ok(()) else Err(Thrown("Failed to create Encryption SecurityPolicy")),
             [CreateSecurityPolicyCall(ResourceName(n), "encryption", policy)])
  }

  /** `deleteAccessPolicy`: best effort; whatever the provider answers, it returns normally. */
  function DeleteAccessPolicy(n: Names, accepted: bool): (r: Exchange<()>)
    ensures r.result == Ok(())
    ensures r.sent == [DeleteAccessPolicyCall(ResourceName(n), "data")]
  {
    Exchange(Ok(()), [DeleteAccessPolicyCall(ResourceName(n), "data")])
  }

  /** `deleteSecurityPolicy` of the given type: best effort, like the access policy. */
  function DeleteSecurityPolicy(n: Names, policyType: string, accepted: bool): (r: Exchange<()>)
    ensures r.result == Ok(())
    ensures r.sent == [DeleteSecurityPolicyCall(ResourceName(n), policyType)]
  {
    Exchange(Ok(()), [DeleteSecurityPolicyCall(ResourceName(n), policyType)])
  }

  // ---------------------------------------------------------------- the readiness poll

  /** The answer to the poll at `attempt`; polls past the end of the script report no details. */
  function PollAt(polls: seq<PollAnswer>, attempt: nat): PollAnswer {
    if attempt < |polls| then polls[attempt] else Collections([])
  }

  /** The test the loop applies: a non-empty list whose first entry is exactly "ACTIVE". */
  predicate IsActive(a: PollAnswer) {
    a.Collections? && |a.details| > 0 && a.details[0].status == "ACTIVE"
  }

  /** A poll that neither threw nor saw the collection active: the loop waits and polls again. */
  predicate IsPending(a: PollAnswer) {
    a.Collections? && !IsActive(a)
  }

  /** How the wait ended, and how many status queries it issued. */
  datatype Wait = Wait(result: Result<CollectionDetail>, attempts: nat)

  /** The poll loop from `attempt` on. */
  function AwaitActive(polls: seq<PollAnswer>, attempt: nat): (w: Wait)
    requires attempt <= MaxAttempts
    decreases MaxAttempts - attempt
    ensures attempt + w.attempts <= MaxAttempts
    ensures w.attempts == 0 <==> attempt == MaxAttempts
    ensures w.result.Ok? ==> w.result.value.status == "ACTIVE"
  {
    if attempt == MaxAttempts then Wait(Err(Thrown(TimeoutMessage)), 0)
    else
      var answer := PollAt(polls, attempt);
      if answer.PollFailed? then Wait(Err(ProviderFault("BatchGetCollection")), 1)
      else if IsActive(answer) then Wait(Ok(answer.details[0]), 1)
      else
        var rest := AwaitActive(polls, attempt + 1);
        Wait(rest.result, rest.attempts + 1)
  }

  /** `attempts` status queries for the collection `id`. */
  function Polled(id: string, attempts: nat): (s: seq<Call>)
    ensures |s| == attempts && forall c | c in s :: c == BatchGetCollectionCall([id])
  {
    seq(attempts, _ => BatchGetCollectionCall([id]))
  }

  /** The poll returns at the first ACTIVE answer, after exactly that many queries. */
  lemma {:induction false} AwaitReturnsFirstActive(polls: seq<PollAnswer>, attempt: nat, n: nat)
    requires attempt <= n < MaxAttempts
    requires IsActive(PollAt(polls, n))
    requires forall j :: attempt <= j < n ==> IsPending(PollAt(polls, j))
    ensures AwaitActive(polls, attempt) == Wait(Ok(PollAt(polls, n).details[0]), n + 1 - attempt)
    decreases n - attempt
  {
    if attempt < n {
      AwaitReturnsFirstActive(polls, attempt + 1, n);
    }
  }

  /** Thirty pending answers in a row: the poll gives up with the timeout error after thirty queries. */
  lemma {:induction false} AwaitTimesOut(polls: seq<PollAnswer>, attempt: nat)
    requires attempt <= MaxAttempts
    requires forall j :: attempt <= j < MaxAttempts ==> IsPending(PollAt(polls, j))
    ensures AwaitActive(polls, attempt) == Wait(Err(Thrown(TimeoutMessage)), MaxAttempts - attempt)
    decreases MaxAttempts - attempt
  {
    if attempt < MaxAttempts {
      AwaitTimesOut(polls, attempt + 1);
    }
  }

  /** A failing status query ends the wait at once with the provider's error. */
  lemma {:induction false} AwaitPropagatesQueryFailure(polls: seq<PollAnswer>, attempt: nat, n: nat)
    requires attempt <= n < MaxAttempts
    requires PollAt(polls, n).PollFailed?
    requires forall j :: attempt <= j < n ==> IsPending(PollAt(polls, j))
    ensures AwaitActive(polls, attempt) == Wait(Err(ProviderFault("BatchGetCollection")), n + 1 - attempt)
    decreases n - attempt
  {
    if attempt < n {
      AwaitPropagatesQueryFailure(polls, attempt + 1, n);
    }
  }

  /** Conversely, a successful wait saw ACTIVE at its last query and only pending answers before. */
  lemma {:induction false} AwaitSuccessIsFirstActive(polls: seq<PollAnswer>, attempt: nat)
    requires attempt <= MaxAttempts
    requires AwaitActive(polls, attempt).result.Ok?
    ensures var w := AwaitActive(polls, attempt);
            var n := attempt + w.attempts - 1;
            && attempt <= n < MaxAttempts
            && IsActive(PollAt(polls, n)) && w.result.value == PollAt(polls, n).details[0]
            && forall j :: attempt <= j < n ==> IsPending(PollAt(polls, j))
    decreases MaxAttempts - attempt
  {
    var answer := PollAt(polls, attempt);
    if !IsActive(answer) {
      assert IsPending(answer);
      var rest := AwaitActive(polls, attempt + 1);
      assert AwaitActive(polls, attempt) == Wait(rest.result, rest.attempts + 1);
      AwaitSuccessIsFirstActive(polls, attempt + 1);
    }
  }

  // ---------------------------------------------------------------- the collection

  /** The four puts `createCollection` issues once it sees the collection ACTIVE, in order. */
  function CollectionWrites(n: Names, c: CollectionDetail): seq<Write> {
    [Write(ParameterPath(n, "collectionId"), c.id),
     Write(ParameterPath(n, "collectionArn"), c.arn),
     Write(ParameterPath(n, "collectionName"), c.name),
     Write(ParameterPath(n, "collectionEndpoint"), c.collectionEndpoint)]
  }

  /** The four puts succeed exactly when their paths are reachable, and then hold the collection's
      identifiers; whichever put fails, no other key changes and no key is lost. */
  lemma CollectionStored(m: map<string, string>, n: Names, c: CollectionDetail, unreachable: set<string>)
    ensures var stored := PutAll(m, CollectionWrites(n, c), unreachable);
            && (stored.outcome.Ok? <==> && ParameterPath(n, "collectionId") !in unreachable
                                        && ParameterPath(n, "collectionArn") !in unreachable
                                        && ParameterPath(n, "collectionName") !in unreachable
                                        && ParameterPath(n, "collectionEndpoint") !in unreachable)
            && (stored.outcome.Ok? ==>
                  stored.params == m[ParameterPath(n, "collectionId") := c.id][ParameterPath(n, "collectionArn") := c.arn]
                                    [ParameterPath(n, "collectionName") := c.name]
                                    [ParameterPath(n, "collectionEndpoint") := c.collectionEndpoint])
            && m.Keys <= stored.params.Keys
            && (forall k | k != ParameterPath(n, "collectionId") && k != ParameterPath(n, "collectionArn")
                           && k != ParameterPath(n, "collectionName") && k != ParameterPath(n, "collectionEndpoint")
                  :: SameAt(m, stored.params, k))
  {
    var writes := CollectionWrites(n, c);
    PutAllFrame(m, writes, unreachable, "");
    forall k | k != ParameterPath(n, "collectionId") && k != ParameterPath(n, "collectionArn")
               && k != ParameterPath(n, "collectionName") && k != ParameterPath(n, "collectionEndpoint")
      ensures SameAt(m, PutAll(m, writes, unreachable).params, k)
    {
      PutAllFrame(m, writes, unreachable, k);
    }
    var m1 := m[writes[0].name := writes[0].value];
    var m2 := m1[writes[1].name := writes[1].value];
    var m3 := m2[writes[2].name := writes[2].value];
    assert writes[1..][1..][1..][1..] == [];
    assert Overwrite(m, writes) == Overwrite(m1, writes[1..]);
    assert Overwrite(m1, writes[1..]) == Overwrite(m2, writes[1..][1..]);
    assert Overwrite(m2, writes[1..][1..]) == Overwrite(m3, writes[1..][1..][1..]);
    assert Overwrite(m3, writes[1..][1..][1..]) == m3[writes[3].name := writes[3].value];
  }

  function CreateCollectionRequest(n: Names): Call {
    CreateCollectionCall(ResourceName(n), "VECTORSEARCH")
  }

  /** What `createCollection` does. `created` is the id the create request returned, None when it
      threw; every error inside the `try` (the create, a status query, a put, the timeout) is
      re-thrown unchanged. */
  function CollectionCreation(m: map<string, string>, n: Names, created: Option<string>,
                              polls: seq<PollAnswer>, unreachable: set<string>): (r: Run<CollectionDetail>)
    ensures created.None? ==> r == Run(Err(ProviderFault("CreateCollection")), m, [CreateCollectionRequest(n)])
    ensures 1 <= |r.sent| <= 1 + MaxAttempts && r.sent[0] == CreateCollectionRequest(n)
    ensures created.Some? ==> forall i | 1 <= i < |r.sent| :: r.sent[i] == BatchGetCollectionCall([created.value])
    ensures created.Some? ==> |r.sent| == 1 + AwaitActive(polls, 0).attempts
    ensures created.Some? && AwaitActive(polls, 0).result.Err? ==> r.result == AwaitActive(polls, 0).result && r.params == m
    ensures r.result.Ok? ==> created.Some? && r.result == AwaitActive(polls, 0).result && r.result.value.status == "ACTIVE"
    ensures r.result.Ok? <==> && created.Some? && AwaitActive(polls, 0).result.Ok?
                              && ParameterPath(n, "collectionId") !in unreachable
                              && ParameterPath(n, "collectionArn") !in unreachable
                              && ParameterPath(n, "collectionName") !in unreachable
                              && ParameterPath(n, "collectionEndpoint") !in unreachable
    ensures forall c | c in r.sent :: c.CreateCollectionCall? || c.BatchGetCollectionCall?
    ensures r.result.Ok? ==>
              r.params == m[ParameterPath(n, "collectionId") := r.result.value.id]
                           [ParameterPath(n, "collectionArn") := r.result.value.arn]
                           [ParameterPath(n, "collectionName") := r.result.value.name]
                           [ParameterPath(n, "collectionEndpoint") := r.result.value.collectionEndpoint]
    ensures m.Keys <= r.params.Keys
    ensures forall k | k != ParameterPath(n, "collectionId") && k != ParameterPath(n, "collectionArn")
                       && k != ParameterPath(n, "collectionName") && k != ParameterPath(n, "collectionEndpoint")
              :: SameAt(m, r.params, k)
  {
    match created
    case None => Run(Err(ProviderFault("CreateCollection")), m, [CreateCollectionRequest(n)])
    case Some(id) =>
      var w := AwaitActive(polls, 0);
      var sent := [CreateCollectionRequest(n)] + Polled(id, w.attempts);
      match w.result
      case Err(e) => Run(Err(e), m, sent)
      case Ok(c) =>
        var stored := PutAll(m, CollectionWrites(n, c), unreachable);
        CollectionStored(m, n, c, unreachable);
        Run(if stored.outcome.Ok? then Ok(c) else Err(stored.outcome.error), stored.params, sent)
  }

  /** The create request, then one status query per attempt up to and including the first
      ACTIVE answer, and no further query. */
  lemma CollectionPollsUntilActive(m: map<string, string>, n: Names, id: string, polls: seq<PollAnswer>,
                                   unreachable: set<string>, k: nat)
    requires k < MaxAttempts && IsActive(PollAt(polls, k))
    requires forall j :: 0 <= j < k ==> IsPending(PollAt(polls, j))
    ensures var r := CollectionCreation(m, n, Some(id), polls, unreachable);
            && |r.sent| == k + 2
            && (r.result.Ok? ==> r.result.value == PollAt(polls, k).details[0])
  {
    AwaitReturnsFirstActive(polls, 0, k);
  }

  /** Thirty pending answers: the create request and thirty status queries, then the timeout
      error with the store untouched. */
  lemma CollectionTimesOut(m: map<string, string>, n: Names, id: string, polls: seq<PollAnswer>, unreachable: set<string>)
    requires forall j :: 0 <= j < MaxAttempts ==> IsPending(PollAt(polls, j))
    ensures var r := CollectionCreation(m, n, Some(id), polls, unreachable);
            && |r.sent| == 1 + MaxAttempts
            && r.result == Err(Thrown(TimeoutMessage)) && r.params == m
  {
    AwaitTimesOut(polls, 0);
  }

  /** `createCollection`: create, then poll up to thirty times; on the first ACTIVE answer persist
      the collection's id, ARN, name and endpoint and return it. */
  method CreateCollection(store: ParameterStore, n: Names, created: Option<string>,
                          polls: seq<PollAnswer>, unreachable: set<string>)
    returns (r: Result<CollectionDetail>, sent: seq<Call>)
    modifies store
    ensures Run(r, store.params, sent) == CollectionCreation(old(store.params), n, created, polls, unreachable)
  {
    sent := [CreateCollectionRequest(n)];
    if created.None? {
      r := Err(ProviderFault("CreateCollection"));
      return;
    }
    var collectionId := created.value;
    var attempts: nat := 0;
    while attempts < MaxAttempts
      invariant attempts <= MaxAttempts
      invariant store.params == old(store.params)
      invariant sent == [CreateCollectionRequest(n)] + Polled(collectionId, attempts)
      invariant var rest := AwaitActive(polls, attempts);
                AwaitActive(polls, 0) == Wait(rest.result, rest.attempts + attempts)
    {
      sent := sent + [BatchGetCollectionCall([collectionId])];
      assert sent == [CreateCollectionRequest(n)] + Polled(collectionId, attempts + 1);
      var answer := PollAt(polls, attempts);
      if answer.PollFailed? {
        r := Err(ProviderFault("BatchGetCollection"));
        return;
      }
      if |answer.details| > 0 {
        var collection := answer.details[0];
        if collection.status == "ACTIVE" {
          r := PersistCollection(store, n, collection, unreachable);
          return;
        }
      }
      attempts := attempts + 1;
    }
    r := Err(Thrown(TimeoutMessage));
  }

  /** The four awaited puts inside the loop of `createCollection`. */
  method PersistCollection(store: ParameterStore, n: Names, c: CollectionDetail, unreachable: set<string>)
    returns (r: Result<CollectionDetail>)
    modifies store
    ensures var stored := PutAll(old(store.params), CollectionWrites(n, c), unreachable);
            store.params == stored.params && r == if stored.outcome.Ok? then Ok(c) else Err(stored.outcome.error)
  {
    ghost var writes := CollectionWrites(n, c);
    ghost var m0 := store.params;
    var path := ParameterPath(n, "collectionId");
    var put := store.StoreParameter(path, c.id, path !in unreachable);
    if put.Err? {
      r := Err(put.error);
      return;
    }
    ghost var m1 := store.params;
    assert PutAll(m0, writes, unreachable) == PutAll(m1, writes[1..], unreachable);
    path := ParameterPath(n, "collectionArn");
    put := store.StoreParameter(path, c.arn, path !in unreachable);
    if put.Err? {
      r := Err(put.error);
      return;
    }
    ghost var m2 := store.params;
    assert PutAll(m1, writes[1..], unreachable) == PutAll(m2, writes[2..], unreachable);
    path := ParameterPath(n, "collectionName");
    put := store.StoreParameter(path, c.name, path !in unreachable);
    if put.Err? {
      r := Err(put.error);
      return;
    }
    ghost var m3 := store.params;
    assert PutAll(m2, writes[2..], unreachable) == PutAll(m3, writes[3..], unreachable);
    path := ParameterPath(n, "collectionEndpoint");
    put := store.StoreParameter(path, c.collectionEndpoint, path !in unreachable);
    if put.Err? {
      r := Err(put.error);
      return;
    }
    assert PutAll(m3, writes[3..], unreachable) == PutAll(store.params, [], unreachable);
    r := Ok(c);
  }

  /** `deleteCollection`: the id is read outside the `try`, so a failed read propagates its own
      error and no delete is sent; a failed delete becomes one fixed error. */
  function DeleteCollection(m: map<string, string>, n: Names, unreachable: set<string>, accepted: bool): (r: Exchange<()>)
    ensures var path := ParameterPath(n, "collectionId");
            var id := Get(m, path, path !in unreachable);
            && (id.Err? ==> r == Exchange(Err(RetrieveFailure(path)), []))
            && (id.Ok? ==> r.sent == [DeleteCollectionCall(m[path])])
            && (r.result.Ok? <==> id.Ok? && accepted)
            && (id.Ok? && !accepted ==> r.result.error == Thrown("Failed to delete Collection"))
  {
    var path := ParameterPath(n, "collectionId");
    match Get(m, path, path !in unreachable)
    case Err(e) => Exchange(Err(e), [])
    case Ok(id) =>
      Exchange(if accepted then Ok(()) else Err(Thrown("Failed to delete Collection")), [DeleteCollectionCall(id)])
  }

  // ---------------------------------------------------------------- the index

  /** The index mapping: one k-NN vector field named `<prefix>-vector`, dimension 1024, HNSW on faiss. */
  function VectorIndexMapping(n: Names): IndexMapping {
    IndexMapping(true, n.prefix + "-vector", "knn_vector", 1024, "hnsw", "faiss", 512, 16)
  }

  /** `createIndex`: the index-creation request's failure is caught and only logged, so the
      operation returns normally whatever the provider answers. */
  function CreateIndex(host: string, n: Names, accepted: bool): (r: Exchange<()>)
    ensures r.result == Ok(())
    ensures |r.sent| == 1 && r.sent[0].CreateIndexCall?
    ensures r.sent[0].host == host && r.sent[0].index == ResourceName(n)
    ensures r.sent[0].mapping.vectorField == n.prefix + "-vector" && r.sent[0].mapping.dimension == 1024
  {
    Exchange(Ok(()), [CreateIndexCall(host, ResourceName(n), VectorIndexMapping(n))])
  }

  /** `updateCollection`: reads the four persisted identifiers back and changes nothing; any
      failed read becomes one fixed error. */
  function UpdateCollection(m: map<string, string>, n: Names, unreachable: set<string>): (r: Result<CollectionInfo>)
    ensures r.Ok? <==> && Read(m, ParameterPath(n, "collectionId"), unreachable).Ok?
                       && Read(m, ParameterPath(n, "collectionName"), unreachable).Ok?
                       && Read(m, ParameterPath(n, "collectionArn"), unreachable).Ok?
                       && Read(m, ParameterPath(n, "collectionEndpoint"), unreachable).Ok?
    ensures r.Ok? ==> r.value == CollectionInfo(m[ParameterPath(n, "collectionId")],
                                                m[ParameterPath(n, "collectionName")],
                                                m[ParameterPath(n, "collectionEndpoint")],
                                                m[ParameterPath(n, "collectionArn")])
    ensures r.Err? ==> r.error == Thrown("Failed to update Collection")
  {
    var idPath := ParameterPath(n, "collectionId");
    var namePath := ParameterPath(n, "collectionName");
    var arnPath := ParameterPath(n, "collectionArn");
    var endpointPath := ParameterPath(n, "collectionEndpoint");
    var id := Get(m, idPath, idPath !in unreachable);
    var name := Get(m, namePath, namePath !in unreachable);
    var arn := Get(m, arnPath, arnPath !in unreachable);
    var endpoint := Get(m, endpointPath, endpointPath !in unreachable);
    if id.Ok? && name.Ok? && arn.Ok? && endpoint.Ok?
    then Ok(CollectionInfo(id.value, name.value, endpoint.value, arn.value))
    else Err(Thrown("Failed to update Collection"))
  }
}
