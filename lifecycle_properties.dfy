/** What the handler's Create branch guarantees: the order of the requests, where each request's
    inputs come from, which parameters are written, which failures end the branch, and that an
    Update after it reads back what it reported. */
module LifecycleProperties {
  import opened Outcomes
  import opened Naming
  import opened Requests
  import opened Parameters
  import opened OpenSearchServerless
  import opened BedrockKnowledgeBase
  import opened KnowledgeBaseLifecycle

  /** The old store with the seven identifiers of one deployment written over it. */
  function Provisioned(m: map<string, string>, n: Names, d: Data, knowledgeBaseArn: string): map<string, string> {
    m[ParameterPath(n, "collectionId") := d.collectionId][ParameterPath(n, "collectionArn") := d.collectionArn]
     [ParameterPath(n, "collectionName") := d.collectionName][ParameterPath(n, "collectionEndpoint") := d.collectionEndpoint]
     [ParameterPath(n, "knowledgeBaseId") := d.knowledgeBaseId][ParameterPath(n, "knowledgeBaseArn") := knowledgeBaseArn]
     [ParameterPath(n, "dataSourceId") := d.dataSourceId]
  }

  predicate IsLaterThanCollection(c: Call) {
    c.CreateIndexCall? || c.CreateKnowledgeBaseCall? || c.CreateDataSourceCall?
  }

  /** Create, phase by phase: the branch that ends it decides its result, store and requests. */
  lemma CreatePhases(m: map<string, string>, p: Properties, s: Script)
    ensures var r := Creation(m, p, s);
            var policies := PolicyCreation(p, s);
            var collection := CollectionCreation(m, NamesOf(p), s.collectionCreated, s.polls, s.unreachable);
            && (policies.result.Err? ==> r == Run(Err(policies.result.error), m, policies.sent))
            && (policies.result.Ok? && collection.result.Err? ==>
                  r == Run(Err(collection.result.error), collection.params, policies.sent + collection.sent))
            && (policies.result.Ok? && collection.result.Ok? ==>
                  var rest := Provisioning(collection.params, p, s, collection.result.value);
                  r == Run(rest.result, rest.params, policies.sent + collection.sent + rest.sent))
  {
  }

  /** Indexing into a concatenation of three sequences. */
  lemma ConcatAt<T>(a: seq<T>, b: seq<T>, c: seq<T>)
    ensures forall i | 0 <= i < |a| :: (a + b + c)[i] == a[i]
    ensures forall i | |a| <= i < |a| + |b| :: (a + b + c)[i] == b[i - |a|]
    ensures forall i | |a| + |b| <= i < |a| + |b| + |c| :: (a + b + c)[i] == c[i - |a| - |b|]
  {
  }

  // ---------------------------------------------------------------- a successful Create

  /** A successful Create reports the collection the poll first saw ACTIVE, and the identifiers
      the knowledge-base and data-source responses carried, all non-empty where the code tests them. */
  lemma CreateReportsWhatItCreated(m: map<string, string>, p: Properties, s: Script)
    requires Creation(m, p, s).result.Ok?
    ensures var d := Creation(m, p, s).result.value;
            && s.collectionCreated.Some?
            && AwaitActive(s.polls, 0).result
               == Ok(CollectionDetail(d.collectionId, d.collectionArn, d.collectionName, "ACTIVE", d.collectionEndpoint))
            && s.knowledgeBase == KnowledgeBaseReturned(d.knowledgeBaseId, s.knowledgeBase.knowledgeBaseArn)
            && d.knowledgeBaseId != "" && s.knowledgeBase.knowledgeBaseArn != ""
            && s.dataSource == DataSourceReturned(d.dataSourceId) && d.dataSourceId != ""
  {
    CreatePhases(m, p, s);
    var collection := CollectionCreation(m, NamesOf(p), s.collectionCreated, s.polls, s.unreachable);
    ProvisioningOutcome(collection.params, p, s, collection.result.value);
  }

  /** Create sends, in this order: the access policy, the network policy, the encryption policy,
      the collection, its status polls, the index, the knowledge base and the data source. */
  lemma CreateOrder(m: map<string, string>, p: Properties, s: Script)
    requires Creation(m, p, s).result.Ok?
    ensures var r := Creation(m, p, s);
            var n := NamesOf(p);
            var k := |r.sent|;
            && 8 <= k <= 7 + MaxAttempts
            && r.sent[0].CreateAccessPolicyCall? && r.sent[0].name == ResourceName(n)
            && r.sent[1] == CreateNetworkSecurityPolicy(n, true).sent[0]
            && r.sent[2] == CreateEncryptionSecurityPolicy(n, true).sent[0]
            && r.sent[3] == CreateCollectionCall(ResourceName(n), "VECTORSEARCH")
            && (forall i | 4 <= i < k - 3 :: r.sent[i] == BatchGetCollectionCall([s.collectionCreated.value]))
            && r.sent[k - 3].CreateIndexCall? && r.sent[k - 2].CreateKnowledgeBaseCall? && r.sent[k - 1].CreateDataSourceCall?
  {
    CreateOrderHead(m, p, s);
    CreateOrderTail(m, p, s);
  }

  /** The first four requests of a successful Create: the three policies, then the collection. */
  lemma CreateOrderHead(m: map<string, string>, p: Properties, s: Script)
    requires Creation(m, p, s).result.Ok?
    ensures var r := Creation(m, p, s);
            var n := NamesOf(p);
            && 8 <= |r.sent| <= 7 + MaxAttempts
            && r.sent[0].CreateAccessPolicyCall? && r.sent[0].name == ResourceName(n)
            && r.sent[1] == CreateNetworkSecurityPolicy(n, true).sent[0]
            && r.sent[2] == CreateEncryptionSecurityPolicy(n, true).sent[0]
            && r.sent[3] == CreateCollectionCall(ResourceName(n), "VECTORSEARCH")
  {
    CreatePhases(m, p, s);
    var collection := CollectionCreation(m, NamesOf(p), s.collectionCreated, s.polls, s.unreachable);
    var rest := Provisioning(collection.params, p, s, collection.result.value);
    PoliciesInOrder(p, s);
    ProvisioningOutcome(collection.params, p, s, collection.result.value);
    ConcatAt(PolicyCreation(p, s).sent, collection.sent, rest.sent);
  }

  /** The rest of a successful Create: status polls of the new collection, then the index, the
      knowledge base and the data source. */
  lemma CreateOrderTail(m: map<string, string>, p: Properties, s: Script)
    requires Creation(m, p, s).result.Ok?
    ensures var r := Creation(m, p, s);
            var k := |r.sent|;
            && k >= 8
            && (forall i | 4 <= i < k - 3 :: r.sent[i] == BatchGetCollectionCall([s.collectionCreated.value]))
            && r.sent[k - 3].CreateIndexCall? && r.sent[k - 2].CreateKnowledgeBaseCall? && r.sent[k - 1].CreateDataSourceCall?
  {
    CreatePhases(m, p, s);
    var collection := CollectionCreation(m, NamesOf(p), s.collectionCreated, s.polls, s.unreachable);
    var rest := Provisioning(collection.params, p, s, collection.result.value);
    var policies := PolicyCreation(p, s).sent;
    assert Creation(m, p, s).sent == policies + collection.sent + rest.sent;
    PoliciesInOrder(p, s);
    ProvisionedSent(collection.params, p, s, collection.result.value);
    TailShape(policies, collection.sent, rest.sent, BatchGetCollectionCall([s.collectionCreated.value]));
  }

  /** A successful run of the last three steps sent the index, the knowledge base and the data
      source, in that order. */
  lemma ProvisionedSent(m: map<string, string>, p: Properties, s: Script, c: CollectionDetail)
    requires Provisioning(m, p, s, c).result.Ok?
    ensures var sent := Provisioning(m, p, s, c).sent;
            && |sent| == 3
            && sent[0].CreateIndexCall? && sent[1].CreateKnowledgeBaseCall? && sent[2].CreateDataSourceCall?
  {
    ProvisioningSent(m, p, s, c);
    ProvisioningOutcome(m, p, s, c);
  }

  /** Three policy requests, then a collection request followed by status polls, then three more
      requests: where each lands in the whole sequence. */
  lemma TailShape(policies: seq<Call>, collection: seq<Call>, rest: seq<Call>, poll: Call)
    requires |policies| == 3 && |collection| >= 1 && |rest| == 3
    requires forall j | 1 <= j < |collection| :: collection[j] == poll
    ensures var sent := policies + collection + rest;
            var k := |sent|;
            && k >= 7
            && (forall i | 4 <= i < k - 3 :: sent[i] == poll)
            && sent[k - 3] == rest[0] && sent[k - 2] == rest[1] && sent[k - 1] == rest[2]
  {
    var sent := policies + collection + rest;
    forall i | 4 <= i < |sent| - 3 ensures sent[i] == poll {
      assert sent[i] == collection[i - 3];
    }
  }

  /** The three policy requests of a successful policy step, in order. */
  lemma PoliciesInOrder(p: Properties, s: Script)
    requires PolicyCreation(p, s).result.Ok?
    ensures var sent := PolicyCreation(p, s).sent;
            var n := NamesOf(p);
            && |sent| == 3
            && sent[0].CreateAccessPolicyCall? && sent[0].name == ResourceName(n)
            && sent[1] == CreateNetworkSecurityPolicy(n, true).sent[0]
            && sent[2] == CreateEncryptionSecurityPolicy(n, true).sent[0]
  {
    var n := NamesOf(p);
    var access := CreateAccessPolicy(n, p.knowledgeBaseRoleArn, p.knowledgeBaseCustomResourceRole,
                                     p.accessPolicyArns, s.accessPolicyAccepted).sent;
    ConcatAt(access, CreateNetworkSecurityPolicy(n, true).sent, CreateEncryptionSecurityPolicy(n, true).sent);
  }

  /** Each later Create step takes its inputs from the earlier ones: the index is created on the
      collection's endpoint, the knowledge base is bound to the collection's ARN, and the data
      source is bound to the knowledge base's id. */
  lemma CreateDataflow(m: map<string, string>, p: Properties, s: Script)
    requires Creation(m, p, s).result.Ok?
    ensures var r := Creation(m, p, s);
            var d := r.result.value;
            var n := NamesOf(p);
            var k := |r.sent|;
            && k >= 3
            && r.sent[k - 3] == CreateIndexCall(d.collectionEndpoint, ResourceName(n), VectorIndexMapping(n))
            && r.sent[k - 2] == KnowledgeBaseRequest(n, p.knowledgeBaseRoleArn, p.knowledgeBaseEmbeddingModelArn, d.collectionArn)
            && r.sent[k - 1] == DataSourceRequest(n, p.knowledgeBaseBucketArn, d.knowledgeBaseId)
  {
    CreatePhases(m, p, s);
    var collection := CollectionCreation(m, NamesOf(p), s.collectionCreated, s.polls, s.unreachable);
    var rest := Provisioning(collection.params, p, s, collection.result.value);
    ProvisioningSent(collection.params, p, s, collection.result.value);
    ProvisioningOutcome(collection.params, p, s, collection.result.value);
    ConcatAt(PolicyCreation(p, s).sent, collection.sent, rest.sent);
  }

  /** A successful Create leaves the old store with exactly its seven identifiers written over it. */
  lemma CreateStores(m: map<string, string>, p: Properties, s: Script)
    requires Creation(m, p, s).result.Ok?
    ensures var r := Creation(m, p, s);
            r.params == Provisioned(m, NamesOf(p), r.result.value, s.knowledgeBase.knowledgeBaseArn)
  {
    CreatePhases(m, p, s);
    var collection := CollectionCreation(m, NamesOf(p), s.collectionCreated, s.polls, s.unreachable);
    ProvisioningOutcome(collection.params, p, s, collection.result.value);
  }

  /** Writing the seven identifiers adds exactly the persisted paths and leaves every other key alone. */
  lemma ProvisionedTouchesOnlyPersistedPaths(m: map<string, string>, n: Names, d: Data, knowledgeBaseArn: string)
    ensures var q := Provisioned(m, n, d, knowledgeBaseArn);
            && q.Keys == m.Keys + PersistedPaths(n)
            && forall k | k !in PersistedPaths(n) :: SameAt(m, q, k)
  {
    PersistedPathsAre(n);
  }

  /** Each persisted path holds its identifier after the seven writes. */
  lemma ProvisionedHolds(m: map<string, string>, n: Names, d: Data, knowledgeBaseArn: string)
    ensures var q := Provisioned(m, n, d, knowledgeBaseArn);
            && PersistedPaths(n) <= q.Keys
            && q[ParameterPath(n, "collectionId")] == d.collectionId
            && q[ParameterPath(n, "collectionArn")] == d.collectionArn
            && q[ParameterPath(n, "collectionName")] == d.collectionName
            && q[ParameterPath(n, "collectionEndpoint")] == d.collectionEndpoint
            && q[ParameterPath(n, "knowledgeBaseId")] == d.knowledgeBaseId
            && q[ParameterPath(n, "knowledgeBaseArn")] == knowledgeBaseArn
            && q[ParameterPath(n, "dataSourceId")] == d.dataSourceId
  {
    PersistedPathsAre(n);
    PathsDiffer(n, "collectionId", "collectionArn"); PathsDiffer(n, "collectionId", "collectionName");
    PathsDiffer(n, "collectionId", "collectionEndpoint"); PathsDiffer(n, "collectionId", "knowledgeBaseId");
    PathsDiffer(n, "collectionId", "knowledgeBaseArn"); PathsDiffer(n, "collectionId", "dataSourceId");
    PathsDiffer(n, "collectionArn", "collectionName"); PathsDiffer(n, "collectionArn", "collectionEndpoint");
    PathsDiffer(n, "collectionArn", "knowledgeBaseId"); PathsDiffer(n, "collectionArn", "knowledgeBaseArn");
    PathsDiffer(n, "collectionArn", "dataSourceId"); PathsDiffer(n, "collectionName", "collectionEndpoint");
    PathsDiffer(n, "collectionName", "knowledgeBaseId"); PathsDiffer(n, "collectionName", "knowledgeBaseArn");
    PathsDiffer(n, "collectionName", "dataSourceId"); PathsDiffer(n, "collectionEndpoint", "knowledgeBaseId");
    PathsDiffer(n, "collectionEndpoint", "knowledgeBaseArn"); PathsDiffer(n, "collectionEndpoint", "dataSourceId");
    PathsDiffer(n, "knowledgeBaseId", "knowledgeBaseArn"); PathsDiffer(n, "knowledgeBaseId", "dataSourceId");
    PathsDiffer(n, "knowledgeBaseArn", "dataSourceId");
  }

  /** Without the persisted paths, the provisioned store is the old one without them. */
  lemma ProvisionedLessPersisted(m: map<string, string>, n: Names, d: Data, knowledgeBaseArn: string)
    ensures Provisioned(m, n, d, knowledgeBaseArn) - PersistedPaths(n) == m - PersistedPaths(n)
  {
    var q := Provisioned(m, n, d, knowledgeBaseArn);
    ProvisionedTouchesOnlyPersistedPaths(m, n, d, knowledgeBaseArn);
    assert (q - PersistedPaths(n)).Keys == (m - PersistedPaths(n)).Keys;
    forall k | k in m - PersistedPaths(n) ensures (q - PersistedPaths(n))[k] == (m - PersistedPaths(n))[k] {
      assert SameAt(m, q, k);
    }
  }

  /** Hence a successful Create writes every persisted path and no other key. */
  lemma CreateWritesExactlyPersistedPaths(m: map<string, string>, p: Properties, s: Script)
    requires Creation(m, p, s).result.Ok?
    ensures var r := Creation(m, p, s);
            && r.params.Keys == m.Keys + PersistedPaths(NamesOf(p))
            && forall k | k !in PersistedPaths(NamesOf(p)) :: SameAt(m, r.params, k)
  {
    CreateStores(m, p, s);
    var r := Creation(m, p, s);
    ProvisionedTouchesOnlyPersistedPaths(m, NamesOf(p), r.result.value, s.knowledgeBase.knowledgeBaseArn);
  }

  // ---------------------------------------------------------------- a failing Create

  /** A failed policy step ends Create before the collection: only policy requests were sent,
      each policy up to the first rejected one, and the store is untouched. */
  lemma PolicyFailureStopsCreate(m: map<string, string>, p: Properties, s: Script)
    requires PolicyCreation(p, s).result.Err?
    ensures var r := Creation(m, p, s);
            && r.result == Err(PolicyCreation(p, s).result.error) && r.params == m
            && |r.sent| <= 3
            && (forall c | c in r.sent :: c.CreateAccessPolicyCall? || c.CreateSecurityPolicyCall?)
            && (p.accessPolicyArns.None? ==> r.sent == [] && r.result == Err(MalformedJson))
            && (p.accessPolicyArns.Some? && !s.accessPolicyAccepted ==> |r.sent| == 1)
            && (p.accessPolicyArns.Some? && s.accessPolicyAccepted && !s.networkPolicyAccepted ==> |r.sent| == 2)
  {
    CreatePhases(m, p, s);
  }

  /** A failed collection step ends Create before the index: no index, knowledge base or data
      source is requested, and only the four collection paths may have been written. */
  lemma CollectionFailureStopsCreate(m: map<string, string>, p: Properties, s: Script)
    requires PolicyCreation(p, s).result.Ok?
    requires CollectionCreation(m, NamesOf(p), s.collectionCreated, s.polls, s.unreachable).result.Err?
    ensures var r := Creation(m, p, s);
            var n := NamesOf(p);
            && r.result == Err(CollectionCreation(m, n, s.collectionCreated, s.polls, s.unreachable).result.error)
            && (forall c | c in r.sent :: !IsLaterThanCollection(c))
            && m.Keys <= r.params.Keys
            && (forall k | k != ParameterPath(n, "collectionId") && k != ParameterPath(n, "collectionArn")
                           && k != ParameterPath(n, "collectionName") && k != ParameterPath(n, "collectionEndpoint")
                  :: SameAt(m, r.params, k))
  {
    CreatePhases(m, p, s);
  }

  /** A rejected or unusable knowledge-base answer, or an unreachable knowledge-base path, ends
      Create with the knowledge-base error before the data source: the knowledge-base request is
      the last one sent, and everything the collection step persisted stays in place. */
  lemma KnowledgeBaseFailureStopsCreate(m: map<string, string>, p: Properties, s: Script)
    requires PolicyCreation(p, s).result.Ok?
    requires CollectionCreation(m, NamesOf(p), s.collectionCreated, s.polls, s.unreachable).result.Ok?
    requires !KnowledgeBaseStepSucceeds(NamesOf(p), s)
    ensures var r := Creation(m, p, s);
            var n := NamesOf(p);
            var collection := CollectionCreation(m, n, s.collectionCreated, s.polls, s.unreachable);
            && r.result == Err(KnowledgeBaseFailure)
            && r.sent[|r.sent| - 1].CreateKnowledgeBaseCall?
            && (forall c | c in r.sent :: !c.CreateDataSourceCall?)
            && (forall k | k != ParameterPath(n, "knowledgeBaseId") && k != ParameterPath(n, "knowledgeBaseArn")
                           && k != ParameterPath(n, "dataSourceId")
                  :: SameAt(collection.params, r.params, k))
  {
    CreatePhases(m, p, s);
    var n := NamesOf(p);
    var collection := CollectionCreation(m, n, s.collectionCreated, s.polls, s.unreachable);
    var rest := Provisioning(collection.params, p, s, collection.result.value);
    ProvisioningSent(collection.params, p, s, collection.result.value);
    ProvisioningOutcome(collection.params, p, s, collection.result.value);
    ProvisioningFrame(collection.params, p, s, collection.result.value);
    NoDataSourceBefore(PolicyCreation(p, s).sent + collection.sent, rest.sent);
  }

  /** Requests before the index, then just the index and the knowledge base: no data source. */
  lemma NoDataSourceBefore(earlier: seq<Call>, rest: seq<Call>)
    requires forall c | c in earlier :: c.CreateAccessPolicyCall? || c.CreateSecurityPolicyCall?
                                        || c.CreateCollectionCall? || c.BatchGetCollectionCall?
    requires |rest| == 2 && rest[0].CreateIndexCall? && rest[1].CreateKnowledgeBaseCall?
    ensures (earlier + rest)[|earlier + rest| - 1] == rest[1]
    ensures forall c | c in earlier + rest :: !c.CreateDataSourceCall?
  {
    forall c | c in earlier + rest ensures !c.CreateDataSourceCall? {
      if c !in earlier {
        assert c == rest[0] || c == rest[1];
      }
    }
  }

  /** With the knowledge base persisted, a rejected or unusable data-source answer, or an
      unreachable data-source path, ends Create with the data-source error after its request. */
  lemma DataSourceFailureEndsCreate(m: map<string, string>, p: Properties, s: Script)
    requires PolicyCreation(p, s).result.Ok?
    requires CollectionCreation(m, NamesOf(p), s.collectionCreated, s.polls, s.unreachable).result.Ok?
    requires KnowledgeBaseStepSucceeds(NamesOf(p), s) && !DataSourceStepSucceeds(NamesOf(p), s)
    ensures var r := Creation(m, p, s);
            && r.result == Err(DataSourceFailure)
            && r.sent[|r.sent| - 1]
               == DataSourceRequest(NamesOf(p), p.knowledgeBaseBucketArn, s.knowledgeBase.knowledgeBaseId)
  {
    CreatePhases(m, p, s);
    var collection := CollectionCreation(m, NamesOf(p), s.collectionCreated, s.polls, s.unreachable);
    ProvisioningSent(collection.params, p, s, collection.result.value);
    ProvisioningOutcome(collection.params, p, s, collection.result.value);
  }

  /** Whatever happens, Create loses no key. */
  lemma CreateKeepsKeys(m: map<string, string>, p: Properties, s: Script)
    ensures m.Keys <= Creation(m, p, s).params.Keys
  {
    CreatePhases(m, p, s);
    var collection := CollectionCreation(m, NamesOf(p), s.collectionCreated, s.polls, s.unreachable);
    if PolicyCreation(p, s).result.Ok? && collection.result.Ok? {
      ProvisioningFrame(collection.params, p, s, collection.result.value);
    }
  }

  /** Whatever happens, Create changes no key outside the persisted paths. */
  lemma CreateTouchesOnlyPersistedPaths(m: map<string, string>, p: Properties, s: Script)
    ensures forall k | k !in PersistedPaths(NamesOf(p)) :: SameAt(m, Creation(m, p, s).params, k)
  {
    CreatePhases(m, p, s);
    var n := NamesOf(p);
    var collection := CollectionCreation(m, n, s.collectionCreated, s.polls, s.unreachable);
    var ok := PolicyCreation(p, s).result.Ok? && collection.result.Ok?;
    if ok {
      ProvisioningFrame(collection.params, p, s, collection.result.value);
    }
    PersistedPathsAre(n);
    forall k | k !in PersistedPaths(n) ensures SameAt(m, Creation(m, p, s).params, k) {
      assert k != ParameterPath(n, "collectionId") && k != ParameterPath(n, "collectionArn");
      assert k != ParameterPath(n, "collectionName") && k != ParameterPath(n, "collectionEndpoint");
      assert k != ParameterPath(n, "knowledgeBaseId") && k != ParameterPath(n, "knowledgeBaseArn");
      assert k != ParameterPath(n, "dataSourceId");
    }
  }

  // ---------------------------------------------------------------- Update after Create

  /** A successful Create had every persisted path reachable: each of its puts went through. */
  lemma CreateReachedEveryPath(m: map<string, string>, p: Properties, s: Script)
    requires Creation(m, p, s).result.Ok?
    ensures PathsReachable(NamesOf(p), s.unreachable)
  {
    CreatePhases(m, p, s);
    var collection := CollectionCreation(m, NamesOf(p), s.collectionCreated, s.polls, s.unreachable);
    ProvisioningOutcome(collection.params, p, s, collection.result.value);
  }

  /** Reading back a deployment's seven identifiers returns them, when they are non-empty and reachable. */
  lemma ReadbackProvisioned(m: map<string, string>, n: Names, d: Data, knowledgeBaseArn: string, unreachable: set<string>)
    requires d.collectionId != "" && d.collectionArn != "" && d.collectionName != "" && d.collectionEndpoint != ""
    requires d.knowledgeBaseId != "" && knowledgeBaseArn != "" && d.dataSourceId != ""
    requires PathsReachable(n, unreachable)
    ensures Readback(Provisioned(m, n, d, knowledgeBaseArn), n, unreachable) == Ok(d)
  {
    ProvisionedHolds(m, n, d, knowledgeBaseArn);
    var q := Provisioned(m, n, d, knowledgeBaseArn);
    assert UpdateCollection(q, n, unreachable)
           == Ok(CollectionInfo(d.collectionId, d.collectionName, d.collectionEndpoint, d.collectionArn));
    assert UpdateKnowledgeBase(q, n, unreachable) == Ok(KnowledgeBaseInfo(d.knowledgeBaseId, knowledgeBaseArn, d.dataSourceId));
  }

  /** An Update after a successful Create reports exactly what Create reported, whatever store
      failures the Update meets away from the persisted paths, provided the collection's four
      identifiers are non-empty (a read refuses an empty value). */
  lemma UpdateAfterCreate(m: map<string, string>, p: Properties, s: Script, unreachable: set<string>)
    requires Creation(m, p, s).result.Ok?
    requires var d := Creation(m, p, s).result.value;
             d.collectionId != "" && d.collectionArn != "" && d.collectionName != "" && d.collectionEndpoint != ""
    requires PathsReachable(NamesOf(p), unreachable)
    ensures Readback(Creation(m, p, s).params, NamesOf(p), unreachable) == Ok(Creation(m, p, s).result.value)
  {
    CreateStores(m, p, s);
    CreateReportsWhatItCreated(m, p, s);
    var r := Creation(m, p, s);
    ReadbackProvisioned(m, NamesOf(p), r.result.value, s.knowledgeBase.knowledgeBaseArn, unreachable);
  }

  /** In particular an Update that meets the same store failures as the Create: a successful
      Create had every persisted path reachable. */
  lemma UpdateAfterCreateSameStore(m: map<string, string>, p: Properties, s: Script)
    requires Creation(m, p, s).result.Ok?
    requires var d := Creation(m, p, s).result.value;
             d.collectionId != "" && d.collectionArn != "" && d.collectionName != "" && d.collectionEndpoint != ""
    ensures Readback(Creation(m, p, s).params, NamesOf(p), s.unreachable) == Ok(Creation(m, p, s).result.value)
  {
    CreateReachedEveryPath(m, p, s);
    UpdateAfterCreate(m, p, s, s.unreachable);
  }

  // ---------------------------------------------------------------- Create never undoes

  predicate NoDeletion(sent: seq<Call>) {
    forall c | c in sent :: !IsDeletion(c)
  }

  lemma NoDeletionConcat(a: seq<Call>, b: seq<Call>)
    requires NoDeletion(a) && NoDeletion(b)
    ensures NoDeletion(a + b)
  {
  }

  lemma PoliciesSendNoDeletion(p: Properties, s: Script)
    ensures NoDeletion(PolicyCreation(p, s).sent)
  {
  }

  lemma CollectionSendsNoDeletion(m: map<string, string>, n: Names, s: Script)
    ensures NoDeletion(CollectionCreation(m, n, s.collectionCreated, s.polls, s.unreachable).sent)
  {
  }

  lemma ProvisioningSendsNoDeletion(m: map<string, string>, p: Properties, s: Script, c: CollectionDetail)
    ensures NoDeletion(Provisioning(m, p, s, c).sent)
  {
    ProvisioningSent(m, p, s, c);
  }

  /** Whatever happens, Create sends no deletion: an earlier step is never undone. */
  lemma CreateSendsNoDeletion(m: map<string, string>, p: Properties, s: Script)
    ensures NoDeletion(Creation(m, p, s).sent)
  {
    CreatePhases(m, p, s);
    var policies := PolicyCreation(p, s).sent;
    var collection := CollectionCreation(m, NamesOf(p), s.collectionCreated, s.polls, s.unreachable);
    PoliciesSendNoDeletion(p, s);
    CollectionSendsNoDeletion(m, NamesOf(p), s);
    NoDeletionConcat(policies, collection.sent);
    if PolicyCreation(p, s).result.Ok? && collection.result.Ok? {
      ProvisioningSendsNoDeletion(collection.params, p, s, collection.result.value);
      NoDeletionConcat(policies + collection.sent, Provisioning(collection.params, p, s, collection.result.value).sent);
    }
  }
}
