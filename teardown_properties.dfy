/** What the handler's Delete branch guarantees: the order of its requests, when it stops, what
    it removes from the store, and how it relates to Create and to a second Delete. */
module TeardownProperties {
  import opened Outcomes
  import opened Naming
  import opened Requests
  import opened Parameters
  import opened OpenSearchServerless
  import opened BedrockKnowledgeBase
  import opened KnowledgeBaseLifecycle
  import opened LifecycleProperties

  /** The collection step of Delete goes through: its id reads back and the provider accepts the delete. */
  predicate CollectionStepSucceeds(m: map<string, string>, n: Names, s: Script) {
    Read(m, ParameterPath(n, "collectionId"), s.unreachable).Ok? && s.collectionDeleted
  }

  /** The knowledge-base step of Delete goes through. */
  predicate KnowledgeBaseDeleteSucceeds(m: map<string, string>, n: Names, s: Script) {
    Read(m, ParameterPath(n, "knowledgeBaseId"), s.unreachable).Ok? && s.knowledgeBaseDeleted
  }

  /** Delete always starts with the three policy deletions, whatever the provider answers to them. */
  lemma PolicyDeletionsAre(n: Names, s: Script)
    ensures PolicyDeletions(n, s)
            == [DeleteAccessPolicyCall(ResourceName(n), "data"), DeleteSecurityPolicyCall(ResourceName(n), "network"),
                DeleteSecurityPolicyCall(ResourceName(n), "encryption")]
  {
  }

  /** Delete sends the policy deletions, then the collection's deletion when its id reads back,
      then the knowledge base's when the collection step went through and its id reads back;
      each deletion names the identifier read from the store. */
  lemma DeleteOrder(m: map<string, string>, n: Names, s: Script)
    ensures var r := Deletion(m, n, s);
            var cid := ParameterPath(n, "collectionId");
            var kid := ParameterPath(n, "knowledgeBaseId");
            && 3 <= |r.sent| <= 5
            && r.sent[..3] == PolicyDeletions(n, s)
            && (|r.sent| >= 4 <==> Read(m, cid, s.unreachable).Ok?)
            && (|r.sent| >= 4 ==> r.sent[3] == DeleteCollectionCall(m[cid]))
            && (|r.sent| == 5 <==> CollectionStepSucceeds(m, n, s) && Read(m, kid, s.unreachable).Ok?)
            && (|r.sent| == 5 ==> r.sent[4] == DeleteKnowledgeBaseCall(m[kid]))
  {
    PolicyDeletionsAre(n, s);
  }

  /** The answers to the policy deletions change nothing: each of them swallows its own failure. */
  lemma DeleteIgnoresPolicyAnswers(m: map<string, string>, n: Names, s: Script, access: bool, network: bool, encryption: bool)
    ensures Deletion(m, n, s)
            == Deletion(m, n, s.(accessPolicyDeleted := access, networkPolicyDeleted := network,
                                encryptionPolicyDeleted := encryption))
  {
  }

  /** A failed collection step ends Delete with the store untouched and no knowledge-base deletion. */
  lemma DeleteStopsAtCollection(m: map<string, string>, n: Names, s: Script)
    requires !CollectionStepSucceeds(m, n, s)
    ensures var r := Deletion(m, n, s);
            var cid := ParameterPath(n, "collectionId");
            && r.result.Err? && r.params == m
            && (forall c | c in r.sent :: !c.DeleteKnowledgeBaseCall?)
            && (Read(m, cid, s.unreachable).Err? ==> r == Run(Err(RetrieveFailure(cid)), m, PolicyDeletions(n, s)))
            && (Read(m, cid, s.unreachable).Ok? ==> r.result == Err(Thrown("Failed to delete Collection")))
  {
    PolicyDeletionsAre(n, s);
  }

  /** A failed knowledge-base step ends Delete with the store untouched: no parameter is removed. */
  lemma DeleteStopsAtKnowledgeBase(m: map<string, string>, n: Names, s: Script)
    requires CollectionStepSucceeds(m, n, s) && !KnowledgeBaseDeleteSucceeds(m, n, s)
    ensures var r := Deletion(m, n, s);
            var kid := ParameterPath(n, "knowledgeBaseId");
            && r.params == m
            && (Read(m, kid, s.unreachable).Err? ==> r.result == Err(RetrieveFailure(kid)))
            && (Read(m, kid, s.unreachable).Ok? ==> r.result == Err(ProviderFault("DeleteKnowledgeBase")))
  {
  }

  /** Once both resource deletions went through, Delete is the sequence of parameter deletions. */
  lemma DeleteRemovesParameters(m: map<string, string>, n: Names, s: Script)
    requires CollectionStepSucceeds(m, n, s) && KnowledgeBaseDeleteSucceeds(m, n, s)
    ensures var removed := RemoveAll(m, DeletedPaths(n), s.undeletable);
            Deletion(m, n, s) == Run(removed.outcome, removed.params, Deletion(m, n, s).sent)
  {
  }

  /** Delete succeeds exactly when both resource deletions go through and all seven persisted
      paths are present and their deletes go through; it then leaves the store without them and
      nothing else changed. */
  lemma DeleteSucceedsIff(m: map<string, string>, n: Names, s: Script)
    ensures var r := Deletion(m, n, s);
            && (r.result.Ok? <==> r.result == Ok(()))
            && (r.result.Ok? <==>
                  && CollectionStepSucceeds(m, n, s) && KnowledgeBaseDeleteSucceeds(m, n, s)
                  && PathsReachable(n, s.undeletable) && PersistedPaths(n) <= m.Keys)
            && (r.result.Ok? ==> r.params == m - PersistedPaths(n))
  {
    var names := DeletedPaths(n);
    DeletedPathsArePersisted(n);
    PathsReachableIff(n, s.undeletable);
    assert KeySet(names) == PersistedPaths(n);
    if RemoveAll(m, names, s.undeletable).outcome.Ok? {
      RemoveAllOk(m, names, s.undeletable);
      forall k | k in PersistedPaths(n) ensures k !in s.undeletable && k in m {
        var i :| 0 <= i < |names| && names[i] == k;
      }
    }
    if PathsReachable(n, s.undeletable) && PersistedPaths(n) <= m.Keys {
      forall i | 0 <= i < |names| ensures names[i] !in s.undeletable && names[i] in m {
        assert names[i] in KeySet(names);
      }
      RemoveAllSucceeds(m, names, s.undeletable);
    }
    if CollectionStepSucceeds(m, n, s) && KnowledgeBaseDeleteSucceeds(m, n, s) {
      DeleteRemovesParameters(m, n, s);
    }
  }

  /** Where the parameter deletions stop: at the first path, in Delete's order, that is absent or
      whose delete fails, with every earlier one already removed. This includes the collection's and
      the knowledge base's id paths, whose earlier reads went through. */
  lemma DeleteStopsAtParameter(m: map<string, string>, n: Names, s: Script, i: nat)
    requires CollectionStepSucceeds(m, n, s) && KnowledgeBaseDeleteSucceeds(m, n, s)
    requires i < |DeletedPaths(n)|
    requires forall j | 0 <= j < i :: DeletedPaths(n)[j] !in s.undeletable && DeletedPaths(n)[j] in m
    requires DeletedPaths(n)[i] in s.undeletable || DeletedPaths(n)[i] !in m
    ensures var r := Deletion(m, n, s);
            && r.result == Err(DeleteFailure(DeletedPaths(n)[i]))
            && r.params == m - KeySet(DeletedPaths(n)[..i])
  {
    DeletedPathsArePersisted(n);
    DeleteRemovesParameters(m, n, s);
    RemoveAllStopsAt(m, DeletedPaths(n), s.undeletable, i);
  }

  /** The collection's id reads back and its collection is deleted, yet the later delete of that
      same parameter fails: Delete then fails with that delete's error, after removing the
      collection's ARN and endpoint. */
  lemma DeleteFailsAtCollectionIdParameter(m: map<string, string>, n: Names, s: Script)
    requires CollectionStepSucceeds(m, n, s) && KnowledgeBaseDeleteSucceeds(m, n, s)
    requires ParameterPath(n, "collectionArn") in m && ParameterPath(n, "collectionArn") !in s.undeletable
    requires ParameterPath(n, "collectionEndpoint") in m && ParameterPath(n, "collectionEndpoint") !in s.undeletable
    requires ParameterPath(n, "collectionId") in s.undeletable
    ensures var r := Deletion(m, n, s);
            && r.result == Err(DeleteFailure(ParameterPath(n, "collectionId")))
            && r.params == m - {ParameterPath(n, "collectionArn"), ParameterPath(n, "collectionEndpoint")}
  {
    var paths := DeletedPaths(n);
    assert paths[..2] == [ParameterPath(n, "collectionArn"), ParameterPath(n, "collectionEndpoint")];
    assert KeySet(paths[..2]) == {ParameterPath(n, "collectionArn"), ParameterPath(n, "collectionEndpoint")};
    DeleteStopsAtParameter(m, n, s, 2);
  }

  /** Whatever happens, Delete changes no key outside the persisted paths. */
  lemma DeleteTouchesOnlyPersistedPaths(m: map<string, string>, n: Names, s: Script)
    ensures forall k | k !in PersistedPaths(n) :: SameAt(m, Deletion(m, n, s).params, k)
  {
    DeletedPathsArePersisted(n);
    forall k | k !in PersistedPaths(n) ensures SameAt(m, Deletion(m, n, s).params, k) {
      assert k !in DeletedPaths(n);
      RemoveAllFrame(m, DeletedPaths(n), s.undeletable, k);
    }
  }

  /** Delete on a store holding a deployment's seven non-empty identifiers, with every step going
      through: the resources are deleted by those identifiers and exactly the persisted paths go. */
  lemma DeleteProvisioned(m: map<string, string>, n: Names, d: Data, knowledgeBaseArn: string, s: Script)
    requires d.collectionId != "" && d.knowledgeBaseId != ""
    requires s.collectionDeleted && s.knowledgeBaseDeleted
    requires PathsReachable(n, s.unreachable) && PathsReachable(n, s.undeletable)
    ensures Deletion(Provisioned(m, n, d, knowledgeBaseArn), n, s)
            == Run(Ok(()), m - PersistedPaths(n),
                   PolicyDeletions(n, s) + [DeleteCollectionCall(d.collectionId), DeleteKnowledgeBaseCall(d.knowledgeBaseId)])
  {
    var q := Provisioned(m, n, d, knowledgeBaseArn);
    ProvisionedHolds(m, n, d, knowledgeBaseArn);
    var cid, kid := ParameterPath(n, "collectionId"), ParameterPath(n, "knowledgeBaseId");
    assert Read(q, cid, s.unreachable) == Ok(d.collectionId);
    assert Read(q, kid, s.unreachable) == Ok(d.knowledgeBaseId);
    assert DeleteCollection(q, n, s.unreachable, s.collectionDeleted).sent == [DeleteCollectionCall(d.collectionId)];
    assert DeleteKnowledgeBase(q, n, s.unreachable, s.knowledgeBaseDeleted).sent == [DeleteKnowledgeBaseCall(d.knowledgeBaseId)];
    DeleteSucceedsIff(q, n, s);
    var calls := [DeleteCollectionCall(d.collectionId), DeleteKnowledgeBaseCall(d.knowledgeBaseId)];
    assert PolicyDeletions(n, s) + [calls[0]] + [calls[1]] == PolicyDeletions(n, s) + calls;
    assert CollectionStepSucceeds(q, n, s) && KnowledgeBaseDeleteSucceeds(q, n, s);
    assert Deletion(q, n, s).result.Ok?;
    ProvisionedLessPersisted(m, n, d, knowledgeBaseArn);
  }

  /** A Delete after a successful Create removes what Create persisted and deletes the resources
      it created, by the identifiers it reported; the store ends as it was before Create, less
      any stale entries under the persisted paths. */
  lemma CreateThenDelete(m: map<string, string>, p: Properties, s: Script, s': Script)
    requires Creation(m, p, s).result.Ok? && Creation(m, p, s).result.value.collectionId != ""
    requires s'.collectionDeleted && s'.knowledgeBaseDeleted
    requires PathsReachable(NamesOf(p), s'.unreachable) && PathsReachable(NamesOf(p), s'.undeletable)
    ensures var n := NamesOf(p);
            var d := Creation(m, p, s).result.value;
            Deletion(Creation(m, p, s).params, n, s')
            == Run(Ok(()), m - PersistedPaths(n),
                   PolicyDeletions(n, s') + [DeleteCollectionCall(d.collectionId), DeleteKnowledgeBaseCall(d.knowledgeBaseId)])
  {
    CreateStores(m, p, s);
    CreateReportsWhatItCreated(m, p, s);
    var r := Creation(m, p, s);
    DeleteProvisioned(m, NamesOf(p), r.result.value, s.knowledgeBase.knowledgeBaseArn, s');
  }

  /** A second Delete after a successful one fails at once: the collection's id is gone, so only
      the policy deletions are sent and the store is left as the first Delete left it. */
  lemma DeleteTwiceFails(m: map<string, string>, n: Names, s: Script, s': Script)
    requires Deletion(m, n, s).result.Ok?
    ensures var q := Deletion(m, n, s).params;
            Deletion(q, n, s') == Run(Err(RetrieveFailure(ParameterPath(n, "collectionId"))), q, PolicyDeletions(n, s'))
  {
    DeleteSucceedsIff(m, n, s);
    PersistedPathsAre(n);
  }
}
