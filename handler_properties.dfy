/** What one invocation of the handler guarantees, whatever the request type: the response
    envelope, the propagation of failures, and the Create-then-Update and Create-then-Delete
    sequences seen through the handler. */
module HandlerProperties {
  import opened Outcomes
  import opened Naming
  import opened Requests
  import opened Parameters
  import opened KnowledgeBaseLifecycle
  import opened LifecycleProperties
  import opened TeardownProperties

  function ReasonFor(t: RequestType): string {
    match t
    case Create => CreateReason
    case Update => UpdateReason
    case Delete => DeleteReason
  }

  /** A returned response is always a success that echoes the request's identifiers, names the
      log group as the physical id, gives the reason of its request type, and carries data unless
      the request was a Delete. */
  lemma HandlerEchoesRequest(m: map<string, string>, event: Event, logGroupName: string, s: Script)
    requires Handling(m, event, logGroupName, s).result.Ok?
    ensures var response := Handling(m, event, logGroupName, s).result.value;
            && response.status == Some(Success)
            && response.reason == Some(ReasonFor(event.requestType))
            && (response.data.None? <==> event.requestType == Delete)
            && response.stackId == Some(event.stackId) && response.requestId == Some(event.requestId)
            && response.logicalResourceId == Some(event.logicalResourceId)
            && response.physicalResourceId == Some(logGroupName)
  {
  }

  /** The handler never answers with a failure status: a failing branch makes the invocation
      fail with that branch's error, after the requests and writes the branch made. */
  lemma HandlerPropagatesFailure(m: map<string, string>, event: Event, logGroupName: string, s: Script)
    ensures var h := Handling(m, event, logGroupName, s);
            var p := event.resourceProperties;
            && (event.requestType == Create ==>
                  && h.params == Creation(m, p, s).params && h.sent == Creation(m, p, s).sent
                  && (h.result.Err? <==> Creation(m, p, s).result.Err?)
                  && (h.result.Err? ==> h.result.error == Creation(m, p, s).result.error)
                  && (h.result.Ok? ==> h.result.value.data == Some(Creation(m, p, s).result.value)))
            && (event.requestType == Update ==>
                  && (h.result.Err? <==> Readback(m, NamesOf(p), s.unreachable).Err?)
                  && (h.result.Err? ==> h.result.error == Readback(m, NamesOf(p), s.unreachable).error)
                  && (h.result.Ok? ==> h.result.value.data == Some(Readback(m, NamesOf(p), s.unreachable).value)))
            && (event.requestType == Delete ==>
                  && h.params == Deletion(m, NamesOf(p), s).params && h.sent == Deletion(m, NamesOf(p), s).sent
                  && (h.result.Err? <==> Deletion(m, NamesOf(p), s).result.Err?)
                  && (h.result.Err? ==> h.result.error == Deletion(m, NamesOf(p), s).result.error))
  {
  }

  /** An Update sends nothing and writes nothing, whether it succeeds or not. */
  lemma UpdateChangesNothing(m: map<string, string>, event: Event, logGroupName: string, s: Script)
    requires event.requestType == Update
    ensures Handling(m, event, logGroupName, s).params == m && Handling(m, event, logGroupName, s).sent == []
  {
  }

  /** A Create event, then an Update event for the same resource properties, seen through the
      handler with the Update's own provider answers: when the store answers the Update's reads,
      the Update reports the data the Create reported. */
  lemma HandlerUpdateAfterCreate(m: map<string, string>, create: Event, update: Event, logGroupName: string,
                                 s: Script, s': Script)
    requires create.requestType == Create && update.requestType == Update
    requires update.resourceProperties == create.resourceProperties
    requires Handling(m, create, logGroupName, s).result.Ok?
    requires var d := Creation(m, create.resourceProperties, s).result.value;
             d.collectionId != "" && d.collectionArn != "" && d.collectionName != "" && d.collectionEndpoint != ""
    requires PathsReachable(NamesOf(create.resourceProperties), s'.unreachable)
    ensures var first := Handling(m, create, logGroupName, s);
            var second := Handling(first.params, update, logGroupName, s');
            second.result.Ok? && second.result.value.data == first.result.value.data
  {
    UpdateAfterCreate(m, create.resourceProperties, s, s'.unreachable);
  }

  /** A Create event, then a Delete event for the same resource properties whose deletions all go
      through: the Delete succeeds and the store ends without the deployment's persisted paths,
      every other entry as before the Create. */
  lemma HandlerDeleteAfterCreate(m: map<string, string>, create: Event, delete: Event, logGroupName: string,
                                 s: Script, s': Script)
    requires create.requestType == Create && delete.requestType == Delete
    requires delete.resourceProperties == create.resourceProperties
    requires Handling(m, create, logGroupName, s).result.Ok?
    requires Creation(m, create.resourceProperties, s).result.value.collectionId != ""
    requires s'.collectionDeleted && s'.knowledgeBaseDeleted
    requires PathsReachable(NamesOf(create.resourceProperties), s'.unreachable)
    requires PathsReachable(NamesOf(create.resourceProperties), s'.undeletable)
    ensures var first := Handling(m, create, logGroupName, s);
            var second := Handling(first.params, delete, logGroupName, s');
            && second.result.Ok?
            && second.params == m - PersistedPaths(NamesOf(create.resourceProperties))
  {
    CreateThenDelete(m, create.resourceProperties, s, s');
  }
}
