/** The knowledge-base side (src/util/bedrockKnowledgeBaseAPIUtil.ts): the knowledge base bound to
    the collection's index, its bucket data source, the ingestion trigger, and their read-back and
    deletion. */
module BedrockKnowledgeBase {
  import opened Outcomes
  import opened Naming
  import opened Requests
  import opened Parameters

  /** The answer to the create-knowledge-base request: it threw, or it returned these attributes
      (an attribute the response leaves out is ""). */
  datatype KnowledgeBaseAnswer = KnowledgeBaseRejected | KnowledgeBaseReturned(knowledgeBaseId: string, knowledgeBaseArn: string)

  /** The answer to the create-data-source request. */
  datatype DataSourceAnswer = DataSourceRejected | DataSourceReturned(dataSourceId: string)

  datatype KnowledgeBaseRecord = KnowledgeBaseRecord(knowledgeBaseId: string, knowledgeBaseArn: string)

  /** The three identifiers `updateKnowledgeBase` reads back. */
  datatype KnowledgeBaseInfo = KnowledgeBaseInfo(knowledgeBaseId: string, knowledgeBaseArn: string, dataSourceId: string)

  const KnowledgeBaseFailure: Failure := Thrown("Failed to create Knowledge Base")
  const DataSourceFailure: Failure := Thrown("Failed to create data source")

  /** The create request: a vector knowledge base stored in the collection, reading the index
      `<prefix>-<suffix>` through the vector field `<prefix>-vector`. */
  function KnowledgeBaseRequest(n: Names, roleArn: string, embeddingModelArn: string, collectionArn: string): Call {
    CreateKnowledgeBaseCall(ResourceName(n), roleArn, "VECTOR", embeddingModelArn, "OPENSEARCH_SERVERLESS",
                            collectionArn, ResourceName(n), FieldMapping(n.prefix + "-vector", "text", "metadata"))
  }

  function KnowledgeBaseWrites(n: Names, id: string, arn: string): seq<Write> {
    [Write(ParameterPath(n, "knowledgeBaseId"), id), Write(ParameterPath(n, "knowledgeBaseArn"), arn)]
  }

  /** What `createKnowledgeBase` does: one create request; when the response carries both an id
      and an ARN, persist the id and then the ARN. Everything inside the `try` (the request, a
      malformed response, a failed put) ends in one fixed error. */
  function KnowledgeBaseCreation(m: map<string, string>, n: Names, roleArn: string, embeddingModelArn: string,
                                 collectionArn: string, answer: KnowledgeBaseAnswer, unreachable: set<string>)
    : (r: Run<KnowledgeBaseRecord>)
    ensures r.sent == [KnowledgeBaseRequest(n, roleArn, embeddingModelArn, collectionArn)]
    ensures r.result.Ok? <==>
              && answer.KnowledgeBaseReturned? && answer.knowledgeBaseId != "" && answer.knowledgeBaseArn != ""
              && ParameterPath(n, "knowledgeBaseId") !in unreachable && ParameterPath(n, "knowledgeBaseArn") !in unreachable
    ensures r.result.Ok? ==>
              && r.result.value == KnowledgeBaseRecord(answer.knowledgeBaseId, answer.knowledgeBaseArn)
              && r.params == m[ParameterPath(n, "knowledgeBaseId") := answer.knowledgeBaseId]
                              [ParameterPath(n, "knowledgeBaseArn") := answer.knowledgeBaseArn]
    ensures r.result.Err? ==> r.result.error == KnowledgeBaseFailure
    ensures r.result.Err? ==>
              r.params == if answer.KnowledgeBaseReturned? && answer.knowledgeBaseId != "" && answer.knowledgeBaseArn != ""
                             && ParameterPath(n, "knowledgeBaseId") !in unreachable
                          then m[ParameterPath(n, "knowledgeBaseId") := answer.knowledgeBaseId]
                          else m
  {
    var sent := [KnowledgeBaseRequest(n, roleArn, embeddingModelArn, collectionArn)];
    match answer
    case KnowledgeBaseRejected => Run(Err(KnowledgeBaseFailure), m, sent)
    case KnowledgeBaseReturned(id, arn) =>
      if id != "" && arn != "" then
        var writes := KnowledgeBaseWrites(n, id, arn);
        var idPath, arnPath := ParameterPath(n, "knowledgeBaseId"), ParameterPath(n, "knowledgeBaseArn");
        var stored := PutAll(m, writes, unreachable);
        assert (arnPath in unreachable && idPath !in unreachable) ==> stored.params == m[idPath := id] by {
          if arnPath in unreachable && idPath !in unreachable {
            PutAllStopsAt(m, writes, unreachable, 1);
          }
        }
        assert idPath in unreachable ==> stored.params == m by {
          if idPath in unreachable {
            PutAllStopsAt(m, writes, unreachable, 0);
          }
        }
        assert stored.outcome.Ok? ==> stored.params == m[idPath := id][arnPath := arn] by {
          assert writes[1..][1..] == [];
          assert Overwrite(m, writes) == Overwrite(m[idPath := id], writes[1..]);
          assert Overwrite(m[idPath := id], writes[1..]) == Overwrite(m[idPath := id][arnPath := arn], []);
        }
        Run(if stored.outcome.Ok? then Ok(KnowledgeBaseRecord(id, arn)) else Err(KnowledgeBaseFailure), stored.params, sent)
      else Run(Err(KnowledgeBaseFailure), m, sent)
  }

  /** `createKnowledgeBase`. The fixed wait before the request is not modelled. */
  method CreateKnowledgeBase(store: ParameterStore, n: Names, roleArn: string, embeddingModelArn: string,
                             collectionArn: string, answer: KnowledgeBaseAnswer, unreachable: set<string>)
    returns (r: Result<KnowledgeBaseRecord>, sent: seq<Call>)
    modifies store
    ensures Run(r, store.params, sent)
            == KnowledgeBaseCreation(old(store.params), n, roleArn, embeddingModelArn, collectionArn, answer, unreachable)
  {
    sent := [KnowledgeBaseRequest(n, roleArn, embeddingModelArn, collectionArn)];
    if answer.KnowledgeBaseRejected? || answer.knowledgeBaseId == "" || answer.knowledgeBaseArn == "" {
      r := Err(KnowledgeBaseFailure);
      return;
    }
    var idPath := ParameterPath(n, "knowledgeBaseId");
    var put := store.StoreParameter(idPath, answer.knowledgeBaseId, idPath !in unreachable);
    if put.Err? {
      r := Err(KnowledgeBaseFailure);
      return;
    }
    var arnPath := ParameterPath(n, "knowledgeBaseArn");
    put := store.StoreParameter(arnPath, answer.knowledgeBaseArn, arnPath !in unreachable);
    if put.Err? {
      r := Err(KnowledgeBaseFailure);
      return;
    }
    r := Ok(KnowledgeBaseRecord(answer.knowledgeBaseId, answer.knowledgeBaseArn));
  }

  function DataSourceRequest(n: Names, bucketArn: string, knowledgeBaseId: string): Call {
    CreateDataSourceCall(knowledgeBaseId, ResourceName(n), "S3", bucketArn)
  }

  /** What `createDataSource` does: one create request bound to `knowledgeBaseId` and the bucket;
      when the response carries an id, persist it. Any failure inside the `try` ends in one
      fixed error. */
  function DataSourceCreation(m: map<string, string>, bucketArn: string, knowledgeBaseId: string, n: Names,
                              answer: DataSourceAnswer, unreachable: set<string>): (r: Run<string>)
    ensures r.sent == [DataSourceRequest(n, bucketArn, knowledgeBaseId)]
    ensures r.result.Ok? <==> answer.DataSourceReturned? && answer.dataSourceId != ""
                              && ParameterPath(n, "dataSourceId") !in unreachable
    ensures r.result.Ok? ==> r.result.value == answer.dataSourceId
                             && r.params == m[ParameterPath(n, "dataSourceId") := answer.dataSourceId]
    ensures r.result.Err? ==> r.result.error == DataSourceFailure && r.params == m
  {
    var sent := [DataSourceRequest(n, bucketArn, knowledgeBaseId)];
    match answer
    case DataSourceRejected => Run(Err(DataSourceFailure), m, sent)
    case DataSourceReturned(id) =>
      if id != "" then
        var path := ParameterPath(n, "dataSourceId");
        var stored := Put(m, path, id, path !in unreachable);
        Run(if stored.outcome.Ok? then Ok(id) else Err(DataSourceFailure), stored.params, sent)
      else Run(Err(DataSourceFailure), m, sent)
  }

  /** `createDataSource`. */
  method CreateDataSource(store: ParameterStore, bucketArn: string, knowledgeBaseId: string, n: Names,
                          answer: DataSourceAnswer, unreachable: set<string>)
    returns (r: Result<string>, sent: seq<Call>)
    modifies store
    ensures Run(r, store.params, sent) == DataSourceCreation(old(store.params), bucketArn, knowledgeBaseId, n, answer, unreachable)
  {
    sent := [DataSourceRequest(n, bucketArn, knowledgeBaseId)];
    if answer.DataSourceRejected? || answer.dataSourceId == "" {
      r := Err(DataSourceFailure);
      return;
    }
    var path := ParameterPath(n, "dataSourceId");
    var put := store.StoreParameter(path, answer.dataSourceId, path !in unreachable);
    if put.Err? {
      r := Err(DataSourceFailure);
      return;
    }
    r := Ok(answer.dataSourceId);
  }

  /** `syncKnowledgeBase`: exactly one ingestion start for the given pair; returns, or throws one
      fixed error. It does not wait for the ingestion to finish. */
  function SyncKnowledgeBase(knowledgeBaseId: string, dataSourceId: string, accepted: bool): (r: Exchange<()>)
    ensures r.sent == [StartIngestionJobCall(knowledgeBaseId, dataSourceId)]
    ensures r.result.Ok? <==> accepted
    ensures r.result.Err? ==> r.result.error == Thrown("Failed to sync data source")
  {
    Exchange(if accepted then Ok(()) else Err(Thrown("Failed to sync data source")),
             [StartIngestionJobCall(knowledgeBaseId, dataSourceId)])
  }

  /** `updateKnowledgeBase`: reads the knowledge-base id, its ARN and the data-source id, in that
      order, and changes nothing; the first failed read's error is re-thrown unchanged. */
  function UpdateKnowledgeBase(m: map<string, string>, n: Names, unreachable: set<string>): (r: Result<KnowledgeBaseInfo>)
    ensures var id := Read(m, ParameterPath(n, "knowledgeBaseId"), unreachable);
            var arn := Read(m, ParameterPath(n, "knowledgeBaseArn"), unreachable);
            var dataSource := Read(m, ParameterPath(n, "dataSourceId"), unreachable);
            && (r.Ok? <==> id.Ok? && arn.Ok? && dataSource.Ok?)
            && (r.Ok? ==> r.value == KnowledgeBaseInfo(id.value, arn.value, dataSource.value))
            && (id.Err? ==> r == Err(RetrieveFailure(ParameterPath(n, "knowledgeBaseId"))))
            && (id.Ok? && arn.Err? ==> r == Err(RetrieveFailure(ParameterPath(n, "knowledgeBaseArn"))))
            && (id.Ok? && arn.Ok? && dataSource.Err? ==> r == Err(RetrieveFailure(ParameterPath(n, "dataSourceId"))))
  {
    var idPath := ParameterPath(n, "knowledgeBaseId");
    var arnPath := ParameterPath(n, "knowledgeBaseArn");
    var dataSourcePath := ParameterPath(n, "dataSourceId");
    match Get(m, idPath, idPath !in unreachable)
    case Err(e) => Err(e)
    case Ok(id) =>
      match Get(m, arnPath, arnPath !in unreachable)
      case Err(e) => Err(e)
      case Ok(arn) =>
        match Get(m, dataSourcePath, dataSourcePath !in unreachable)
        case Err(e) => Err(e)
        case Ok(dataSourceId) => Ok(KnowledgeBaseInfo(id, arn, dataSourceId))
  }

  /** `deleteKnowledgeBase`: reads the persisted id and deletes that knowledge base; a failed read
      or a failed delete is re-thrown unchanged. */
  function DeleteKnowledgeBase(m: map<string, string>, n: Names, unreachable: set<string>, accepted: bool): (r: Exchange<()>)
    ensures var path := ParameterPath(n, "knowledgeBaseId");
            var id := Get(m, path, path !in unreachable);
            && (id.Err? ==> r == Exchange(Err(RetrieveFailure(path)), []))
            && (id.Ok? ==> r.sent == [DeleteKnowledgeBaseCall(m[path])])
            && (r.result.Ok? <==> id.Ok? && accepted)
            && (id.Ok? && !accepted ==> r.result.error == ProviderFault("DeleteKnowledgeBase"))
  {
    var path := ParameterPath(n, "knowledgeBaseId");
    match Get(m, path, path !in unreachable)
    case Err(e) => Exchange(Err(e), [])
    case Ok(id) =>
      Exchange(if accepted then Ok(()) else Err(ProviderFault("DeleteKnowledgeBase")), [DeleteKnowledgeBaseCall(id)])
  }
}
