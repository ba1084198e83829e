/** The requests the core sends to the cloud provider, and the shape of an invocation's effect. */
module Requests {
  import opened Outcomes

  /** A data-access rule of an access policy. */
  datatype DataRule = DataRule(resource: seq<string>, permission: seq<string>, resourceType: string)

  /** The document of a "data" access policy. */
  datatype AccessPolicyDocument = AccessPolicyDocument(rules: seq<DataRule>, principal: seq<string>, description: string)

  /** A rule of a security policy: which resources it covers. */
  datatype ScopeRule = ScopeRule(resourceType: string, resource: seq<string>)

  /** The documents of the "network" and "encryption" security policies. */
  datatype SecurityPolicyDocument =
    | NetworkPolicy(allowFromPublic: bool, networkRules: seq<ScopeRule>)
    | EncryptionPolicy(encryptionRules: seq<ScopeRule>, awsOwnedKey: bool)

  /** The body of the index-creation request: k-NN enabled, one vector field. */
  datatype IndexMapping = IndexMapping(knn: bool, vectorField: string, vectorType: string, dimension: nat,
                                       algorithm: string, engine: string, efConstruction: nat, m: nat)

  /** How the knowledge base maps its documents onto the index. */
  datatype FieldMapping = FieldMapping(vectorField: string, textField: string, metadataField: string)

  /** One request to the provider. The random client tokens are not modelled. */
  datatype Call =
    | CreateAccessPolicyCall(name: string, policyType: string, accessPolicy: AccessPolicyDocument)
    | CreateSecurityPolicyCall(name: string, policyType: string, securityPolicy: SecurityPolicyDocument)
    | CreateCollectionCall(name: string, collectionType: string)
    | BatchGetCollectionCall(ids: seq<string>)
    | CreateIndexCall(host: string, index: string, mapping: IndexMapping)
    | CreateKnowledgeBaseCall(name: string, roleArn: string, knowledgeBaseType: string, embeddingModelArn: string,
                              storageType: string, collectionArn: string, vectorIndexName: string,
                              fieldMapping: FieldMapping)
    | CreateDataSourceCall(knowledgeBaseId: string, name: string, sourceType: string, bucketArn: string)
    | StartIngestionJobCall(knowledgeBaseId: string, dataSourceId: string)
    | DeleteAccessPolicyCall(name: string, policyType: string)
    | DeleteSecurityPolicyCall(name: string, policyType: string)
    | DeleteCollectionCall(id: string)
    | DeleteKnowledgeBaseCall(knowledgeBaseId: string)

  /** What a provider-only operation does: its result and the requests it sent, in order. */
  datatype Exchange<T> = Exchange(result: Result<T>, sent: seq<Call>)

  /** What an operation that also uses the parameter store does: its result, the store's
      contents afterwards, and the provider requests it sent, in order. */
  datatype Run<T> = Run(result: Result<T>, params: map<string, string>, sent: seq<Call>)
}
