# Knowledge-base email assistant: a Dafny model of its core

This project models the core of a serverless email assistant, in two parts.

The first part is the CloudFormation custom resource that provisions a vector knowledge base. One handler runs for each stack event:

- **Create** provisions, in this order:
  - a data-access policy;
  - a network and an encryption security policy;
  - a search collection, which it polls until it is ACTIVE;
  - a k-NN vector index on that collection;
  - a knowledge base bound to the collection;
  - a data source bound to the knowledge base.

  Along the way it persists the seven identifiers it obtained in a parameter store under `/<prefix>-<suffix>/<attribute>`.
- **Update** reads those identifiers back.
- **Delete** deletes the policies, the collection and the knowledge base, then removes the seven parameters.

The second part is two small mail functions:

- **Intake** derives an email's id from its storage key and records the email in a table with an empty disposition.
- **Support review** picks the plain-text body of a received message and composes a review mail around the generated response. It sends that mail to a review address and marks the email's disposition as "Email Review".

How the model is built:

- The cloud provider is an oracle. A `Script` holds its answer to every request, and each operation returns the requests it sent, in order, as a trace.
- The parameter store is a class over a `map<string, string>`. Two sets of names model the store's failures: `unreachable` for a put or a get, `undeletable` for a delete. A get and the later delete of the same name are separate requests, so either may fail while the other goes through.
- Operations that work step by step are methods. They are proved equal to pure specification functions: `Creation`, `Deletion`, `Handling`, `CollectionCreation`, `PutAll`, `RemoveAll`, `BodyOf` and `ReviewBody`.
- The lemmas in `lifecycle_properties.dfy`, `teardown_properties.dfy` and `handler_properties.dfy` state the properties of those functions.

Modules and files:

| module | file | models |
|---|---|---|
| `Outcomes` | `outcomes.dfy` | failures, `Result`, `Option` |
| `Naming` | `naming.dfy` | resource names and parameter paths |
| `Requests` | `requests.dfy` | the requests sent to the provider |
| `Parameters` | `parameters.dfy` | `src/util/ssmAPIUtil.ts` |
| `OpenSearchServerless` | `open_search.dfy` | `src/util/openSearchServerlessAPIUtil.ts` |
| `BedrockKnowledgeBase` | `knowledge_base.dfy` | `src/util/bedrockKnowledgeBaseAPIUtil.ts` |
| `KnowledgeBaseLifecycle` | `lifecycle.dfy` | `src/constructs/bedrockKnowledgeBase/functions/crudKnowledgeBase.ts` |
| `LifecycleProperties` | `lifecycle_properties.dfy` | properties of the handler's Create and Update branches |
| `TeardownProperties` | `teardown_properties.dfy` | properties of the handler's Delete branch |
| `HandlerProperties` | `handler_properties.dfy` | properties of the whole handler |
| `EmailIntake` | `email_intake.dfy` | `src/constructs/knowlegeBaseEmailQuery/functions/writeToDynamo.py` |
| `SupportReview` | `review_email.dfy` | `src/constructs/knowlegeBaseEmailQuery/functions/sendEmailToSupport.py` |

## Behaviour worth knowing

- **Delete is not best effort.** Only the three policy deletions and the index creation swallow their failures. A failed collection or knowledge-base deletion propagates. So does a failed parameter deletion, and the parameter store reports a missing name as an error (`TeardownProperties.DeleteStopsAtParameter`). A second Delete therefore fails (`TeardownProperties.DeleteTwiceFails`).
- **The handler never answers FAILED.** Every failure propagates out of the handler as a thrown error (`HandlerProperties.HandlerPropagatesFailure`).
- **A read refuses an empty value.** `retrieveParameter` treats an empty stored value like a missing one, so Update after Create reports Create's data only when the identifiers are non-empty.

## Model

| member | source | states |
|---|---|---|
| Naming.ResourceName | src/constructs/bedrockKnowledgeBase/functions/crudKnowledgeBase.ts:132-152 | The shared resource name is the prefix, a dash, then the suffix. |
| Naming.Paths | src/constructs/bedrockKnowledgeBase/functions/crudKnowledgeBase.ts:132-152 | Every attribute maps to `/<prefix>-<suffix>/<attribute>`, position for position. |
| Naming.PersistedPathsAre | src/util/openSearchServerlessAPIUtil.ts:262-278 | The persisted paths are exactly the seven attribute paths. |
| Naming.PathsReachableIff | src/util/ssmAPIUtil.ts:11-72 | "Every persisted path is reachable" is the same as "no persisted path is unreachable". |
| Naming.PathInjective | src/util/ssmAPIUtil.ts:11-34 | Two attributes with the same path are the same attribute. |
| Naming.PathsDiffer | src/util/ssmAPIUtil.ts:11-34 | Different attributes of one deployment never share a path. |
| Naming.PathsDistinct | src/util/ssmAPIUtil.ts:11-34 | Distinct attributes give distinct paths. |
| Naming.DeletedAreCreated | src/constructs/bedrockKnowledgeBase/functions/crudKnowledgeBase.ts:132-152 | Delete removes the same seven attributes that Create writes, each once. |
| Naming.DeletedPathsArePersisted | src/constructs/bedrockKnowledgeBase/functions/crudKnowledgeBase.ts:132-152 | Delete's seven paths are distinct and are exactly the persisted paths. |
| Parameters.Put | src/util/ssmAPIUtil.ts:11-34 | A put succeeds exactly when the service answers; it then stores the value under the name. On failure it raises the put error and changes nothing. It never changes another name. |
| Parameters.Get | src/util/ssmAPIUtil.ts:36-56 | A get succeeds exactly when the name is reachable, present and non-empty, and returns the stored value. Otherwise it raises the retrieve error. |
| Parameters.Remove | src/util/ssmAPIUtil.ts:58-72 | A delete succeeds exactly when the name is reachable and present, and then removes only that name. A missing name gets the delete error. |
| Parameters.GetAfterPut | src/util/ssmAPIUtil.ts:11-56 | A put value reads back unchanged unless it is empty. |
| Parameters.OtherNamesUnaffected | src/util/ssmAPIUtil.ts:11-72 | A put or delete of one name leaves a get of any other name unchanged. |
| Parameters.GetAfterRemove | src/util/ssmAPIUtil.ts:36-72 | A deleted name can no longer be read. |
| Parameters.PutAll | src/util/openSearchServerlessAPIUtil.ts:262-278 | A sequence of awaited puts succeeds exactly when every name is reachable, and then leaves the writes applied in order. |
| Parameters.PutAllStopsAt | src/util/openSearchServerlessAPIUtil.ts:262-278 | The sequence fails at the first unreachable name, with every earlier write in place. |
| Parameters.PutAllFrame | src/util/openSearchServerlessAPIUtil.ts:262-278 | Whichever put fails, an untouched name keeps its entry and no key is lost. |
| Parameters.OverwriteKeeps | src/util/openSearchServerlessAPIUtil.ts:262-278 | Writes leave every untouched name alone. |
| Parameters.OverwriteHolds | src/util/openSearchServerlessAPIUtil.ts:262-278 | With distinct names, each written name holds its written value. |
| Parameters.OverwriteConcat | src/util/openSearchServerlessAPIUtil.ts:262-278 | Applying two batches of writes one after the other equals applying their concatenation. |
| Parameters.RemoveAllOk | src/constructs/bedrockKnowledgeBase/functions/crudKnowledgeBase.ts:132-152 | When every delete succeeds, each name was reachable and present, and exactly those names are gone. |
| Parameters.RemoveAllFrame | src/constructs/bedrockKnowledgeBase/functions/crudKnowledgeBase.ts:132-152 | Whichever delete fails, a name not in the list keeps its entry. |
| Parameters.RemoveAllSucceeds | src/constructs/bedrockKnowledgeBase/functions/crudKnowledgeBase.ts:132-152 | Deleting distinct present, reachable names removes exactly those names. |
| Parameters.RemoveAllStopsAt | src/constructs/bedrockKnowledgeBase/functions/crudKnowledgeBase.ts:132-152 | The deletes fail at the first absent or unreachable name, with exactly the earlier names removed. |
| Parameters.ParameterStore.constructor | src/util/ssmAPIUtil.ts:8-9 | The store starts with the given contents. |
| Parameters.ParameterStore.StoreParameter | src/util/ssmAPIUtil.ts:11-34 | The new store and the outcome are those of `Put`. |
| Parameters.ParameterStore.RetrieveParameter | src/util/ssmAPIUtil.ts:36-56 | The result is that of `Get`, and the store is unchanged. |
| Parameters.ParameterStore.DeleteParameter | src/util/ssmAPIUtil.ts:58-72 | The new store and the outcome are those of `Remove`. |
| OpenSearchServerless.Principals | src/util/openSearchServerlessAPIUtil.ts:42-47 | The principals are the parsed ARNs in order, then the knowledge-base role, then the custom-resource role. |
| OpenSearchServerless.CreateAccessPolicy | src/util/openSearchServerlessAPIUtil.ts:32-95 | Unparsable ARNs fail with a JSON error before any request. Otherwise exactly one "data" policy request is sent, and a rejection raises "Failed to create AccessPolicy". |
| OpenSearchServerless.CreateNetworkSecurityPolicy | src/util/openSearchServerlessAPIUtil.ts:125-161 | One "network" policy request names the collection and allows public access. A rejection raises its error. |
| OpenSearchServerless.CreateEncryptionSecurityPolicy | src/util/openSearchServerlessAPIUtil.ts:168-197 | One "encryption" policy request covers the collection with a provider-owned key. A rejection raises its error. |
| OpenSearchServerless.DeleteAccessPolicy | src/util/openSearchServerlessAPIUtil.ts:102-118 | Exactly one deletion of the "data" policy is sent, and it returns normally whatever the answer. |
| OpenSearchServerless.DeleteSecurityPolicy | src/util/openSearchServerlessAPIUtil.ts:205-223 | Exactly one deletion of the policy of the given type is sent, and it returns normally whatever the answer. |
| OpenSearchServerless.AwaitActive | src/util/openSearchServerlessAPIUtil.ts:245-287 | The poll issues at most thirty queries, none from the thirtieth attempt on, and succeeds only with an ACTIVE collection. |
| OpenSearchServerless.AwaitReturnsFirstActive | src/util/openSearchServerlessAPIUtil.ts:248-280 | The poll returns the first ACTIVE answer, after exactly that many queries. |
| OpenSearchServerless.AwaitTimesOut | src/util/openSearchServerlessAPIUtil.ts:248-287 | After thirty pending answers the poll fails with the timeout error, having sent thirty queries. |
| OpenSearchServerless.AwaitPropagatesQueryFailure | src/util/openSearchServerlessAPIUtil.ts:250-254 | A failing status query ends the wait at once with that failure. |
| OpenSearchServerless.AwaitSuccessIsFirstActive | src/util/openSearchServerlessAPIUtil.ts:248-285 | A successful wait saw ACTIVE at its last query and only pending answers before it. |
| OpenSearchServerless.Polled | src/util/openSearchServerlessAPIUtil.ts:250-254 | Each status query asks for exactly the new collection's id. |
| OpenSearchServerless.CollectionStored | src/util/openSearchServerlessAPIUtil.ts:262-278 | The four collection puts succeed exactly when their paths are reachable, then hold the collection's id, ARN, name and endpoint. Other keys keep their entries either way. |
| OpenSearchServerless.CollectionCreation | src/util/openSearchServerlessAPIUtil.ts:230-295 | It sends one create request, then only status polls of the returned id, one per poll attempt. It succeeds exactly when the create answered and the poll saw ACTIVE, and returns that collection. Failures leave the store as the puts left it, with no key lost and none changed outside the four collection paths. |
| OpenSearchServerless.CollectionPollsUntilActive | src/util/openSearchServerlessAPIUtil.ts:248-280 | When the answer at attempt k is the first ACTIVE one, the trace is the create request and k+1 status queries, and a success returns that collection. |
| OpenSearchServerless.CollectionTimesOut | src/util/openSearchServerlessAPIUtil.ts:248-287 | Thirty pending answers: the trace is the create request and thirty status queries, then the timeout error with the store untouched. |
| OpenSearchServerless.CreateCollection | src/util/openSearchServerlessAPIUtil.ts:230-295 | The loop's result, store and requests are those of `CollectionCreation`. |
| OpenSearchServerless.PersistCollection | src/util/openSearchServerlessAPIUtil.ts:262-278 | The four awaited puts leave the store and outcome of `PutAll` over the collection's writes. |
| OpenSearchServerless.DeleteCollection | src/util/openSearchServerlessAPIUtil.ts:302-322 | A failed id read propagates before any request. Otherwise one deletion by the stored id is sent, and a rejection raises the delete error. |
| OpenSearchServerless.CreateIndex | src/util/openSearchServerlessAPIUtil.ts:330-379 | One index request on the given host is sent: the index is named after the resource, with a `<prefix>-vector` field of dimension 1024. It returns normally whatever the provider answers to the index request. |
| OpenSearchServerless.UpdateCollection | src/util/openSearchServerlessAPIUtil.ts:386-413 | It succeeds exactly when all four reads succeed, and returns the four stored values. Otherwise it raises "Failed to update Collection". |
| BedrockKnowledgeBase.KnowledgeBaseCreation | src/util/bedrockKnowledgeBaseAPIUtil.ts:23-89 | It sends exactly one create request bound to the collection ARN. It succeeds exactly when the answer carries a non-empty id and ARN and both puts succeed, and returns them. Otherwise it raises the knowledge-base error, and only the two puts may have written. |
| BedrockKnowledgeBase.CreateKnowledgeBase | src/util/bedrockKnowledgeBaseAPIUtil.ts:23-89 | The result, store and requests are those of `KnowledgeBaseCreation`. |
| BedrockKnowledgeBase.DataSourceRequest | src/util/bedrockKnowledgeBaseAPIUtil.ts:98-120 | The data-source request names the given knowledge base and the bucket. |
| BedrockKnowledgeBase.DataSourceCreation | src/util/bedrockKnowledgeBaseAPIUtil.ts:98-137 | It sends exactly one create request. It succeeds exactly when the answer has a non-empty id and the put succeeds, and returns that id. Otherwise it raises the data-source error. |
| BedrockKnowledgeBase.CreateDataSource | src/util/bedrockKnowledgeBaseAPIUtil.ts:98-137 | The result, store and requests are those of `DataSourceCreation`. |
| BedrockKnowledgeBase.SyncKnowledgeBase | src/util/bedrockKnowledgeBaseAPIUtil.ts:139-157 | Exactly one ingestion start for the pair is sent. It succeeds exactly when that start is accepted, and otherwise raises the sync error. |
| BedrockKnowledgeBase.UpdateKnowledgeBase | src/util/bedrockKnowledgeBaseAPIUtil.ts:164-185 | It succeeds exactly when all three reads succeed, and returns the stored values. Otherwise it re-throws the retrieve error of the first read that fails (id, ARN, data source in that order). |
| BedrockKnowledgeBase.DeleteKnowledgeBase | src/util/bedrockKnowledgeBaseAPIUtil.ts:192-209 | A failed id read propagates before any request. Otherwise one deletion by the stored id is sent, and a rejection raises the delete error. |
| KnowledgeBaseLifecycle.PolicyCreation | src/constructs/bedrockKnowledgeBase/functions/crudKnowledgeBase.ts:37-52 | The access, network and encryption policies are attempted in order, stopping at the first failure. |
| KnowledgeBaseLifecycle.Provisioning | src/constructs/bedrockKnowledgeBase/functions/crudKnowledgeBase.ts:57-75 | The index, knowledge-base and data-source steps send two or three requests. |
| KnowledgeBaseLifecycle.ProvisioningSent | src/constructs/bedrockKnowledgeBase/functions/crudKnowledgeBase.ts:57-75 | The index goes to the collection's endpoint and the knowledge base is bound to its ARN. The data source follows only after a successful knowledge-base step, bound to its id. |
| KnowledgeBaseLifecycle.ProvisioningOutcome | src/constructs/bedrockKnowledgeBase/functions/crudKnowledgeBase.ts:62-85 | The last steps end with the knowledge-base error, the data-source error, or the reported data, according to which step fails. |
| KnowledgeBaseLifecycle.ProvisioningFrame | src/constructs/bedrockKnowledgeBase/functions/crudKnowledgeBase.ts:57-75 | The last steps lose no key and change only their three paths. |
| KnowledgeBaseLifecycle.Handling | src/constructs/bedrockKnowledgeBase/functions/crudKnowledgeBase.ts:33-162 | For each request type it runs that branch, then wraps the result in the response envelope. A failure propagates with no response. |
| KnowledgeBaseLifecycle.Handler | src/constructs/bedrockKnowledgeBase/functions/crudKnowledgeBase.ts:27-166 | The handler's response, store and requests are those of `Handling`. |
| KnowledgeBaseLifecycle.CreateResources | src/constructs/bedrockKnowledgeBase/functions/crudKnowledgeBase.ts:34-86 | The Create branch's result, store and requests are those of `Creation`. |
| KnowledgeBaseLifecycle.Provision | src/constructs/bedrockKnowledgeBase/functions/crudKnowledgeBase.ts:57-75 | The last three Create steps do what `Provisioning` says. |
| KnowledgeBaseLifecycle.DeleteResources | src/constructs/bedrockKnowledgeBase/functions/crudKnowledgeBase.ts:108-155 | The Delete branch's result, store and requests are those of `Deletion`. |
| KnowledgeBaseLifecycle.RemoveParameters | src/constructs/bedrockKnowledgeBase/functions/crudKnowledgeBase.ts:132-152 | The seven awaited parameter deletions do what `RemoveAll` says. |
| KnowledgeBaseLifecycle.RemoveLastThree | src/constructs/bedrockKnowledgeBase/functions/crudKnowledgeBase.ts:144-152 | The last three deletions do what `RemoveAll` says of them. |
| KnowledgeBaseLifecycle.RemoveNext | src/constructs/bedrockKnowledgeBase/functions/crudKnowledgeBase.ts:132-134 | After one deletion, the remaining sequence behaves as `RemoveAll` of the rest, or has stopped at this failure. |
| LifecycleProperties.CreatePhases | src/constructs/bedrockKnowledgeBase/functions/crudKnowledgeBase.ts:34-86 | The first failing phase of Create decides its result, store and requests. |
| LifecycleProperties.CreateReportsWhatItCreated | src/constructs/bedrockKnowledgeBase/functions/crudKnowledgeBase.ts:76-85 | A successful Create reports the collection first seen ACTIVE and the identifiers the later responses carried, each non-empty where the code tests it. |
| LifecycleProperties.CreateOrder | src/constructs/bedrockKnowledgeBase/functions/crudKnowledgeBase.ts:37-75 | The requests go in order: the three policies, the collection, its polls, the index, the knowledge base, the data source. |
| LifecycleProperties.CreateOrderHead | src/constructs/bedrockKnowledgeBase/functions/crudKnowledgeBase.ts:37-56 | The first four requests of a successful Create are the three policies, then the collection. |
| LifecycleProperties.CreateOrderTail | src/constructs/bedrockKnowledgeBase/functions/crudKnowledgeBase.ts:53-75 | After them come status polls of the new collection, then the index, the knowledge base and the data source. |
| LifecycleProperties.ProvisionedSent | src/constructs/bedrockKnowledgeBase/functions/crudKnowledgeBase.ts:57-75 | A successful run of the last three steps sent the index, the knowledge base and the data source, in that order. |
| LifecycleProperties.PoliciesInOrder | src/constructs/bedrockKnowledgeBase/functions/crudKnowledgeBase.ts:37-52 | A successful policy step sends the access, network and encryption requests, in order. |
| LifecycleProperties.CreateDataflow | src/constructs/bedrockKnowledgeBase/functions/crudKnowledgeBase.ts:57-75 | Each step takes its inputs from earlier ones: index from endpoint, knowledge base from collection ARN, data source from knowledge-base id. |
| LifecycleProperties.CreateStores | src/constructs/bedrockKnowledgeBase/functions/crudKnowledgeBase.ts:53-75 | A successful Create leaves the old store with exactly its seven identifiers written over it. |
| LifecycleProperties.ProvisionedTouchesOnlyPersistedPaths | src/util/openSearchServerlessAPIUtil.ts:262-278 | The seven writes add exactly the persisted paths and leave every other key alone. |
| LifecycleProperties.ProvisionedHolds | src/util/bedrockKnowledgeBaseAPIUtil.ts:23-137 | After the seven writes, each persisted path holds its identifier. |
| LifecycleProperties.ProvisionedLessPersisted | src/util/openSearchServerlessAPIUtil.ts:262-278 | The provisioned store without the persisted paths is the old store without them. |
| LifecycleProperties.CreateWritesExactlyPersistedPaths | src/constructs/bedrockKnowledgeBase/functions/crudKnowledgeBase.ts:53-75 | A successful Create writes every persisted path and no other key. |
| LifecycleProperties.PolicyFailureStopsCreate | src/constructs/bedrockKnowledgeBase/functions/crudKnowledgeBase.ts:37-52 | A failed policy step ends Create before the collection. Only policy requests were sent and the store is untouched. |
| LifecycleProperties.CollectionFailureStopsCreate | src/constructs/bedrockKnowledgeBase/functions/crudKnowledgeBase.ts:53-56 | A failed collection step ends Create before the index. Only the four collection paths may have been written. |
| LifecycleProperties.KnowledgeBaseFailureStopsCreate | src/constructs/bedrockKnowledgeBase/functions/crudKnowledgeBase.ts:62-69 | A failed knowledge-base step ends Create with its error, and its request is the last one sent. The collection's paths stay in place. |
| LifecycleProperties.DataSourceFailureEndsCreate | src/constructs/bedrockKnowledgeBase/functions/crudKnowledgeBase.ts:70-75 | A failed data-source step ends Create with its error, after its request. |
| LifecycleProperties.CreateKeepsKeys | src/constructs/bedrockKnowledgeBase/functions/crudKnowledgeBase.ts:34-86 | Whatever happens, Create loses no key. |
| LifecycleProperties.CreateTouchesOnlyPersistedPaths | src/constructs/bedrockKnowledgeBase/functions/crudKnowledgeBase.ts:34-86 | Whatever happens, Create changes no key outside the persisted paths. |
| LifecycleProperties.CreateReachedEveryPath | src/constructs/bedrockKnowledgeBase/functions/crudKnowledgeBase.ts:53-75 | A successful Create had every persisted path reachable. |
| LifecycleProperties.ReadbackProvisioned | src/constructs/bedrockKnowledgeBase/functions/crudKnowledgeBase.ts:87-106 | Reading back a deployment's non-empty, reachable identifiers returns them. |
| LifecycleProperties.UpdateAfterCreate | src/constructs/bedrockKnowledgeBase/functions/crudKnowledgeBase.ts:76-106 | Update after a successful Create reports exactly what Create reported, under any store failures of its own that spare the persisted paths, provided the collection's identifiers are non-empty. |
| LifecycleProperties.UpdateAfterCreateSameStore | src/constructs/bedrockKnowledgeBase/functions/crudKnowledgeBase.ts:76-106 | In particular, it does so when it meets the same store failures as the Create. |
| LifecycleProperties.CreateSendsNoDeletion | src/constructs/bedrockKnowledgeBase/functions/crudKnowledgeBase.ts:34-86 | Create never sends a deletion: an earlier step is never undone. |
| TeardownProperties.PolicyDeletionsAre | src/constructs/bedrockKnowledgeBase/functions/crudKnowledgeBase.ts:110-123 | Delete always starts with the three policy deletions. |
| TeardownProperties.DeleteOrder | src/constructs/bedrockKnowledgeBase/functions/crudKnowledgeBase.ts:110-131 | Next comes the collection's deletion by its stored id, then the knowledge base's by its stored id, each only when the step before went through. |
| TeardownProperties.DeleteIgnoresPolicyAnswers | src/util/openSearchServerlessAPIUtil.ts:102-223 | The answers to the policy deletions change nothing. |
| TeardownProperties.DeleteStopsAtCollection | src/constructs/bedrockKnowledgeBase/functions/crudKnowledgeBase.ts:124-127 | A failed collection step ends Delete with the store untouched and no knowledge-base deletion. |
| TeardownProperties.DeleteStopsAtKnowledgeBase | src/constructs/bedrockKnowledgeBase/functions/crudKnowledgeBase.ts:128-131 | A failed knowledge-base step ends Delete with no parameter removed. |
| TeardownProperties.DeleteRemovesParameters | src/constructs/bedrockKnowledgeBase/functions/crudKnowledgeBase.ts:132-152 | Once both resource deletions went through, Delete's outcome and store are those of the seven parameter deletions. |
| TeardownProperties.DeleteSucceedsIff | src/constructs/bedrockKnowledgeBase/functions/crudKnowledgeBase.ts:108-155 | Delete succeeds exactly when both resource deletions go through and all seven paths are present and their deletes go through. It then removes exactly those paths. |
| TeardownProperties.DeleteStopsAtParameter | src/constructs/bedrockKnowledgeBase/functions/crudKnowledgeBase.ts:132-152 | The deletions stop at the first absent path or failing delete, with every earlier one removed. |
| TeardownProperties.DeleteFailsAtCollectionIdParameter | src/constructs/bedrockKnowledgeBase/functions/crudKnowledgeBase.ts:124-140 | When the collection id reads back and both resources are deleted, but the delete of the id's own parameter fails, Delete fails with that error after removing the collection's ARN and endpoint. |
| TeardownProperties.DeleteTouchesOnlyPersistedPaths | src/constructs/bedrockKnowledgeBase/functions/crudKnowledgeBase.ts:108-155 | Whatever happens, Delete changes no key outside the persisted paths. |
| TeardownProperties.DeleteProvisioned | src/constructs/bedrockKnowledgeBase/functions/crudKnowledgeBase.ts:108-155 | On a provisioned store, Delete deletes the resources by their identifiers and removes exactly the persisted paths. |
| TeardownProperties.CreateThenDelete | src/constructs/bedrockKnowledgeBase/functions/crudKnowledgeBase.ts:34-155 | Delete after Create removes what Create persisted and deletes what it created, by the reported identifiers. The store ends as before Create, less stale entries under the persisted paths. This holds provided the Delete's collection and knowledge-base deletions are accepted, Create's collectionId is non-empty, and the Delete's read and delete failures both spare the persisted paths. |
| TeardownProperties.DeleteTwiceFails | src/constructs/bedrockKnowledgeBase/functions/crudKnowledgeBase.ts:124-127 | A second Delete fails at the collection step, after only the policy deletions, and leaves the store as it was. |
| HandlerProperties.HandlerEchoesRequest | src/constructs/bedrockKnowledgeBase/functions/crudKnowledgeBase.ts:159-162 | Any returned response is SUCCESS with the branch's reason. It echoes the request's identifiers and names the log group as the physical id. |
| HandlerProperties.HandlerPropagatesFailure | src/constructs/bedrockKnowledgeBase/functions/crudKnowledgeBase.ts:33-157 | A failing branch fails the invocation with that branch's error. |
| HandlerProperties.UpdateChangesNothing | src/constructs/bedrockKnowledgeBase/functions/crudKnowledgeBase.ts:87-106 | An Update sends nothing and writes nothing. |
| HandlerProperties.HandlerUpdateAfterCreate | src/constructs/bedrockKnowledgeBase/functions/crudKnowledgeBase.ts:76-106 | Through the handler, an Update after Create, with its own provider answers whose store failures spare the persisted paths, returns Create's data, provided the collection's four identifiers (id, ARN, name, endpoint) reported by Create are non-empty. |
| HandlerProperties.HandlerDeleteAfterCreate | src/constructs/bedrockKnowledgeBase/functions/crudKnowledgeBase.ts:108-155 | Through the handler, a Delete after Create succeeds and removes every persisted path, provided the Delete's collection and knowledge-base deletions are accepted, Create's collectionId is non-empty, and the Delete's read and delete failures both spare the persisted paths. |
| EmailIntake.IdStart | src/constructs/knowlegeBaseEmailQuery/functions/writeToDynamo.py:30 | The id starts after the last `/` of the key, or at its beginning when there is none. |
| EmailIntake.EmailId | src/constructs/knowlegeBaseEmailQuery/functions/writeToDynamo.py:30 | The id is a `/`-free suffix of the key, preceded by `/` when shorter than the key. |
| EmailIntake.EmailIdUnique | src/constructs/knowlegeBaseEmailQuery/functions/writeToDynamo.py:30 | Only one suffix has those properties: the id is the text after the last `/`. |
| EmailIntake.EmailIdOfPath | src/constructs/knowlegeBaseEmailQuery/functions/writeToDynamo.py:30 | A key under any prefix yields its last name, and a key without `/` is its own id. |
| EmailIntake.IntakeHandler | src/constructs/knowlegeBaseEmailQuery/functions/writeToDynamo.py:16-51 | It reads the object the event names; a failed read propagates. It then writes one item keyed by the email id, with the clock's time and an empty disposition. It succeeds unless the write fails other than by a client error, and returns the id, time and content. |
| SupportReview.LastPlainText | src/constructs/knowlegeBaseEmailQuery/functions/sendEmailToSupport.py:20-24 | It finds nothing exactly when no part is text/plain. |
| SupportReview.LastPlainTextIsLast | src/constructs/knowlegeBaseEmailQuery/functions/sendEmailToSupport.py:20-24 | What it selects is the payload of a text/plain part that no other text/plain part follows. |
| SupportReview.LastPlainTextAt | src/constructs/knowlegeBaseEmailQuery/functions/sendEmailToSupport.py:20-24 | Conversely, the last text/plain part's payload is what it selects. |
| SupportReview.SelectBody | src/constructs/knowlegeBaseEmailQuery/functions/sendEmailToSupport.py:19-26 | The loop selects `BodyOf`: the last text/plain part of a multipart message, an unbound error when there is none, or the payload of a single-part message. |
| SupportReview.ComposeReviewBody | src/constructs/knowlegeBaseEmailQuery/functions/sendEmailToSupport.py:29-53 | The successive concatenations yield `ReviewBody` with the review wording. |
| SupportReview.ReviewLayout | src/constructs/knowlegeBaseEmailQuery/functions/sendEmailToSupport.py:29-53 | The text is the opening, the original-message heading, the header lines and the body line, each at its offset. |
| SupportReview.ReviewEndsWithBody | src/constructs/knowlegeBaseEmailQuery/functions/sendEmailToSupport.py:53 | The text ends with the original body after a blank line, whatever the response. |
| SupportReview.OpeningLayout | src/constructs/knowlegeBaseEmailQuery/functions/sendEmailToSupport.py:29-46 | The banner comes first. Without a response (None or empty) the no-response heading follows. With one: the response heading, the response on the next line, the sign-off and the note. |
| SupportReview.ReviewStartsWithBanner | src/constructs/knowlegeBaseEmailQuery/functions/sendEmailToSupport.py:29 | The text starts with the banner, whatever the response. |
| SupportReview.HeadingsDiffer | src/constructs/knowlegeBaseEmailQuery/functions/sendEmailToSupport.py:33-37 | The no-response heading does not start with the response heading, so the two cases are told apart. |
| SupportReview.HeaderLinesLayout | src/constructs/knowlegeBaseEmailQuery/functions/sendEmailToSupport.py:49-52 | The header lines come in the order From, Sent (the Date header), To, Subject, each a label and the header's value, `None` when absent. |
| SupportReview.ReviewHandler | src/constructs/knowlegeBaseEmailQuery/functions/sendEmailToSupport.py:9-86 | With no body, it fails before any request. Otherwise it sends the review to the review address with the subject `Email review - <Subject>`, then updates the disposition to "Email Review" with the clock's time. When the send throws it fails with the SendEmail fault; when the disposition update throws it fails with the UpdateItem fault. It succeeds exactly when both calls do, and returns the send status and the review text. |

## Left out

- Waits and pauses: the 30-second pause between status polls and the 60-second wait before the knowledge-base request change no observable result.
- Random client tokens on the create requests.
- JSON parsing and serialising: parsing the access-policy ARN list is an input that is either absent (unparsable) or a list of strings, and the logged JSON.
- Logging and `console.log`/`print`.
- SDK clients and their transport are replaced by the oracle `Script`. An answer attribute that the SDK leaves undefined is modelled as the empty string, which the code's truthiness tests treat alike.
- MIME parsing and payload decoding: the parsed `Message` (parts in walk order, decoded payloads, headers) is an input.
- Case-insensitive header lookup: headers are a map keyed by exact name.
- The clock: `datetime.now()` is a parameter (`now`).
- A non-string `response` value in the review event: it is modelled as None or a string.
- The ingestion-sync and rule-set activation functions outside the core (`src/functions/syncKnowledgeBase.ts`, `sync_knowledge_base.py`, `activateAndDeactivateRuleSet.ts`).
- The construct (infrastructure) definitions.
- The temporary Lambda functions under `temp_lambdas/`.
- Non-null assertions (`!`) assert nothing at run time, so a missing value flows on as `undefined`: into a put's `Value`, or into a `Data` field that serialisation then drops. The model uses the empty string as its stand-in for `undefined`.
- SupportReview.ReviewLayout: it is stated over any `Wording`, not the concrete strings, to keep long string literals out of the proofs. `ComposeReviewBody` ties the two together.
- SupportReview.ReviewHandler: an exception other than the two service calls (for example a missing event key) is not modelled.
- EmailIntake.IntakeHandler: a failure of `get_object` and a failure of decoding the content are modelled as one read fault.
- KnowledgeBaseLifecycle.RemoveParameters: it takes the seven paths as a parameter, and `DeleteResources` passes Delete's paths.
