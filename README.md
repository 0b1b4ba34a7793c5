# gocb control layer in Dafny

This project models the control layer of the gocb Couchbase Go SDK. It covers five parts:

- **Design-document management** (`ViewIndexes`, bucket_viewindexes.go). Names are mapped to their production or development form. Get, list, upsert and drop work on an HTTP response. Publish runs its get, upsert and drop against a design-document store that it changes.
- **The per-connection client** (`Client`, client.go). `StdClient` is a class with the two fields `agent` and `bootstrapErr`. `Connect` and `OpenCollection` write them. The provider getters and `Close` read them.
- **Query option validation and assembly** (`QueryOptions`, queryoptions.go). `ToMap` builds the parameter map with the same successive insertions and loops as the Go code. Its result is tied to a specification function (`Assemble`), and lemmas state what the map holds.
- **Bucket and scope state blocks** (`Buckets`, bucket.go; `Scopes`, scope.go; `StateBlocks`). These are pure record constructors and accessors.
- **Helpers** (`GoStrings`, `Wrappers`). `GoStrings` holds the Go standard-library string functions the code relies on: `strings.HasPrefix`, `strings.TrimPrefix`, `strings.TrimLeft` and `strconv.Itoa`. `Wrappers` holds `Option`, `Result` and `Outcome`.

Foreign calls are inputs, not code:

- the HTTP round trip (`HttpResponse`);
- parsing of the connection string (`ParsedConnStr`);
- agent creation (`created`);
- the collection-id lookup race (`WaitOutcome`);
- `uuid.New()` (`freshId`).

The model keeps four behaviours of the code that differ from what its documentation suggests:

- **Production names are trimmed by character set.** The name goes through `strings.TrimLeft(name, "dev_")`, which strips any leading run of the characters d, e, v and _. So "dev_dave" is stored as "ave" (`ViewIndexes.DevDaveBecomesAve`).
- **The listing filter never sees a name.** `GetAllDesignDocuments` filters on the decoded document's `Name`, and the JSON tag "-" means that field is never decoded. The production namespace therefore lists every row, and the development namespace lists none.
- **openCollection reports a timeout based on the wrong error.** It reports `timeoutError` only when the start error of `GetCollectionID` was `context.DeadlineExceeded`. It does not look at `ctx.Err()`, so a deadline that fires later is reported as the context error.
- **Publish can drop a different document from the one it read.** It drops the development copy under the name that the get returned. For a name such as "dev_dev_x", that drop targets "dev_x", not the copy it read (`ViewIndexes.DropMissesDoubledPrefix`).

## Model

| member | source | states |
|---|---|---|
| ViewIndexes.DdocName | bucket_viewindexes.go:56-68 | A production name never starts with "dev_", and a name without "dev_" is unchanged. A development name always starts with "dev_": the name is unchanged when it has the prefix, and "dev_" is prepended when it does not. |
| ViewIndexes.ProductionTrimsCharacterSet | bucket_viewindexes.go:57-60 | For a "dev_" name, the production name is a proper suffix at least four characters shorter. Every character removed is one of d, e, v, _, and the result does not start with one of them. |
| ViewIndexes.DevDaveBecomesAve | bucket_viewindexes.go:58-59 | The production name of "dev_dave" is "ave". |
| ViewIndexes.DdocNameIdempotent | bucket_viewindexes.go:56-68 | Applying the name mapping twice in one namespace equals applying it once. |
| ViewIndexes.LogicalNameRoundTrip | bucket_viewindexes.go:125 | For a name without "dev_", removing one "dev_" from its stored form gives the name back, in both namespaces. |
| ViewIndexes.GetRequest | bucket_viewindexes.go:87-94 | The get is a GET of the design document under its stored name in the namespace, with no body. |
| ViewIndexes.UpsertRequest | bucket_viewindexes.go:229-242 | The upsert is a PUT under the stored name in the namespace. Its body is the document's views alone, because the body is serialised before the rename and the name is not part of the JSON. |
| ViewIndexes.DropRequest | bucket_viewindexes.go:287-294 | The drop is a DELETE of the design document under its stored name in the namespace, with no body. |
| ViewIndexes.GetDesignDocument | bucket_viewindexes.go:87-126 | It succeeds exactly on a 200 whose body decodes, returning the decoded views and the stored name minus one "dev_". A transport error is passed through. Any other status is an index error carrying status and body, marked missing exactly on 404. |
| ViewIndexes.GetOfMissingIsIndexMissing | bucket_viewindexes.go:101-116 | A get of a name the store does not hold reports the index missing. |
| ViewIndexes.GetAfterUpsert | bucket_viewindexes.go:229-261 | After an upsert the store accepts, a get of the same name in the same namespace returns the views that were stored. For a name without "dev_" it returns the same document. |
| ViewIndexes.UpsertDesignDocument | bucket_viewindexes.go:244-261 | It passes exactly on 201. Any other status is an index error with status and body, never marked missing. |
| ViewIndexes.DropDesignDocument | bucket_viewindexes.go:296-317 | It passes exactly on 200. Any other status is an index error, marked missing exactly on 404. |
| ViewIndexes.ListingNameOfStoredId | bucket_viewindexes.go:197 | The name listed for the identifier "_design/<stored>" is the stored name with at most one "dev_" removed. |
| ViewIndexes.AllListed | bucket_viewindexes.go:193-200 | There is one document per listing row, in row order, each named from its identifier and carrying its views. |
| ViewIndexes.GetAllDesignDocuments | bucket_viewindexes.go:159-202 | A transport error is passed through. A non-200 status is an error that is never marked missing, and an undecodable body is a decode error. Otherwise production lists every row in order (`AllListed`) and development lists none. |
| ViewIndexes.DesignDocServer.Handle | bucket_viewindexes.go:96-99 | The response and the new contents are those of the store's rule for the request, and the request is appended to the log. |
| ViewIndexes.PublishedNameIsNotDropTarget | bucket_viewindexes.go:356-365 | The production document publish writes is never the development document it drops. |
| ViewIndexes.DropTargetIsDevCopy | bucket_viewindexes.go:343-365 | The drop targets the development copy that was read exactly when the fetched name does not itself start with "dev_". |
| ViewIndexes.DropMissesDoubledPrefix | bucket_viewindexes.go:343-365 | "dev_dev_x" is read as "dev_dev_x", but the drop is sent for "dev_x". |
| ViewIndexes.PublishDesignDocument | bucket_viewindexes.go:343-370 | A failing get is returned and nothing is written. A missing development copy gives the "does not exist" error marked missing, with no write. A failing upsert is wrapped with "failed to create " and nothing is dropped. Once the upsert succeeds, the production copy holds the development views. A failing drop reports `publishDropFail` and leaves the production copy. Success removes exactly the drop target. The log records each request in order. |
| ViewIndexes.FetchDevCopy | bucket_viewindexes.go:343-345 | The development get of publish: the store is unchanged and the GET is logged. It fails with the fault, reports a missing copy as missing, or returns the copy under its fetched name. |
| ViewIndexes.PublishFetched | bucket_viewindexes.go:356-370 | The upsert and drop of publish for a fetched document, with the same outcomes and store contents. |
| Client.StdClient.constructor | client.go:31-37 | A new client has neither an agent nor a bootstrap error. |
| Client.AuthPairingError | client.go:68-85 | Exactly the mismatched pairings are refused, with the mixed-authentication configuration error: client certificates without a `CertAuthenticator`, or a `CertAuthenticator` without certificates. |
| Client.ConnectOutcome | client.go:62-101 | A parse error comes first, then the pairing error, then the agent-creation error after enhancement. Success happens exactly when all three checks pass, and yields the created agent. |
| Client.StdClient.Connect | client.go:44-102 | A failure stores the returned error in `bootstrapErr` and keeps the agent. Success stores the agent and keeps `bootstrapErr`. After a failure every provider getter reports that error. After a success with no earlier error, the KV and HTTP getters return the new agent. |
| Client.StdClient.GetKvProvider | client.go:104-113 | A stored bootstrap error wins. With no error, a missing agent is "not yet connected". It succeeds exactly when there is an agent and no error, and returns that agent. |
| Client.StdClient.GetHTTPProvider | client.go:115-124 | It has the same precedence and results as the KV provider getter. |
| Client.StdClient.GetDiagnosticsProvider | client.go:126-132 | Only the bootstrap error is checked. Otherwise the agent is returned as it is, even when absent. |
| Client.CollectionLookupError | client.go:166-180 | A completed lookup, or a context that fired but could not cancel, yields the callback's error. A cancelled lookup yields the timeout error exactly when the start error was the deadline, and the context's error otherwise. |
| Client.StdClient.OpenCollection | client.go:134-181 | The agent never changes, and the default collection changes nothing. Otherwise a missing agent stores "not yet connected", and an agent without collections stores "not supported". Otherwise the lookup's final error overwrites `bootstrapErr`. |
| Client.StdClient.Close | client.go:183-188 | With no agent it reports "not yet connected". Otherwise it returns what the agent's close returned. |
| Client.PairingCheckedBeforeAgentCreation | client.go:68-94 | Once the connection string parses, a mismatched pairing fails the same way whatever agent creation would have produced. |
| QueryOptions.NamedKey | queryoptions.go:106-108 | A named-parameter key always starts with "$". "$" is added exactly when it is missing. |
| QueryOptions.ConsistencyName | queryoptions.go:71-81 | Only the modes 1, 2 and 3 have a wire name. |
| QueryOptions.Violation | queryoptions.go:67-98 | The options are accepted exactly when no validation rule fails. A mode together with `ConsistentWith` gives the exclusivity message. Otherwise an unknown mode gives "Unexpected consistency option". Only when both consistency rules pass do positional plus named parameters give the parameter exclusivity message. |
| QueryOptions.ToMap | queryoptions.go:60-138 | It fails exactly when a validation rule fails, with that rule's message. Otherwise the map is the assembled parameter map for some insertion order of the named parameters. |
| QueryOptions.PutLaterParams | queryoptions.go:104-135 | After the named parameters come the three caps, then the custom entries, then the client context id. |
| QueryOptions.PutNamedParameters | queryoptions.go:104-111 | Whatever the iteration order, every named parameter lands under its "$" key, and every value inserted comes from a parameter with that key. |
| QueryOptions.PutCap | queryoptions.go:113-123 | A cap is written, as its decimal string, only when it is non-zero. |
| QueryOptions.PutCustom | queryoptions.go:125-129 | Every custom entry overrides what is already in the map. |
| QueryOptions.NotNamedKey | queryoptions.go:104-111 | A key not starting with "$" is never written by the named-parameter loop. |
| QueryOptions.AssembleOutsideLaterKeys | queryoptions.go:113-135 | A key that is not a cap, a custom key or "client_context_id" holds what the earlier steps put there. |
| QueryOptions.StatementAlwaysSent | queryoptions.go:61-62 | "statement" is always present, holding the statement unless a custom entry replaces it. |
| QueryOptions.ScanConsistencySent | queryoptions.go:71-86 | The modes 1, 2 and 3 are sent as "not_bounded", "request_plus" and "statement_plus". `ConsistentWith` is sent as "at_plus" with its scan vectors. With neither, no scan consistency is sent. |
| QueryOptions.NamedParametersSent | queryoptions.go:104-111 | Each named parameter's "$" key is present. It holds that parameter's value unless another parameter shares the key or a custom entry replaces it. |
| QueryOptions.CapsSentWhenNonZero | queryoptions.go:113-123 | Each of "scan_cap", "pipeline_batch" and "pipeline_cap" is present exactly when its cap is non-zero, as its decimal string, unless a custom entry of that name replaces it. |
| QueryOptions.CapNotInBase | queryoptions.go:61-102 | None of the options set before the named parameters writes a cap key. |
| QueryOptions.CustomAndContextIdWin | queryoptions.go:125-135 | Every custom entry except "client_context_id" is present with its value. "client_context_id" is always present, equal to the given id when one was set and to the fresh uuid otherwise. |
| GoStrings.TrimLeft | bucket_viewindexes.go:59 | The result is a suffix, every removed character is in the cutset, and the result does not start with a cutset character. |
| GoStrings.TrimPrefix | bucket_viewindexes.go:125 | With the prefix present, prefix + result is the input. Otherwise the input is unchanged. |
| GoStrings.HasPrefixIsConcat | bucket_viewindexes.go:58 | A string has a prefix exactly when it is that prefix followed by the rest. |
| GoStrings.Itoa | queryoptions.go:114 | The decimal text is non-empty and starts with a digit exactly when the number is not negative. |
| GoStrings.ItoaRoundTrip | queryoptions.go:114 | The decimal string a cap is sent as reads back as the cap. |
| Scopes.NewScope | scope.go:8-14 | The scope name is the given one, and every other field equals the bucket's block. |
| Scopes.Name | scope.go:22-24 | The name is the block's scope name (and, by `Scopes.NewScopeNameAndBlock`, the name given to `newScope`). |
| Scopes.StateBlockOf | scope.go:32-34 | The scope's whole block is returned, scope name included. |
| Scopes.Clone | scope.go:16-19 | The copy has an equal state block. |
| Scopes.Collection | scope.go:28-30 | The collection is addressed by the given name within this scope's block. |
| Scopes.NewScopeNameAndBlock | scope.go:8-34 | `Name` returns the name given to `newScope`, and `stateBlock` returns the bucket's block with that name set. |
| Scopes.CloneIsIndistinguishable | scope.go:16-34 | A clone answers `Name`, `stateBlock` and `Collection` as the original does. |
| Buckets.NewBucket | bucket.go:13-33 | The bucket name is the given one. Mutation tokens are on exactly when not disabled. The eight timeouts, transcoder and serializer are the parent's, and the scope name is empty. |
| Buckets.Name | bucket.go:49-51 | The name is the block's bucket name (and, by `Buckets.NewBucketName`, the name the bucket was opened with). |
| Buckets.StateBlockOf | bucket.go:74-76 | The bucket's whole block is returned. |
| Buckets.NewBucketName | bucket.go:49-51 | `Name` of a new bucket is the name it was opened with. |
| Buckets.Clone | bucket.go:43-46 | The copy has an equal state block. |
| Buckets.Scope | bucket.go:53-57 | The scope has the given name, the bucket's name, its mutation-token choice and its settings. |
| Buckets.DefaultScope | bucket.go:59-61 | This is the scope named "_default". |
| Buckets.Collection | bucket.go:63-67 | The collection has the given name, in the scope with the given name, in this bucket, with its settings. |
| Buckets.DefaultCollection | bucket.go:69-72 | This is collection "_default" of scope "_default". |
| Buckets.ScopesOfNewBucketInheritCluster | bucket.go:13-72 | Every collection of a new bucket carries the bucket name, the scope name, the mutation-token choice and the parent's settings. |
| Buckets.ViewIndexes | bucket.go:78-90 | The provider's error is returned unchanged. Otherwise the manager is for this bucket's name and uses the provider. |
| Buckets.CollectionManagerOf | bucket.go:92-104 | The provider's error is returned unchanged. Otherwise the manager is for this bucket's name and uses the provider. |
| Buckets.ManagersNeedConnectedClient | bucket.go:78-104 | Both managers are built exactly when the client has an agent and no bootstrap error. With a bootstrap error, both fail with it. |

## Left out

- HTTP transport is not modelled: `DoHttpRequest`, `ioutil.ReadAll`, `Body.Close` and its debug log. Each round trip is the response it produced, and a failure to read the body is not a separate case.
- JSON is not modelled. Decoding is carried by the response as the decoded value or its absence. The `json.Marshal` failure in upsert is left out, because a design document of views always encodes.
- Contexts and per-call timeouts are not modelled: `context.WithTimeout`, `cancel`, and the `Context` fields of the option structs.
- The mutex in `connect` is left out because it is concurrency.
- In `openCollection`, the goroutine, channel and `select` race is replaced by the abstract `WaitOutcome`: which event came first, whether `op.Cancel()` succeeded, and the callback's error. When the lookup fails to start, `op` may be nil and `op.Cancel()` could panic; the model does not capture that panic.
- The `gocbcore` calls are inputs or opaque values: `CreateAgent`, `FromConnStr`, `HasCollectionsSupport`, `GetCollectionID` and `Agent.Close`. `maybeEnhanceKVErr` is the wrapper `EnhancedKvError`. The contents of `AgentConfig` and `coreAuthWrapper` are not modelled.
- Errors returned by the agent library (connection-string parsing, agent creation, the collection lookup, close) are inputs of type `ClientError`, with no constructor of their own, because their content plays no part in the code shown.
- ViewIndexes.GetAllDesignDocuments: the Go code slices `Meta.Id[8:]` and panics on a shorter identifier. The model requires such identifiers to be long enough, and only for the rows the code slices.
- ViewIndexes.PublishDesignDocument: a failed drop is modelled with the message "failed to drop development index: ". The `%v` text of the underlying error is not included.
- ViewIndexes.PublishDesignDocument: the views store (`DesignDocServer`) is a parameter. The manager's `httpClient` handle is not consulted.
- `View.hasReduce` is modelled as `ViewIndexes.View.HasReduce`. It has no contract beyond its definition.
- The bucket's `hash` and `cacheClient`, the client's `Hash` and `getCachedClient` are not modelled, because they depend on state-block code that is not part of this model. `ViewIndexes` and `CollectionManagerOf` therefore take the provider result as a parameter.
- `newCollection` is not part of this model. A collection is represented by the scope block and collection name it is built from.
- Buckets.Clone, Scopes.Clone: values have no identity, so the model does not capture that the clone is a distinct object.
- QueryOptions.ToMap:
  - `Timeout.String()` (Go's duration formatting) and `uuid.New()` are opaque values.
  - Parameter values, custom values and mutation states are opaque numbers.
  - The `Prepared` and `Serializer` fields play no part in `toMap` and are not modelled.
- QueryOptions.NamedParametersSent: when two named parameters map to the same "$" key, the one that wins depends on Go's map iteration order. The model only states that the stored value comes from one of them.
