/** bucket.go: a `Bucket` holds a state block built from the cluster's one,
    hands out scopes and collections by name, and builds the management
    objects on top of the client's HTTP provider. */
module Buckets {
  import opened Wrappers
  import opened StateBlocks
  import Scopes
  import Client
  import Views = ViewIndexes

  datatype BucketOptions = BucketOptions(disableMutationTokens: bool)

  datatype Bucket = Bucket(sb: StateBlock)

  /** `CollectionManager`: the HTTP surface of the agent and the bucket name. */
  datatype CollectionManager = CollectionManager(httpClient: Client.Agent, bucketName: string)

  /** The name of the default scope and of the default collection. */
  const DefaultName: string := "_default"

  /** `newBucket`: a fresh block with the bucket name and the mutation-token
      flag set, and the parent's timeouts, transcoder and serializer; the scope
      name is left empty. */
  function NewBucket(parent: StateBlock, bucketName: string, opts: BucketOptions): (b: Bucket)
    ensures b.sb.bucketName == bucketName
    ensures b.sb.useMutationTokens <==> !opts.disableMutationTokens
    ensures b.sb.scopeName == ""
    ensures InheritsSettings(b.sb, parent)
  {
    Bucket(StateBlock(
      bucketName := bucketName,
      scopeName := "",
      useMutationTokens := !opts.disableMutationTokens,
      queryTimeout := parent.queryTimeout,
      searchTimeout := parent.searchTimeout,
      analyticsTimeout := parent.analyticsTimeout,
      kvTimeout := parent.kvTimeout,
      viewTimeout := parent.viewTimeout,
      connectTimeout := parent.connectTimeout,
      duraTimeout := parent.duraTimeout,
      duraPollTimeout := parent.duraPollTimeout,
      transcoder := parent.transcoder,
      serializer := parent.serializer))
  }

  /** `Bucket.clone`: a copy with an equal state block. */
  function Clone(b: Bucket): (r: Bucket)
    ensures r.sb == b.sb
  {
    var copy := b;
    copy
  }

  /** `Bucket.Name`. */
  function Name(b: Bucket): (name: string)
    ensures name == b.sb.bucketName
  {
    b.sb.bucketName
  }

  /** `Bucket.Scope`: a scope of this bucket named `scopeName`. */
  function Scope(b: Bucket, scopeName: string): (s: Scopes.Scope)
    ensures Scopes.Name(s) == scopeName
    ensures s.sb.bucketName == Name(b)
    ensures s.sb.useMutationTokens == b.sb.useMutationTokens
    ensures InheritsSettings(s.sb, b.sb)
  {
    Scopes.NewScope(StateBlockOf(b), scopeName)
  }

  /** `Bucket.defaultScope`. */
  function DefaultScope(b: Bucket): (s: Scopes.Scope)
    ensures Scopes.Name(s) == DefaultName
    ensures s == Scope(b, DefaultName)
  {
    Scope(b, "_default")
  }

  /** `Bucket.Collection`: the named collection of the named scope of this
      bucket. */
  function Collection(b: Bucket, scopeName: string, collectionName: string): (c: Scopes.CollectionRef)
    ensures c.collectionName == collectionName
    ensures c.scopeBlock.scopeName == scopeName
    ensures c.scopeBlock.bucketName == Name(b)
    ensures InheritsSettings(c.scopeBlock, b.sb)
  {
    Scopes.Collection(Scope(b, scopeName), collectionName)
  }

  /** `Bucket.DefaultCollection`: collection "_default" of scope "_default". */
  function DefaultCollection(b: Bucket): (c: Scopes.CollectionRef)
    ensures c.collectionName == DefaultName && c.scopeBlock.scopeName == DefaultName
    ensures c == Collection(b, DefaultName, DefaultName)
  {
    Scopes.Collection(DefaultScope(b), "_default")
  }

  /** `Bucket.stateBlock`. */
  function StateBlockOf(b: Bucket): (sb: StateBlock)
    ensures sb == b.sb
  {
    b.sb
  }

  /** `Bucket.ViewIndexes`, given what `getHTTPProvider` of the cached client
      returned: its error unchanged, or a manager for this bucket. */
  function ViewIndexes(b: Bucket, provider: Result<Client.Agent, Client.ClientError>)
    : (r: Result<Views.ViewIndexManager, Client.ClientError>)
    ensures provider.Failure? ==> r == Failure(provider.error)
    ensures r.Success? <==> provider.Success?
    ensures r.Success? ==> r.value.bucketName == Name(b) && r.value.httpClient == provider.value
  {
    if provider.Failure? then Failure(provider.error)
    else Success(Views.ViewIndexManager(bucketName := Name(b), httpClient := provider.value))
  }

  /** `Bucket.CollectionManager`, given what `getHTTPProvider` returned. */
  function CollectionManagerOf(b: Bucket, provider: Result<Client.Agent, Client.ClientError>)
    : (r: Result<CollectionManager, Client.ClientError>)
    ensures provider.Failure? ==> r == Failure(provider.error)
    ensures r.Success? <==> provider.Success?
    ensures r.Success? ==> r.value.bucketName == Name(b) && r.value.httpClient == provider.value
  {
    if provider.Failure? then Failure(provider.error)
    else Success(CollectionManager(httpClient := provider.value, bucketName := Name(b)))
  }

  /** `Name` of a new bucket is the name it was opened with. */
  lemma NewBucketName(parent: StateBlock, bucketName: string, opts: BucketOptions)
    ensures Name(NewBucket(parent, bucketName, opts)) == bucketName
  {
  }

  /** A scope of a freshly opened bucket, and every collection in it, carries the
      bucket name, the mutation-token choice and the cluster's settings. */
  lemma ScopesOfNewBucketInheritCluster(parent: StateBlock, bucketName: string, opts: BucketOptions,
                                        scopeName: string, collectionName: string)
    ensures var b := NewBucket(parent, bucketName, opts);
      var c := Collection(b, scopeName, collectionName);
      && c.scopeBlock.bucketName == bucketName
      && c.scopeBlock.scopeName == scopeName
      && (c.scopeBlock.useMutationTokens <==> !opts.disableMutationTokens)
      && InheritsSettings(c.scopeBlock, parent)
  {
  }

  /** Both managers are built exactly when the client has connected without a
      bootstrap error; otherwise they fail with the client's error. */
  lemma ManagersNeedConnectedClient(b: Bucket, client: Client.StdClient)
    ensures ViewIndexes(b, client.GetHTTPProvider()).Success? <==>
              client.bootstrapErr.None? && client.agent.Some?
    ensures CollectionManagerOf(b, client.GetHTTPProvider()).Success? <==>
              client.bootstrapErr.None? && client.agent.Some?
    ensures client.bootstrapErr.Some? ==>
              ViewIndexes(b, client.GetHTTPProvider()) == Failure(client.bootstrapErr.value)
              && CollectionManagerOf(b, client.GetHTTPProvider()) == Failure(client.bootstrapErr.value)
  {
  }
}
