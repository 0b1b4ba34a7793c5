/** The per-connection client of client.go: a `StdClient` whose two fields,
    `agent` and `bootstrapErr`, are written step by step by `Connect` and
    `OpenCollection` and read by the provider getters and `Close`.

    The transport agent is an opaque handle; what the foreign agent library
    would compute (parsing the connection string, creating the agent, the
    collection-id lookup and its race with the caller's context, closing) is
    passed in as the outcome it produced. */
module Client {
  import opened Wrappers

  /** Opaque handle of a live transport agent. `collectionsSupported` is the
      answer its `HasCollectionsSupport` gives. */
  datatype Agent = Agent(id: nat, collectionsSupported: bool)

  /** The two errors a Go context reports from `ctx.Err()`. */
  datatype ContextError = DeadlineExceeded | Canceled

  datatype ClientError =
    | ConfigurationError(message: string)
      /** errors.New("Cluster not yet connected") */
    | NotConnected
      /** errors.New("Collections not supported by server") */
    | CollectionsNotSupported
      /** timeoutError{} */
    | TimeoutError
    | ContextErr(reason: ContextError)
      /** The agent-creation error after `maybeEnhanceKVErr`. */
    | EnhancedKvError(inner: ClientError)

  const MixedAuthMessage: string :=
    "invalid mixed authentication configuration, client certificate and CertAuthenticator must be used together"

  /** The authenticator the cluster was opened with: absent (Go `nil`), a
      username/password one, or a `CertAuthenticator`. */
  datatype Authenticator =
    | NoAuthenticator
    | PasswordAuthenticator(username: string, password: string)
    | CertAuthenticator

  /** The TLS part of the parsed agent configuration. */
  datatype TlsConfig = TlsConfig(certificates: nat)

  /** What `AgentConfig.FromConnStr` did with the connection string. */
  datatype ParsedConnStr = ParseFailed(err: ClientError) | Parsed(tls: Option<TlsConfig>)

  /** `config.TlsConfig != nil && len(config.TlsConfig.Certificates) > 0` */
  predicate UseCertificates(tls: Option<TlsConfig>) {
    tls.Some? && tls.value.certificates > 0
  }

  /** The certificate/authenticator pairing checks of `connect`, in the code's
      order: with client certificates the authenticator must be present and a
      `CertAuthenticator`; a `CertAuthenticator` without certificates is refused
      the same way. Exactly the mismatched pairings are rejected. */
  function AuthPairingError(auth: Authenticator, useCertificates: bool): (r: Option<ClientError>)
    ensures r.Some? <==> useCertificates != auth.CertAuthenticator?
    ensures r.Some? ==> r.value == ConfigurationError(MixedAuthMessage)
  {
    if useCertificates then
      if auth.NoAuthenticator? then Some(ConfigurationError(MixedAuthMessage))
      else if !auth.CertAuthenticator? then Some(ConfigurationError(MixedAuthMessage))
      else None
    else if auth.CertAuthenticator? then Some(ConfigurationError(MixedAuthMessage))
    else None
  }

  /** What one `connect` attempt yields: the new agent or the error it stores.
      The checks fail fast in order: parse error, pairing error, then agent
      creation (whose error is passed through `maybeEnhanceKVErr`). */
  function ConnectOutcome(auth: Authenticator, parsed: ParsedConnStr, created: Result<Agent, ClientError>)
    : (r: Result<Agent, ClientError>)
    ensures parsed.ParseFailed? ==> r == Failure(parsed.err)
    ensures parsed.Parsed? && UseCertificates(parsed.tls) != auth.CertAuthenticator? ==>
              r == Failure(ConfigurationError(MixedAuthMessage))
    ensures r.Success? <==>
              parsed.Parsed? && UseCertificates(parsed.tls) == auth.CertAuthenticator? && created.Success?
    ensures r.Success? ==> r == created
    ensures parsed.Parsed? && UseCertificates(parsed.tls) == auth.CertAuthenticator? && created.Failure? ==>
              r == Failure(EnhancedKvError(created.error))
  {
    match parsed
    case ParseFailed(e) => Failure(e)
    case Parsed(tls) =>
      match AuthPairingError(auth, UseCertificates(tls))
      case Some(e) => Failure(e)
      case None =>
        match created
        case Success(a) => Success(a)
        case Failure(e) => Failure(EnhancedKvError(e))
  }

  /** Which event the `select` in `openCollection` saw first. When the context
      fires first, `cancelled` is what `op.Cancel()` answered and, if it could
      not cancel, `callbackErr` is what the lookup callback then delivered. */
  datatype WaitOutcome =
    | LookupCompleted(callbackErr: Option<ClientError>)
    | ContextDone(ctxErr: ContextError, cancelled: bool, callbackErr: Option<ClientError>)

  /** The `colErr` that `openCollection` finally stores. A cancelled lookup gives
      `timeoutError` only when the lookup's own start error was the deadline
      (the code compares that error, not `ctx.Err()`), else the context's error;
      otherwise it is whatever the callback delivered (nil on success). */
  function CollectionLookupError(startErr: Option<ClientError>, wait: WaitOutcome): (r: Option<ClientError>)
    ensures wait.LookupCompleted? ==> r == wait.callbackErr
    ensures wait.ContextDone? && !wait.cancelled ==> r == wait.callbackErr
    ensures wait.ContextDone? && wait.cancelled ==>
              r.Some? && (r.value == TimeoutError || r.value == ContextErr(wait.ctxErr))
    ensures wait.ContextDone? && wait.cancelled && startErr == Some(ContextErr(DeadlineExceeded)) ==>
              r == Some(TimeoutError)
    ensures wait.ContextDone? && wait.cancelled && startErr != Some(ContextErr(DeadlineExceeded)) ==>
              r == Some(ContextErr(wait.ctxErr))
  {
    match wait
    case LookupCompleted(cbErr) => cbErr
    case ContextDone(ctxErr, cancelled, cbErr) =>
      if cancelled then
        if startErr == Some(ContextErr(DeadlineExceeded)) then Some(TimeoutError)
        else Some(ContextErr(ctxErr))
      else cbErr
  }

  /** The names that address the default collection, which needs no lookup. */
  predicate IsDefaultCollection(scopeName: string, collectionName: string) {
    scopeName == "_default" && collectionName == "_default"
  }

  class StdClient {
    var agent: Option<Agent>
    var bootstrapErr: Option<ClientError>

    /** `newClient`: neither an agent nor an error yet. */
    constructor ()
      ensures agent.None? && bootstrapErr.None?
    {
      agent := None;
      bootstrapErr := None;
    }

    /** `getKvProvider`: a stored bootstrap error wins even over a live agent;
        without an error a missing agent is "not yet connected". */
    function GetKvProvider(): (r: Result<Agent, ClientError>)
      reads this
      ensures bootstrapErr.Some? ==> r == Failure(bootstrapErr.value)
      ensures bootstrapErr.None? && agent.None? ==> r == Failure(NotConnected)
      ensures r.Success? <==> bootstrapErr.None? && agent.Some?
      ensures r.Success? ==> agent == Some(r.value)
    {
      if bootstrapErr.Some? then Failure(bootstrapErr.value)
      else if agent.None? then Failure(NotConnected)
      else Success(agent.value)
    }

    /** `getHTTPProvider`: the same precedence as `getKvProvider`. */
    function GetHTTPProvider(): (r: Result<Agent, ClientError>)
      reads this
      ensures bootstrapErr.Some? ==> r == Failure(bootstrapErr.value)
      ensures bootstrapErr.None? && agent.None? ==> r == Failure(NotConnected)
      ensures r.Success? <==> bootstrapErr.None? && agent.Some?
      ensures r.Success? ==> agent == Some(r.value)
    {
      if bootstrapErr.Some? then Failure(bootstrapErr.value)
      else if agent.None? then Failure(NotConnected)
      else Success(agent.value)
    }

    /** `getDiagnosticsProvider`: only the bootstrap error is checked; a missing
        agent is handed out as it is (Go returns a nil agent with a nil error). */
    function GetDiagnosticsProvider(): (r: Result<Option<Agent>, ClientError>)
      reads this
      ensures bootstrapErr.Some? ==> r == Failure(bootstrapErr.value)
      ensures bootstrapErr.None? ==> r.Success? && r.value == agent
    {
      if bootstrapErr.Some? then Failure(bootstrapErr.value) else Success(agent)
    }

    /** `connect`: one bootstrap attempt. Every failure stores the error it
        returns and leaves the agent alone; success stores the agent and returns
        nil without clearing an earlier error. After a failure every provider
        getter reports that same error. */
    method Connect(auth: Authenticator, parsed: ParsedConnStr, created: Result<Agent, ClientError>)
      returns (err: Option<ClientError>)
      modifies this
      ensures ConnectOutcome(auth, parsed, created).Failure? ==>
                err == Some(ConnectOutcome(auth, parsed, created).error)
                && bootstrapErr == err && agent == old(agent)
      ensures ConnectOutcome(auth, parsed, created).Success? ==>
                err.None? && agent == Some(created.value) && bootstrapErr == old(bootstrapErr)
      ensures err.None? && old(bootstrapErr).None? ==>
                GetKvProvider() == Success(created.value) && GetHTTPProvider() == Success(created.value)
      ensures err.Some? ==>
                GetKvProvider() == Failure(err.value)
                && GetHTTPProvider() == Failure(err.value)
                && GetDiagnosticsProvider() == Failure(err.value)
    {
      if parsed.ParseFailed? {
        bootstrapErr := Some(parsed.err);
        return bootstrapErr;
      }

      var useCertificates := UseCertificates(parsed.tls);
      if useCertificates {
        if auth.NoAuthenticator? {
          bootstrapErr := Some(ConfigurationError(MixedAuthMessage));
          return bootstrapErr;
        }
        if !auth.CertAuthenticator? {
          bootstrapErr := Some(ConfigurationError(MixedAuthMessage));
          return bootstrapErr;
        }
      }

      if auth.CertAuthenticator? && !useCertificates {
        bootstrapErr := Some(ConfigurationError(MixedAuthMessage));
        return bootstrapErr;
      }

      if created.Failure? {
        bootstrapErr := Some(EnhancedKvError(created.error));
        return bootstrapErr;
      }

      agent := Some(created.value);
      return None;
    }

    /** `openCollection`: the default collection changes nothing; otherwise a
        missing agent or one without collections support stores an error; once
        the lookup is issued, the wait's outcome overwrites `bootstrapErr`, so a
        successful lookup clears an earlier error. The agent never changes. */
    method OpenCollection(scopeName: string, collectionName: string,
                          startErr: Option<ClientError>, wait: WaitOutcome)
      modifies this
      ensures agent == old(agent)
      ensures IsDefaultCollection(scopeName, collectionName) ==> bootstrapErr == old(bootstrapErr)
      ensures !IsDefaultCollection(scopeName, collectionName) && agent.None? ==>
                bootstrapErr == Some(NotConnected)
      ensures !IsDefaultCollection(scopeName, collectionName) && agent.Some? && !agent.value.collectionsSupported ==>
                bootstrapErr == Some(CollectionsNotSupported)
      ensures !IsDefaultCollection(scopeName, collectionName) && agent.Some? && agent.value.collectionsSupported ==>
                bootstrapErr == CollectionLookupError(startErr, wait)
    {
      if scopeName == "_default" && collectionName == "_default" {
        return;
      }

      if agent.None? {
        bootstrapErr := Some(NotConnected);
        return;
      }

      if !agent.value.collectionsSupported {
        bootstrapErr := Some(CollectionsNotSupported);
        return;
      }

      var colErr: Option<ClientError> := None;
      if startErr.Some? {
        bootstrapErr := startErr;
      }

      match wait {
        case LookupCompleted(cbErr) =>
          colErr := cbErr;
        case ContextDone(ctxErr, cancelled, cbErr) =>
          if cancelled {
            if startErr == Some(ContextErr(DeadlineExceeded)) {
              colErr := Some(TimeoutError);
            } else {
              colErr := Some(ContextErr(ctxErr));
            }
          } else {
            colErr := cbErr;
          }
      }

      bootstrapErr := colErr;
    }

    /** `close`: refused when there is no agent, else whatever the agent's own
        `Close` answered. Nothing in the client changes. */
    method Close(agentCloseErr: Option<ClientError>) returns (err: Option<ClientError>)
      ensures agent.None? ==> err == Some(NotConnected)
      ensures agent.Some? ==> err == agentCloseErr
    {
      if agent.None? {
        return Some(NotConnected);
      }
      return agentCloseErr;
    }
  }

  /** The pairing rule is checked before the agent is created: once the
      connection string parses, a mismatched pairing gives the same outcome
      whatever agent creation would have produced. */
  lemma PairingCheckedBeforeAgentCreation(auth: Authenticator, tls: Option<TlsConfig>,
                                          c1: Result<Agent, ClientError>, c2: Result<Agent, ClientError>)
    requires UseCertificates(tls) != auth.CertAuthenticator?
    ensures ConnectOutcome(auth, Parsed(tls), c1) == ConnectOutcome(auth, Parsed(tls), c2)
    ensures ConnectOutcome(auth, Parsed(tls), c1).Failure?
  {
  }
}
