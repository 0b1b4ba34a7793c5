/** `QueryOptions.toMap` of queryoptions.go: validates the options of a N1QL
    query and builds the map of request parameters sent to the query service.
    Parameter values are opaque; the only computed values are fixed strings,
    decimal strings and the prefixed named-parameter keys. */
module QueryOptions {
  import opened Wrappers
  import opened GoStrings

  /** `ConsistencyMode`: any int; 0 means unset. */
  type ConsistencyMode = int

  const NotBounded: ConsistencyMode := 1
  const RequestPlus: ConsistencyMode := 2
  const StatementPlus: ConsistencyMode := 3

  /** An opaque user-supplied value (a parameter, a custom option, a mutation state). */
  type Opaque = nat

  datatype Value =
    | Str(s: string)
    | Bool(b: bool)
      /** `Timeout.String()`: Go's duration formatting is not modelled. */
    | DurationText(nanos: int)
      /** a fresh `uuid.New()` */
    | Uuid(id: nat)
    | ScanVectors(state: Opaque)
    | Args(values: seq<Opaque>)
    | Any(v: Opaque)

  datatype QueryOptions = QueryOptions(
    consistency: ConsistencyMode,
    consistentWith: Option<Opaque>,
    prepared: bool,
    profile: string,
    scanCap: int,
    pipelineBatch: int,
    pipelineCap: int,
    readOnly: bool,
    clientContextId: string,
    timeout: int,
    positionalParameters: Option<seq<Opaque>>,
    namedParameters: Option<map<string, Opaque>>,
    custom: Option<map<string, Opaque>>)

  const ConsistencyConflictMessage: string := "Consistent and ConsistentWith must be used exclusively"
  const UnexpectedConsistencyMessage: string := "Unexpected consistency option"
  const ParameterConflictMessage: string := "Positional and named parameters must be used exclusively"

  /** The key a named parameter is sent under: "$" is added unless present. */
  function NamedKey(key: string): (k: string)
    ensures HasPrefix(k, "$")
    ensures HasPrefix(key, "$") ==> k == key
    ensures !HasPrefix(key, "$") ==> k == "$" + key
  {
    if HasPrefix(key, "$") then key else "$" + key
  }

  /** The fixed string a consistency mode is sent as (only 1, 2 and 3 have one). */
  function ConsistencyName(c: ConsistencyMode): (r: Option<string>)
    ensures r.Some? <==> c == NotBounded || c == RequestPlus || c == StatementPlus
  {
    if c == NotBounded then Some("not_bounded")
    else if c == RequestPlus then Some("request_plus")
    else if c == StatementPlus then Some("statement_plus")
    else None
  }

  /** The first validation failure, in the order the code checks them. */
  function Violation(opts: QueryOptions): (r: Option<string>)
    ensures r.None? <==>
              && !(opts.consistency != 0 && opts.consistentWith.Some?)
              && (opts.consistency == 0 || ConsistencyName(opts.consistency).Some?)
              && !(opts.positionalParameters.Some? && opts.namedParameters.Some?)
    ensures opts.consistency != 0 && opts.consistentWith.Some? ==> r == Some(ConsistencyConflictMessage)
    ensures opts.consistentWith.None? && opts.consistency != 0 && ConsistencyName(opts.consistency).None? ==>
              r == Some(UnexpectedConsistencyMessage)
    ensures !(opts.consistency != 0 && opts.consistentWith.Some?)
            && (opts.consistency == 0 || ConsistencyName(opts.consistency).Some?)
            && opts.positionalParameters.Some? && opts.namedParameters.Some? ==>
              r == Some(ParameterConflictMessage)
  {
    if opts.consistency != 0 && opts.consistentWith.Some? then Some(ConsistencyConflictMessage)
    else if opts.consistency != 0 && ConsistencyName(opts.consistency).None? then Some(UnexpectedConsistencyMessage)
    else if opts.positionalParameters.Some? && opts.namedParameters.Some? then Some(ParameterConflictMessage)
    else None
  }

  /** The parameters set before the named parameters, one step per option in
      code order. */
  function WithTimeout(m: map<string, Value>, opts: QueryOptions): map<string, Value> {
    if opts.timeout != 0 then m["timeout" := DurationText(opts.timeout)] else m
  }

  function WithConsistency(m: map<string, Value>, opts: QueryOptions): map<string, Value> {
    var m1 := if opts.consistency != 0 && ConsistencyName(opts.consistency).Some?
              then m["scan_consistency" := Str(ConsistencyName(opts.consistency).value)] else m;
    if opts.consistentWith.Some?
    then m1["scan_consistency" := Str("at_plus")]["scan_vectors" := ScanVectors(opts.consistentWith.value)]
    else m1
  }

  function WithFlags(m: map<string, Value>, opts: QueryOptions): map<string, Value> {
    var m1 := if opts.profile != "" then m["profile" := Str(opts.profile)] else m;
    var m2 := if opts.readOnly then m1["readonly" := Bool(true)] else m1;
    if opts.positionalParameters.Some? then m2["args" := Args(opts.positionalParameters.value)] else m2
  }

  function BaseParams(opts: QueryOptions, statement: string): map<string, Value> {
    WithFlags(WithConsistency(WithTimeout(map["statement" := Str(statement)], opts), opts), opts)
  }

  /** A numeric cap is sent only when non-zero, as a decimal string. */
  function WithCap(m: map<string, Value>, key: string, cap: int): map<string, Value> {
    if cap != 0 then m[key := Str(Itoa(cap))] else m
  }

  function WithCaps(m: map<string, Value>, opts: QueryOptions): map<string, Value> {
    WithCap(WithCap(WithCap(m, "scan_cap", opts.scanCap), "pipeline_batch", opts.pipelineBatch),
            "pipeline_cap", opts.pipelineCap)
  }

  function CustomParams(opts: QueryOptions): map<string, Value> {
    if opts.custom.Some? then map k | k in opts.custom.value :: Any(opts.custom.value[k]) else map[]
  }

  function ClientContextId(opts: QueryOptions, freshId: nat): Value {
    if opts.clientContextId == "" then Uuid(freshId) else Str(opts.clientContextId)
  }

  /** `named` inserted under prefixed keys, in SOME iteration order: Go's map
      order is unspecified, so when both "k" and "$k" are given either value may
      end up under "$k". */
  ghost predicate PrefixedNamed(named: map<string, Opaque>, n: map<string, Value>) {
    && n.Keys == (set k | k in named :: NamedKey(k))
    && forall key :: key in n ==> exists k :: k in named && NamedKey(k) == key && n[key] == Any(named[k])
  }

  /** The map `toMap` returns, given what the named-parameter loop produced. */
  function Assemble(opts: QueryOptions, statement: string, freshId: nat, n: map<string, Value>): map<string, Value> {
    (WithCaps(BaseParams(opts, statement) + n, opts) + CustomParams(opts))["client_context_id" := ClientContextId(opts, freshId)]
  }

  /** `toMap`. `freshId` stands for the value `uuid.New()` returns. */
  method ToMap(opts: QueryOptions, statement: string, freshId: nat) returns (r: Result<map<string, Value>, string>)
    ensures r.Failure? <==> Violation(opts).Some?
    ensures r.Failure? ==> r.error == Violation(opts).value
    ensures r.Success? ==>
              exists n :: PrefixedNamed(opts.namedParameters.GetOr(map[]), n)
                          && r.value == Assemble(opts, statement, freshId, n)
  {
    var execOpts: map<string, Value> := map[];
    execOpts := execOpts["statement" := Str(statement)];
    if opts.timeout != 0 {
      execOpts := execOpts["timeout" := DurationText(opts.timeout)];
    }

    ghost var afterTimeout := execOpts;
    assert afterTimeout == WithTimeout(map["statement" := Str(statement)], opts);

    if opts.consistency != 0 && opts.consistentWith.Some? {
      return Failure(ConsistencyConflictMessage);
    }

    if opts.consistency != 0 {
      var scanConsistency := ConsistencyName(opts.consistency);
      if scanConsistency.None? {
        return Failure(UnexpectedConsistencyMessage);
      }
      execOpts := execOpts["scan_consistency" := Str(scanConsistency.value)];
    }

    if opts.consistentWith.Some? {
      execOpts := execOpts["scan_consistency" := Str("at_plus")];
      execOpts := execOpts["scan_vectors" := ScanVectors(opts.consistentWith.value)];
    }

    ghost var afterConsistency := execOpts;
    assert afterConsistency == WithConsistency(afterTimeout, opts);

    if opts.profile != "" {
      execOpts := execOpts["profile" := Str(opts.profile)];
    }

    if opts.readOnly {
      execOpts := execOpts["readonly" := Bool(opts.readOnly)];
    }

    if opts.positionalParameters.Some? && opts.namedParameters.Some? {
      return Failure(ParameterConflictMessage);
    }

    if opts.positionalParameters.Some? {
      execOpts := execOpts["args" := Args(opts.positionalParameters.value)];
    }
    assert execOpts == WithFlags(afterConsistency, opts);

    ghost var n;
    execOpts, n := PutLaterParams(execOpts, opts, freshId);
    assert PrefixedNamed(opts.namedParameters.GetOr(map[]), n) && execOpts == Assemble(opts, statement, freshId, n);
    return Success(execOpts);
  }

  /** The second half of `toMap`, after validation: named parameters, numeric
      caps, custom options and the client context id, in that order. */
  method PutLaterParams(base: map<string, Value>, opts: QueryOptions, freshId: nat)
    returns (execOpts: map<string, Value>, ghost n: map<string, Value>)
    ensures PrefixedNamed(opts.namedParameters.GetOr(map[]), n)
    ensures execOpts == (WithCaps(base + n, opts) + CustomParams(opts))["client_context_id" := ClientContextId(opts, freshId)]
  {
    execOpts, n := PutNamedParameters(base, opts.namedParameters.GetOr(map[]));

    execOpts := PutCap(execOpts, "scan_cap", opts.scanCap);
    execOpts := PutCap(execOpts, "pipeline_batch", opts.pipelineBatch);
    execOpts := PutCap(execOpts, "pipeline_cap", opts.pipelineCap);

    if opts.custom.Some? {
      execOpts := PutCustom(execOpts, opts.custom.value);
    } else {
      assert execOpts + CustomParams(opts) == execOpts;
    }

    if opts.clientContextId == "" {
      execOpts := execOpts["client_context_id" := Uuid(freshId)];
    } else {
      execOpts := execOpts["client_context_id" := Str(opts.clientContextId)];
    }
  }

  /** The `NamedParameters` loop of `toMap`: each key gets its "$", in an
      unspecified order. */
  method PutNamedParameters(execOpts: map<string, Value>, named: map<string, Opaque>)
    returns (m: map<string, Value>, ghost n: map<string, Value>)
    ensures PrefixedNamed(named, n)
    ensures m == execOpts + n
  {
    m, n := execOpts, map[];
    var remaining := named.Keys;
    while remaining != {}
      invariant remaining <= named.Keys
      invariant m == execOpts + n
      invariant n.Keys == (set k | k in named && k !in remaining :: NamedKey(k))
      invariant forall key :: key in n ==>
                  exists k :: k in named && k !in remaining && NamedKey(k) == key && n[key] == Any(named[k])
      decreases remaining
    {
      var k :| k in remaining;
      var key, value := k, named[k];
      if !HasPrefix(key, "$") {
        key := "$" + key;
      }
      assert key == NamedKey(k);
      NamedStep(execOpts, named, remaining, m, n, k);
      m := m[key := Any(value)];
      n := n[key := Any(value)];
      remaining := remaining - {k};
    }
  }

  /** One iteration of the named-parameter loop keeps its invariant. */
  lemma NamedStep(execOpts: map<string, Value>, named: map<string, Opaque>, remaining: set<string>,
                  m: map<string, Value>, n: map<string, Value>, k: string)
    requires k in remaining && remaining <= named.Keys
    requires m == execOpts + n
    requires n.Keys == (set j | j in named && j !in remaining :: NamedKey(j))
    requires forall key :: key in n ==>
               exists j :: j in named && j !in remaining && NamedKey(j) == key && n[key] == Any(named[j])
    ensures var n' := n[NamedKey(k) := Any(named[k])];
      && m[NamedKey(k) := Any(named[k])] == execOpts + n'
      && n'.Keys == (set j | j in named && j !in remaining - {k} :: NamedKey(j))
      && forall key :: key in n' ==>
           exists j :: j in named && j !in remaining - {k} && NamedKey(j) == key && n'[key] == Any(named[j])
  {
    UpdateUnion(execOpts, n, NamedKey(k), Any(named[k]));
    NamedKeysStep(named, remaining, n, k);
    NamedValuesStep(named, remaining, n, k);
  }

  lemma UpdateUnion(a: map<string, Value>, b: map<string, Value>, key: string, v: Value)
    ensures (a + b)[key := v] == a + b[key := v]
  {
  }

  lemma NamedKeysStep(named: map<string, Opaque>, remaining: set<string>, n: map<string, Value>, k: string)
    requires k in remaining && k in named
    requires n.Keys == (set j | j in named && j !in remaining :: NamedKey(j))
    ensures n[NamedKey(k) := Any(named[k])].Keys == (set j | j in named && j !in remaining - {k} :: NamedKey(j))
  {
    assert (set j | j in named && j !in remaining - {k} :: NamedKey(j))
        == (set j | j in named && j !in remaining :: NamedKey(j)) + {NamedKey(k)};
  }

  lemma NamedValuesStep(named: map<string, Opaque>, remaining: set<string>, n: map<string, Value>, k: string)
    requires k in remaining && k in named
    requires forall key :: key in n ==>
               exists j :: j in named && j !in remaining && NamedKey(j) == key && n[key] == Any(named[j])
    ensures var n' := n[NamedKey(k) := Any(named[k])];
      forall key :: key in n' ==>
        exists j :: j in named && j !in remaining - {k} && NamedKey(j) == key && n'[key] == Any(named[j])
  {
    var n' := n[NamedKey(k) := Any(named[k])];
    forall key | key in n'
      ensures exists j :: j in named && j !in remaining - {k} && NamedKey(j) == key && n'[key] == Any(named[j])
    {
      if key == NamedKey(k) {
        assert k in named && k !in remaining - {k} && NamedKey(k) == key && n'[key] == Any(named[k]);
      } else {
        var j :| j in named && j !in remaining && NamedKey(j) == key && n[key] == Any(named[j]);
        assert j !in remaining - {k} && n'[key] == Any(named[j]);
      }
    }
  }

  /** `if cap != 0 { execOpts[key] = strconv.Itoa(cap) }` */
  method PutCap(execOpts: map<string, Value>, key: string, cap: int) returns (m: map<string, Value>)
    ensures m == WithCap(execOpts, key, cap)
  {
    m := execOpts;
    if cap != 0 {
      m := m[key := Str(Itoa(cap))];
    }
  }

  /** The `Custom` loop of `toMap`: every custom entry overrides what is there. */
  method PutCustom(execOpts: map<string, Value>, custom: map<string, Opaque>) returns (m: map<string, Value>)
    ensures m == execOpts + map k | k in custom :: Any(custom[k])
  {
    m := execOpts;
    var pending := custom.Keys;
    while pending != {}
      invariant pending <= custom.Keys
      invariant m == execOpts + map k | k in custom && k !in pending :: Any(custom[k])
      decreases pending
    {
      var k :| k in pending;
      m := m[k := Any(custom[k])];
      pending := pending - {k};
    }
  }

  // ---------------------------------------------------------------------------
  // What the assembled map promises, whatever order the named parameters took

  /** A key that does not start with "$" is never a named-parameter key. */
  lemma NotNamedKey(named: map<string, Opaque>, n: map<string, Value>, key: string)
    requires PrefixedNamed(named, n)
    requires |key| > 0 && key[0] != '$'
    ensures key !in n
  {
    forall k | k in named
      ensures NamedKey(k) != key
    {
      assert NamedKey(k)[..1][0] == NamedKey(k)[0];
    }
  }

  /** The numeric-cap keys. */
  function CapKeys(): set<string> {
    {"scan_cap", "pipeline_batch", "pipeline_cap"}
  }

  /** A key that is neither a cap, a custom option nor the client context id
      holds what the options and named parameters put there. */
  lemma AssembleOutsideLaterKeys(opts: QueryOptions, statement: string, freshId: nat, n: map<string, Value>, key: string)
    requires key != "client_context_id" && key !in CustomParams(opts) && key !in CapKeys()
    ensures key in Assemble(opts, statement, freshId, n) <==> key in BaseParams(opts, statement) + n
    ensures key in Assemble(opts, statement, freshId, n) ==>
              Assemble(opts, statement, freshId, n)[key] == (BaseParams(opts, statement) + n)[key]
  {
  }

  /** The flag step leaves every other key as it was. */
  lemma WithFlagsOutside(m: map<string, Value>, opts: QueryOptions, key: string)
    requires key != "profile" && key != "readonly" && key != "args"
    ensures key in WithFlags(m, opts) <==> key in m
    ensures key in m ==> WithFlags(m, opts)[key] == m[key]
  {
  }

  /** The consistency step leaves every other key as it was. */
  lemma WithConsistencyOutside(m: map<string, Value>, opts: QueryOptions, key: string)
    requires key != "scan_consistency" && key != "scan_vectors"
    ensures key in WithConsistency(m, opts) <==> key in m
    ensures key in m ==> WithConsistency(m, opts)[key] == m[key]
  {
  }

  /** "statement" is always sent, with the caller's statement unless a custom
      option of that name replaces it. */
  lemma StatementAlwaysSent(opts: QueryOptions, statement: string, freshId: nat, n: map<string, Value>)
    requires PrefixedNamed(opts.namedParameters.GetOr(map[]), n)
    ensures var m := Assemble(opts, statement, freshId, n);
      && "statement" in m
      && ("statement" !in CustomParams(opts) ==> m["statement"] == Str(statement))
  {
    if "statement" !in CustomParams(opts) {
      NotNamedKey(opts.namedParameters.GetOr(map[]), n, "statement");
      AssembleOutsideLaterKeys(opts, statement, freshId, n, "statement");
      var t := WithTimeout(map["statement" := Str(statement)], opts);
      WithConsistencyOutside(t, opts, "statement");
      WithFlagsOutside(WithConsistency(t, opts), opts, "statement");
    }
  }

  /** Consistency modes 1, 2 and 3 are sent as "not_bounded", "request_plus" and
      "statement_plus"; `ConsistentWith` is sent as "at_plus" with its scan
      vectors (unless a custom option replaces those keys). */
  lemma ScanConsistencySent(opts: QueryOptions, statement: string, freshId: nat, n: map<string, Value>)
    requires Violation(opts).None?
    requires PrefixedNamed(opts.namedParameters.GetOr(map[]), n)
    requires "scan_consistency" !in CustomParams(opts) && "scan_vectors" !in CustomParams(opts)
    ensures var m := Assemble(opts, statement, freshId, n);
      && (opts.consistency == NotBounded ==> m["scan_consistency"] == Str("not_bounded"))
      && (opts.consistency == RequestPlus ==> m["scan_consistency"] == Str("request_plus"))
      && (opts.consistency == StatementPlus ==> m["scan_consistency"] == Str("statement_plus"))
      && (opts.consistentWith.Some? ==>
            m["scan_consistency"] == Str("at_plus") && m["scan_vectors"] == ScanVectors(opts.consistentWith.value))
      && (opts.consistency == 0 && opts.consistentWith.None? ==> "scan_consistency" !in m)
  {
    NotNamedKey(opts.namedParameters.GetOr(map[]), n, "scan_consistency");
    NotNamedKey(opts.namedParameters.GetOr(map[]), n, "scan_vectors");
    AssembleOutsideLaterKeys(opts, statement, freshId, n, "scan_consistency");
    AssembleOutsideLaterKeys(opts, statement, freshId, n, "scan_vectors");
    var c := WithConsistency(WithTimeout(map["statement" := Str(statement)], opts), opts);
    WithFlagsOutside(c, opts, "scan_consistency");
    WithFlagsOutside(c, opts, "scan_vectors");
  }

  /** Every named parameter is sent under its "$"-prefixed key; when no other
      parameter shares that key and no custom option replaces it, with its own
      value. */
  lemma NamedParametersSent(opts: QueryOptions, statement: string, freshId: nat, n: map<string, Value>, k: string)
    requires opts.namedParameters.Some? && k in opts.namedParameters.value
    requires PrefixedNamed(opts.namedParameters.value, n)
    ensures var m := Assemble(opts, statement, freshId, n);
      && NamedKey(k) in m
      && (NamedKey(k) !in CustomParams(opts)
          && (forall j :: j in opts.namedParameters.value && NamedKey(j) == NamedKey(k) ==> j == k)
          ==> m[NamedKey(k)] == Any(opts.namedParameters.value[k]))
  {
    var named := opts.namedParameters.value;
    var key := NamedKey(k);
    assert key in n;
    assert key[0] == '$' by { assert key[..1][0] == key[0]; }
    assert key != "client_context_id" && key !in CapKeys();
    if key !in CustomParams(opts) {
      AssembleOutsideLaterKeys(opts, statement, freshId, n, key);
      var j :| j in named && NamedKey(j) == key && n[key] == Any(named[j]);
    }
  }

  /** A numeric cap is sent exactly when it is non-zero, as its decimal string
      (unless a custom option of the same name replaces it). */
  lemma CapsSentWhenNonZero(opts: QueryOptions, statement: string, freshId: nat, n: map<string, Value>)
    requires PrefixedNamed(opts.namedParameters.GetOr(map[]), n)
    requires forall key :: key in CapKeys() ==> key !in CustomParams(opts)
    ensures var m := Assemble(opts, statement, freshId, n);
      && ("scan_cap" in m <==> opts.scanCap != 0)
      && (opts.scanCap != 0 ==> m["scan_cap"] == Str(Itoa(opts.scanCap)))
      && ("pipeline_batch" in m <==> opts.pipelineBatch != 0)
      && (opts.pipelineBatch != 0 ==> m["pipeline_batch"] == Str(Itoa(opts.pipelineBatch)))
      && ("pipeline_cap" in m <==> opts.pipelineCap != 0)
      && (opts.pipelineCap != 0 ==> m["pipeline_cap"] == Str(Itoa(opts.pipelineCap)))
  {
    var named := opts.namedParameters.GetOr(map[]);
    NotNamedKey(named, n, "scan_cap");
    NotNamedKey(named, n, "pipeline_batch");
    NotNamedKey(named, n, "pipeline_cap");
    CapNotInBase(opts, statement, "scan_cap");
    CapNotInBase(opts, statement, "pipeline_batch");
    CapNotInBase(opts, statement, "pipeline_cap");
  }

  /** The options set before the named parameters never include a cap. */
  lemma CapNotInBase(opts: QueryOptions, statement: string, key: string)
    requires key in CapKeys()
    ensures key !in BaseParams(opts, statement)
  {
    var t := WithTimeout(map["statement" := Str(statement)], opts);
    WithConsistencyOutside(t, opts, key);
    WithFlagsOutside(WithConsistency(t, opts), opts, key);
  }

  /** Custom options override every earlier key; "client_context_id" is always
      sent last, with the caller's id when one was given. */
  lemma CustomAndContextIdWin(opts: QueryOptions, statement: string, freshId: nat, n: map<string, Value>)
    ensures var m := Assemble(opts, statement, freshId, n);
      && "client_context_id" in m
      && (opts.clientContextId != "" ==> m["client_context_id"] == Str(opts.clientContextId))
      && (opts.clientContextId == "" ==> m["client_context_id"] == Uuid(freshId))
      && (opts.custom.Some? ==> forall k :: k in opts.custom.value && k != "client_context_id" ==>
            m[k] == Any(opts.custom.value[k]))
  {
  }
}
