/** The part of gocb's `stateBlock` that buckets and scopes copy around: the
    client-level names (`clientStateBlock`) and the per-service settings. */
module StateBlocks {
  /** `stateBlock`. Timeouts are durations in nanoseconds; the transcoder and
      the serializer are opaque handles. */
  datatype StateBlock = StateBlock(
    bucketName: string,
    scopeName: string,
    useMutationTokens: bool,
    queryTimeout: int,
    searchTimeout: int,
    analyticsTimeout: int,
    kvTimeout: int,
    viewTimeout: int,
    connectTimeout: int,
    duraTimeout: int,
    duraPollTimeout: int,
    transcoder: nat,
    serializer: nat)

  /** `child` carries the eight timeouts, the transcoder and the serializer of
      `parent` unchanged. */
  predicate InheritsSettings(child: StateBlock, parent: StateBlock) {
    && child.queryTimeout == parent.queryTimeout
    && child.searchTimeout == parent.searchTimeout
    && child.analyticsTimeout == parent.analyticsTimeout
    && child.kvTimeout == parent.kvTimeout
    && child.viewTimeout == parent.viewTimeout
    && child.connectTimeout == parent.connectTimeout
    && child.duraTimeout == parent.duraTimeout
    && child.duraPollTimeout == parent.duraPollTimeout
    && child.transcoder == parent.transcoder
    && child.serializer == parent.serializer
  }
}
