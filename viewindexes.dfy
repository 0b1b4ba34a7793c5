/** Design-document (view index) management of bucket_viewindexes.go.

    Each HTTP round trip is modelled by the response it produced: a transport
    failure, or a status, the body text and what JSON decoding of that body
    yielded. The per-status handling of get, list, upsert and drop is pure;
    `PublishDesignDocument` runs its three requests against a design-document
    store (`DesignDocServer`) whose contents it changes. */
module ViewIndexes {
  import opened Wrappers
  import opened GoStrings
  import Client

  /** `DesignDocumentNamespace`: the Go code uses `true` for production. */
  datatype DesignDocumentNamespace = Production | Development

  const DevPrefix: string := "dev_"

  /** One view: a map function and an optional (empty when absent) reduce function. */
  datatype View = View(mapSource: string, reduceSource: string) {
    /** `hasReduce` */
    predicate HasReduce() {
      reduceSource != ""
    }
  }

  type Views = map<string, View>

  /** `DesignDocument`. Its `Name` carries the JSON tag "-", so it is never
      encoded nor decoded: the JSON form of a design document is its views. */
  datatype DesignDocument = DesignDocument(name: string, views: Views)

  /** `ViewIndexManager`: the bucket name and the HTTP surface of the agent. */
  datatype ViewIndexManager = ViewIndexManager(bucketName: string, httpClient: Client.Agent)

  datatype ViewError =
      /** `viewIndexError` */
    | IndexError(statusCode: int, message: string, indexMissing: bool, publishDropFail: bool)
      /** an error from `DoHttpRequest` itself */
    | TransportError(cause: string)
      /** a JSON decoding error */
    | DecodeError
      /** `errors.Wrap(inner, context)` */
    | Wrapped(context: string, inner: ViewError)

  /** The outcome of one HTTP round trip; `decoded` is what decoding the body as
      the expected JSON shape `D` gave (None: the body does not decode). */
  datatype HttpResponse<D> =
    | HttpFailed(cause: string)
    | Response(statusCode: int, body: string, decoded: Option<D>)

  /** `ddocName`: the stored name of a design document in a namespace. For
      production a leading "dev_" is removed with `strings.TrimLeft`, which strips
      every leading character of the SET {d, e, v, _}; for development "dev_" is
      prepended when absent. */
  function DdocName(name: string, ns: DesignDocumentNamespace): (r: string)
    ensures ns == Production ==> !HasPrefix(r, DevPrefix)
    ensures ns == Production && !HasPrefix(name, DevPrefix) ==> r == name
    ensures ns == Development ==> HasPrefix(r, DevPrefix)
    ensures ns == Development && HasPrefix(name, DevPrefix) ==> r == name
    ensures ns == Development && !HasPrefix(name, DevPrefix) ==> r == DevPrefix + name
  {
    if ns == Production then
      if HasPrefix(name, DevPrefix) then TrimLeft(name, DevPrefix) else name
    else
      if !HasPrefix(name, DevPrefix) then DevPrefix + name else name
  }

  /** In production a "dev_" name loses its whole leading run of characters from
      {d, e, v, _} (not just the four-character prefix): what remains is a suffix
      of the name, strictly shorter than it, starting with none of those. */
  lemma ProductionTrimsCharacterSet(name: string)
    requires HasPrefix(name, DevPrefix)
    ensures var r := DdocName(name, Production);
      && |r| <= |name| - |DevPrefix|
      && r == name[|name| - |r|..]
      && (forall i :: 0 <= i < |name| - |r| ==> name[i] in DevPrefix)
      && (r == [] || r[0] !in DevPrefix)
  {
  }

  /** The quirk on a concrete name: "dev_dave" is stored in production as "ave". */
  lemma DevDaveBecomesAve()
    ensures DdocName("dev_dave", Production) == "ave"
  {
    assert HasPrefix("dev_dave", DevPrefix);
    assert TrimLeft("ave", DevPrefix) == "ave" by { assert 'a' !in DevPrefix; }
    assert TrimLeft("dave", DevPrefix) == TrimLeft("ave", DevPrefix) by { assert "dave"[1..] == "ave"; }
    assert TrimLeft("_dave", DevPrefix) == TrimLeft("dave", DevPrefix) by { assert "_dave"[1..] == "dave"; }
    assert TrimLeft("v_dave", DevPrefix) == TrimLeft("_dave", DevPrefix) by { assert "v_dave"[1..] == "_dave"; }
    assert TrimLeft("ev_dave", DevPrefix) == TrimLeft("v_dave", DevPrefix) by { assert "ev_dave"[1..] == "v_dave"; }
    assert TrimLeft("dev_dave", DevPrefix) == TrimLeft("ev_dave", DevPrefix) by { assert "dev_dave"[1..] == "ev_dave"; }
  }

  /** `ddocName` is idempotent for a fixed namespace. */
  lemma DdocNameIdempotent(name: string, ns: DesignDocumentNamespace)
    ensures DdocName(DdocName(name, ns), ns) == DdocName(name, ns)
  {
  }

  /** The name a caller sees: the stored name with at most one "dev_" removed.
      For names not starting with "dev_" this undoes `DdocName` in both
      namespaces. */
  lemma LogicalNameRoundTrip(name: string, ns: DesignDocumentNamespace)
    requires !HasPrefix(name, DevPrefix)
    ensures TrimPrefix(DdocName(name, ns), DevPrefix) == name
  {
  }

  // ---------------------------------------------------------------------------
  // Requests

  datatype Verb = Get | Put | Delete

  /** An HTTP request on "/_design/<ddoc>" of the views service. */
  datatype Request = Request(verb: Verb, ddoc: string, body: Option<Views>)

  function GetRequest(name: string, ns: DesignDocumentNamespace): (req: Request)
    ensures req.verb == Get && req.ddoc == DdocName(name, ns) && req.body.None?
  {
    Request(Get, DdocName(name, ns), None)
  }

  /** The body is serialised from the document before the name is rewritten, and
      the name is not part of the JSON, so the body is the views alone. */
  function UpsertRequest(ddoc: DesignDocument, ns: DesignDocumentNamespace): (req: Request)
    ensures req.verb == Put && req.ddoc == DdocName(ddoc.name, ns) && req.body == Some(ddoc.views)
  {
    Request(Put, DdocName(ddoc.name, ns), Some(ddoc.views))
  }

  function DropRequest(name: string, ns: DesignDocumentNamespace): (req: Request)
    ensures req.verb == Delete && req.ddoc == DdocName(name, ns) && req.body.None?
  {
    Request(Delete, DdocName(name, ns), None)
  }

  // ---------------------------------------------------------------------------
  // Per-status handling

  /** `GetDesignDocument` given the response to `GetRequest(name, ns)`: only 200
      succeeds, and the returned name is the stored name with one leading "dev_"
      removed; any other status is a `viewIndexError` carrying status and body,
      marked missing exactly on 404. */
  function GetDesignDocument(name: string, ns: DesignDocumentNamespace, resp: HttpResponse<Views>)
    : (r: Result<DesignDocument, ViewError>)
    ensures r.Success? <==> resp.Response? && resp.statusCode == 200 && resp.decoded.Some?
    ensures r.Success? ==> r.value.views == resp.decoded.value
    ensures r.Success? && ns == Development ==> DevPrefix + r.value.name == DdocName(name, ns)
    ensures r.Success? && ns == Production ==> r.value.name == DdocName(name, ns)
    ensures resp.HttpFailed? ==> r == Failure(TransportError(resp.cause))
    ensures resp.Response? && resp.statusCode != 200 ==>
              r == Failure(IndexError(resp.statusCode, resp.body, resp.statusCode == 404, false))
  {
    match resp
    case HttpFailed(cause) => Failure(TransportError(cause))
    case Response(status, body, decoded) =>
      if status != 200 then
        Failure(IndexError(status, body, status == 404, false))
      else
        match decoded
        case None => Failure(DecodeError)
        case Some(views) => Success(DesignDocument(TrimPrefix(DdocName(name, ns), DevPrefix), views))
  }

  /** `UpsertDesignDocument` given the response to `UpsertRequest(ddoc, ns)`:
      succeeds exactly on 201; other statuses are never marked missing. */
  function UpsertDesignDocument<D>(resp: HttpResponse<D>): (r: Outcome<ViewError>)
    ensures r.Pass? <==> resp.Response? && resp.statusCode == 201
    ensures r.Fail? && r.error.IndexError? ==> !r.error.indexMissing && !r.error.publishDropFail
    ensures resp.Response? && resp.statusCode != 201 ==>
              r == Fail(IndexError(resp.statusCode, resp.body, false, false))
  {
    match resp
    case HttpFailed(cause) => Fail(TransportError(cause))
    case Response(status, body, _) =>
      if status != 201 then Fail(IndexError(status, body, false, false)) else Pass
  }

  /** `DropDesignDocument` given the response to `DropRequest(name, ns)`:
      succeeds exactly on 200; otherwise missing exactly on 404. */
  function DropDesignDocument<D>(resp: HttpResponse<D>): (r: Outcome<ViewError>)
    ensures r.Pass? <==> resp.Response? && resp.statusCode == 200
    ensures resp.Response? && resp.statusCode != 200 ==>
              r == Fail(IndexError(resp.statusCode, resp.body, resp.statusCode == 404, false))
    ensures r.Fail? && r.error.IndexError? ==> (r.error.indexMissing <==> r.error.statusCode == 404)
  {
    match resp
    case HttpFailed(cause) => Fail(TransportError(cause))
    case Response(status, body, _) =>
      if status != 200 then Fail(IndexError(status, body, status == 404, false)) else Pass
  }

  // ---------------------------------------------------------------------------
  // Listing

  /** One row of the bucket-wide listing: `Doc.Meta.Id` and the views decoded
      from `Doc.Json` (its `Name` is not decoded). */
  datatype ListingRow = ListingRow(id: string, views: Views)

  /** `Meta.Id[8:]` (past "_design/") with one leading "dev_" removed. */
  function ListingName(row: ListingRow): string
    requires |row.id| >= 8
  {
    TrimPrefix(row.id[8..], DevPrefix)
  }

  /** For an identifier "_design/<stored>", the listed name is the stored name
      with at most one "dev_" removed. */
  lemma ListingNameOfStoredId(stored: string, views: Views)
    ensures ListingName(ListingRow("_design/" + stored, views)) == TrimPrefix(stored, DevPrefix)
  {
    assert ("_design/" + stored)[8..] == stored;
  }

  /** Every row of the listing as a design document, in server order. */
  function AllListed(rows: seq<ListingRow>): (docs: seq<DesignDocument>)
    requires forall i :: 0 <= i < |rows| ==> |rows[i].id| >= 8
    ensures |docs| == |rows|
    ensures forall i :: 0 <= i < |rows| ==> docs[i] == DesignDocument(ListingName(rows[i]), rows[i].views)
  {
    seq(|rows|, i requires 0 <= i < |rows| => DesignDocument(ListingName(rows[i]), rows[i].views))
  }

  /** Go slices `Meta.Id[8:]` (a panic when shorter) only for the rows it keeps,
      and it keeps rows only when listing the production namespace. */
  predicate ListingIdsLongEnough(ns: DesignDocumentNamespace, resp: HttpResponse<seq<ListingRow>>) {
    ns == Production && resp.Response? && resp.statusCode == 200 && resp.decoded.Some? ==>
      forall i :: 0 <= i < |resp.decoded.value| ==> |resp.decoded.value[i].id| >= 8
  }

  /** `GetAllDesignDocuments`. The filter compares the namespace with the
      decoded document's `Name`, which the JSON tag "-" leaves empty, so every
      row looks like a production one: production lists every row, in order,
      and development lists none. A non-200 status is never marked missing. */
  method GetAllDesignDocuments(ns: DesignDocumentNamespace, resp: HttpResponse<seq<ListingRow>>)
    returns (r: Result<seq<DesignDocument>, ViewError>)
    requires ListingIdsLongEnough(ns, resp)
    ensures resp.HttpFailed? ==> r == Failure(TransportError(resp.cause))
    ensures resp.Response? && resp.statusCode != 200 ==>
              r == Failure(IndexError(resp.statusCode, resp.body, false, false))
    ensures resp.Response? && resp.statusCode == 200 && resp.decoded.None? ==> r == Failure(DecodeError)
    ensures r.Success? <==> resp.Response? && resp.statusCode == 200 && resp.decoded.Some?
    ensures r.Success? && ns == Production ==> r.value == AllListed(resp.decoded.value)
    ensures r.Success? && ns == Development ==> r.value == []
  {
    if resp.HttpFailed? {
      return Failure(TransportError(resp.cause));
    }
    if resp.statusCode != 200 {
      return Failure(IndexError(resp.statusCode, resp.body, false, false));
    }
    if resp.decoded.None? {
      return Failure(DecodeError);
    }

    var rows := resp.decoded.value;
    var ddocs: seq<DesignDocument> := [];
    var index := 0;
    while index < |rows|
      invariant 0 <= index <= |rows|
      invariant ns == Production ==> |ddocs| == index
      invariant ns == Production ==> forall i :: 0 <= i < index ==>
                  ddocs[i] == DesignDocument(ListingName(rows[i]), rows[i].views)
      invariant ns == Development ==> ddocs == []
    {
      var ddoc := DesignDocument("", rows[index].views);
      var isProd := !HasPrefix(ddoc.name, DevPrefix);
      if isProd == (ns == Production) {
        ddoc := ddoc.(name := TrimPrefix(rows[index].id[8..], DevPrefix));
        ddocs := ddocs + [ddoc];
      }
      index := index + 1;
    }
    return Success(ddocs);
  }

  // ---------------------------------------------------------------------------
  // The design-document store reached through the HTTP surface

  /** Status a store reports for a verb it is currently failing. */
  const FaultStatus: int := 500
  const FaultBody: string := "internal error"

  /** The store's answer to a request: a failing verb answers 500; GET answers
      200 with the stored views or 404; PUT answers 201; DELETE answers 200 or
      404. */
  function Serve(docs: map<string, Views>, faulty: set<Verb>, req: Request): HttpResponse<Views> {
    if req.verb in faulty then Response(FaultStatus, FaultBody, None)
    else match req.verb
      case Get =>
        if req.ddoc in docs then Response(200, "", Some(docs[req.ddoc])) else Response(404, "not_found", None)
      case Put => Response(201, "", None)
      case Delete =>
        if req.ddoc in docs then Response(200, "", None) else Response(404, "not_found", None)
  }

  /** The store's contents after a request: only a PUT or DELETE it does not
      fail changes them. */
  function Apply(docs: map<string, Views>, faulty: set<Verb>, req: Request): map<string, Views> {
    if req.verb in faulty then docs
    else match req.verb
      case Get => docs
      case Put => docs[req.ddoc := req.body.GetOr(map[])]
      case Delete => docs - {req.ddoc}
  }

  class DesignDocServer {
    /** Stored design documents by stored name. */
    var docs: map<string, Views>
    /** Every request received, in order. */
    var log: seq<Request>
    /** Verbs the store currently fails. */
    const faulty: set<Verb>

    constructor (initial: map<string, Views>, failing: set<Verb>)
      ensures docs == initial && log == [] && faulty == failing
    {
      docs := initial;
      log := [];
      faulty := failing;
    }

    method Handle(req: Request) returns (resp: HttpResponse<Views>)
      modifies this
      ensures resp == Serve(old(docs), faulty, req)
      ensures docs == Apply(old(docs), faulty, req)
      ensures log == old(log) + [req]
    {
      resp := Serve(docs, faulty, req);
      docs := Apply(docs, faulty, req);
      log := log + [req];
    }
  }

  /** `get` of a name that was never stored reports it missing. */
  lemma GetOfMissingIsIndexMissing(docs: map<string, Views>, faulty: set<Verb>,
                                   name: string, ns: DesignDocumentNamespace)
    requires Get !in faulty
    requires DdocName(name, ns) !in docs
    ensures var r := GetDesignDocument(name, ns, Serve(docs, faulty, GetRequest(name, ns)));
      r.Failure? && r.error.IndexError? && r.error.indexMissing
  {
  }

  /** `get` after a successful `upsert` of the same name in the same namespace
      returns the views that were stored, under the caller's name when that name
      does not start with "dev_". */
  lemma GetAfterUpsert(docs: map<string, Views>, faulty: set<Verb>,
                       ddoc: DesignDocument, ns: DesignDocumentNamespace)
    requires Put !in faulty && Get !in faulty
    ensures UpsertDesignDocument(Serve(docs, faulty, UpsertRequest(ddoc, ns))) == Pass
    ensures var after := Apply(docs, faulty, UpsertRequest(ddoc, ns));
      var r := GetDesignDocument(ddoc.name, ns, Serve(after, faulty, GetRequest(ddoc.name, ns)));
      && r.Success?
      && r.value.views == ddoc.views
      && (!HasPrefix(ddoc.name, DevPrefix) ==> r.value == ddoc)
  {
    if !HasPrefix(ddoc.name, DevPrefix) {
      LogicalNameRoundTrip(ddoc.name, ns);
    }
  }

  // ---------------------------------------------------------------------------
  // Publish

  const DevMissingMessage: string := "Development design document does not exist"
  const DropFailMessage: string := "failed to drop development index: "
  const UpsertFailContext: string := "failed to create "

  /** The name `PublishDesignDocument` gets back from its development `get`. */
  function FetchedName(name: string): string {
    TrimPrefix(DdocName(name, Development), DevPrefix)
  }

  /** The production document publish writes, and the development document it drops. */
  function PublishedName(name: string): string {
    DdocName(FetchedName(name), Production)
  }

  function DropTarget(name: string): string {
    DdocName(FetchedName(name), Development)
  }

  /** Publish writes production and drops development: the two are never the
      same stored document, so a drop cannot remove the published copy. */
  lemma PublishedNameIsNotDropTarget(name: string)
    ensures PublishedName(name) != DropTarget(name)
  {
  }

  /** The drop hits the development copy that was read exactly when the name
      left after removing one "dev_" does not itself start with "dev_". */
  lemma DropTargetIsDevCopy(name: string)
    ensures DropTarget(name) == DdocName(name, Development) <==> !HasPrefix(FetchedName(name), DevPrefix)
  {
  }

  /** A name for which the drop misses: "dev_dev_x" is read as "dev_dev_x" but
      the drop is sent for "dev_x". */
  lemma DropMissesDoubledPrefix()
    ensures DdocName("dev_dev_x", Development) == "dev_dev_x"
    ensures DropTarget("dev_dev_x") == "dev_x"
  {
    assert HasPrefix("dev_dev_x", DevPrefix);
    assert FetchedName("dev_dev_x") == "dev_x";
    assert HasPrefix("dev_x", DevPrefix);
  }

  /** The development `get` of publish against a store: the fault, the missing
      copy, or the copy under its fetched name. */
  lemma FetchStage(docs: map<string, Views>, faulty: set<Verb>, name: string)
    ensures var dev := DdocName(name, Development);
      var got := GetDesignDocument(name, Development, Serve(docs, faulty, GetRequest(name, Development)));
      && (Get in faulty ==> got == Failure(IndexError(FaultStatus, FaultBody, false, false)))
      && (Get !in faulty && dev !in docs ==> got.Failure? && got.error.IndexError? && got.error.indexMissing)
      && (Get !in faulty && dev in docs ==> got == Success(DesignDocument(FetchedName(name), docs[dev])))
  {
  }

  /** The production `upsert` of publish against a store. */
  lemma UpsertStage(docs: map<string, Views>, faulty: set<Verb>, ddoc: DesignDocument)
    ensures var req := UpsertRequest(ddoc, Production);
      && (Put in faulty ==> UpsertDesignDocument(Serve(docs, faulty, req)) == Fail(IndexError(FaultStatus, FaultBody, false, false))
                            && Apply(docs, faulty, req) == docs)
      && (Put !in faulty ==> UpsertDesignDocument(Serve(docs, faulty, req)) == Pass
                             && Apply(docs, faulty, req) == docs[DdocName(ddoc.name, Production) := ddoc.views])
  {
  }

  /** The development `drop` of publish against a store. */
  lemma DropStage(docs: map<string, Views>, faulty: set<Verb>, name: string)
    ensures var req := DropRequest(name, Development);
      && (DropDesignDocument(Serve(docs, faulty, req)).Pass? <==> Delete !in faulty && DdocName(name, Development) in docs)
      && (DropDesignDocument(Serve(docs, faulty, req)).Fail? ==> Apply(docs, faulty, req) == docs)
      && (Delete !in faulty ==> Apply(docs, faulty, req) == docs - {DdocName(name, Development)})
  {
  }

  /** `PublishDesignDocument`: get the development copy, upsert it to
      production, then drop the development copy. A missing development copy
      stops before any write; a failed upsert stops before the drop; a failed
      drop reports `publishDropFail` and keeps the production copy. */
  method PublishDesignDocument(server: DesignDocServer, name: string) returns (r: Outcome<ViewError>)
    modifies server
    ensures Get in server.faulty ==>
              && r == Fail(IndexError(FaultStatus, FaultBody, false, false))
              && server.docs == old(server.docs)
              && server.log == old(server.log) + [GetRequest(name, Development)]
    ensures Get !in server.faulty && DdocName(name, Development) !in old(server.docs) ==>
              && r == Fail(IndexError(0, DevMissingMessage, true, false))
              && server.docs == old(server.docs)
              && server.log == old(server.log) + [GetRequest(name, Development)]
    ensures var dev := DdocName(name, Development);
      Get !in server.faulty && dev in old(server.docs) && Put in server.faulty ==>
        var fetched := DesignDocument(FetchedName(name), old(server.docs)[dev]);
        && r == Fail(Wrapped(UpsertFailContext, IndexError(FaultStatus, FaultBody, false, false)))
        && server.docs == old(server.docs)
        && server.log == old(server.log) + [GetRequest(name, Development), UpsertRequest(fetched, Production)]
    ensures var dev := DdocName(name, Development);
      Get !in server.faulty && dev in old(server.docs) && Put !in server.faulty ==>
        var fetched := DesignDocument(FetchedName(name), old(server.docs)[dev]);
        && server.log == old(server.log) + [GetRequest(name, Development), UpsertRequest(fetched, Production),
                                           DropRequest(fetched.name, Development)]
        && PublishedName(name) in server.docs
        && server.docs[PublishedName(name)] == fetched.views
    ensures var dev := DdocName(name, Development);
      Get !in server.faulty && dev in old(server.docs) && Put !in server.faulty ==>
        var published := old(server.docs)[PublishedName(name) := old(server.docs)[dev]];
        && (Delete in server.faulty || DropTarget(name) !in published ==>
              r.Fail? && r.error.IndexError? && r.error.publishDropFail && !r.error.indexMissing
              && server.docs == published)
        && (Delete !in server.faulty && DropTarget(name) in published ==>
              r == Pass && server.docs == published - {DropTarget(name)})
  {
    var got := FetchDevCopy(server, name);
    if got.Failure? {
      if got.error.IndexError? && got.error.indexMissing {
        return Fail(IndexError(0, DevMissingMessage, true, false));
      }
      return Fail(got.error);
    }
    var devdoc := got.value;
    assert devdoc == DesignDocument(FetchedName(name), old(server.docs)[DdocName(name, Development)]);
    PublishedNameIsNotDropTarget(name);
    ghost var afterGet := server.log;
    r := PublishFetched(server, devdoc);
    assert afterGet + [UpsertRequest(devdoc, Production), DropRequest(devdoc.name, Development)]
        == old(server.log) + [GetRequest(name, Development), UpsertRequest(devdoc, Production), DropRequest(devdoc.name, Development)];
  }

  /** The development `get` that `PublishDesignDocument` starts with. */
  method FetchDevCopy(server: DesignDocServer, name: string) returns (got: Result<DesignDocument, ViewError>)
    modifies server
    ensures server.docs == old(server.docs)
    ensures server.log == old(server.log) + [GetRequest(name, Development)]
    ensures Get in server.faulty ==> got == Failure(IndexError(FaultStatus, FaultBody, false, false))
    ensures Get !in server.faulty && DdocName(name, Development) !in old(server.docs) ==>
              got.Failure? && got.error.IndexError? && got.error.indexMissing
    ensures Get !in server.faulty && DdocName(name, Development) in old(server.docs) ==>
              got == Success(DesignDocument(FetchedName(name), old(server.docs)[DdocName(name, Development)]))
  {
    FetchStage(server.docs, server.faulty, name);
    var getResp := server.Handle(GetRequest(name, Development));
    got := GetDesignDocument(name, Development, getResp);
  }

  /** The writes of `PublishDesignDocument` once the development copy `devdoc`
      has been read: upsert it to production, then drop it from development. */
  method PublishFetched(server: DesignDocServer, devdoc: DesignDocument) returns (r: Outcome<ViewError>)
    requires DdocName(devdoc.name, Production) != DdocName(devdoc.name, Development)
    modifies server
    ensures var upsert := UpsertRequest(devdoc, Production);
      && (Put in server.faulty ==>
            r == Fail(Wrapped(UpsertFailContext, IndexError(FaultStatus, FaultBody, false, false)))
            && server.docs == old(server.docs)
            && server.log == old(server.log) + [upsert])
    ensures var published := old(server.docs)[DdocName(devdoc.name, Production) := devdoc.views];
      var target := DdocName(devdoc.name, Development);
      Put !in server.faulty ==>
        && server.log == old(server.log) + [UpsertRequest(devdoc, Production), DropRequest(devdoc.name, Development)]
        && DdocName(devdoc.name, Production) in server.docs
        && server.docs[DdocName(devdoc.name, Production)] == devdoc.views
        && (Delete in server.faulty || target !in published ==>
              r == Fail(IndexError(0, DropFailMessage, false, true)) && server.docs == published)
        && (Delete !in server.faulty && target in published ==>
              r == Pass && server.docs == published - {target})
  {
    UpsertStage(server.docs, server.faulty, devdoc);
    var putResp := server.Handle(UpsertRequest(devdoc, Production));
    var upserted := UpsertDesignDocument(putResp);
    if upserted.Fail? {
      return Fail(Wrapped(UpsertFailContext, upserted.error));
    }

    DropStage(server.docs, server.faulty, devdoc.name);
    var dropResp := server.Handle(DropRequest(devdoc.name, Development));
    var dropped := DropDesignDocument(dropResp);
    if dropped.Fail? {
      return Fail(IndexError(0, DropFailMessage, false, true));
    }
    return Pass;
  }
}
