/** `require_zero_endpoint_inventory`: a recorded, paginated listing must show that a thread has no endpoints. */
module EndpointInventory {
  import opened Wrappers
  import opened Json
  import opened CursorChain
  import CJ = CanonicalJson

  /** The observation header, for the given thread, process and, when known, connection epoch. */
  predicate HeaderOk(value: Json, threadId: string, pid: int, epoch: Option<string>, isSha: string -> bool) {
    && value.Obj?
    && CJ.Keys(value.fields) == {"source", "version", "thread_id", "pid", "connection_epoch_sha256", "pages",
                                 "notification_generation"}
    && Member(value, "source") == Some(Str("app-server-thread-mcp-inventory-v1"))
    && Member(value, "version") == Some(Int(1))
    && Member(value, "thread_id") == Some(Str(threadId))
    && Member(value, "pid") == Some(Int(pid)) && pid > 0
    && (var e := Member(value, "connection_epoch_sha256");
        e.Some? && e.value.Str? && isSha(e.value.s) && (epoch.Some? ==> e.value.s == epoch.value))
    && Member(value, "notification_generation") == Some(Int(0))
    && 1 <= |Pages(value)| <= 100
  }

  /** The recorded pages; none when there is no list of pages. */
  function Pages(value: Json): seq<Json> {
    var p := Member(value, "pages");
    if p.Some? && p.value.Arr? then p.value.items else []
  }

  /** The request for the page at `cursor`; a first page is asked for with a null cursor. */
  function Request(threadId: string, cursor: Json): Json {
    Obj([Field("threadId", Str(threadId)), Field("detail", Str("full")), Field("limit", Int(100)),
         Field("cursor", cursor)])
  }

  predicate EmptyReply(response: Json) {
    && response.Obj?
    && (CJ.Keys(response.fields) == {"data"} || CJ.Keys(response.fields) == {"data", "nextCursor"})
    && Member(response, "data") == Some(Arr([]))
  }

  /** `response.get("nextCursor")` */
  function NextCursor(response: Json): Json {
    var c := Member(response, "nextCursor");
    if c.Some? then c.value else Null
  }

  function Response(page: Json): Json {
    var r := Member(page, "response");
    if r.Some? then r.value else Null
  }

  /** Whether the recorded request is the one for `cursor`. */
  predicate Asks(page: Json, threadId: string, cursor: Json) {
    var r := Member(page, "request");
    r.Some? && CJ.SameJson(r.value, Request(threadId, cursor))
  }

  /** A well-formed page that answers the request for `cursor` with no endpoints. */
  predicate PageOk(page: Json, threadId: string, cursor: Json) {
    && page.Obj? && CJ.Keys(page.fields) == {"request", "response"}
    && Asks(page, threadId, cursor) && EmptyReply(Response(page))
  }

  function PageReader(threadId: string): Reader {
    Reader((page, cursor) => PageOk(page, threadId, cursor), page => NextCursor(Response(page)))
  }

  ghost predicate Accepts(value: Json, threadId: string, pid: int, epoch: Option<string>, isSha: string -> bool) {
    HeaderOk(value, threadId, pid, epoch, isSha) && CompleteChain(PageReader(threadId), Pages(value))
  }

  /** Accepts exactly the complete chains under a valid header; a rejection names the first page that breaks it. */
  method RequireZeroEndpointInventory(value: Json, threadId: string, pid: int, epoch: Option<string>,
                                      isSha: string -> bool)
    returns (verdict: Verdict)
    ensures verdict.HeaderInvalid? <==> !HeaderOk(value, threadId, pid, epoch, isSha)
    ensures verdict.Accepted? <==> Accepts(value, threadId, pid, epoch, isSha)
    ensures !verdict.Accepted? && !verdict.HeaderInvalid? ==>
            exists k :: FaultAt(PageReader(threadId), Pages(value), k, verdict)
  {
    if !HeaderOk(value, threadId, pid, epoch, isSha) {
      return HeaderInvalid;
    }
    verdict := CheckPages(PageReader(threadId), Pages(value));
  }

  // ---------- what acceptance says about the server ----------

  function Endpoints(reply: Json): seq<Json> {
    var d := Member(reply, "data");
    if d.Some? && d.value.Arr? then d.value.items else []
  }

  /** The listing a server offers, given what it replies at each cursor. */
  function ListingOf(server: Json -> Json): Listing {
    Listing(cursor => Endpoints(server(cursor)), cursor => NextCursor(server(cursor)))
  }

  /** Each page holds what the server answers to the request it records. */
  ghost predicate RecordedFrom(pages: seq<Json>, threadId: string, server: Json -> Json) {
    forall i, cursor :: 0 <= i < |pages| && Asks(pages[i], threadId, cursor) ==> Response(pages[i]) == server(cursor)
  }

  lemma GoodPageReports(page: Json, threadId: string, server: Json -> Json, cursor: Json)
    requires PageOk(page, threadId, cursor) && Response(page) == server(cursor)
    ensures PageReader(threadId).next(page) == ListingOf(server).next(cursor)
    ensures ListingOf(server).endpoints(cursor) == []
  {
    assert Member(server(cursor), "data") == Some(Arr([]));
  }

  /**
   The promise of acceptance: if each recorded page is what the server answers, then walking the server from no cursor
   ends, within the hundred pages allowed, and finds no endpoint, however long one is willing to walk.
   */
  lemma AcceptedMeansNoEndpoints(value: Json, threadId: string, pid: int, epoch: Option<string>,
                                 isSha: string -> bool, server: Json -> Json, fuel: nat)
    requires Accepts(value, threadId, pid, epoch, isSha) && RecordedFrom(Pages(value), threadId, server)
    requires fuel >= 100
    ensures Walk(ListingOf(server), Null, fuel) == Some([])
  {
    RecordingReports(Pages(value), threadId, server);
    ChainIsWalked(PageReader(threadId), Pages(value), ListingOf(server), 0, fuel);
  }

  lemma RecordingReports(pages: seq<Json>, threadId: string, server: Json -> Json)
    requires RecordedFrom(pages, threadId, server)
    ensures Reports(PageReader(threadId), pages, ListingOf(server))
  {
    var r, l := PageReader(threadId), ListingOf(server);
    forall i, cursor | 0 <= i < |pages| && r.ok(pages[i], cursor)
      ensures r.next(pages[i]) == l.next(cursor) && l.endpoints(cursor) == []
    {
      assert Asks(pages[i], threadId, cursor);
      GoodPageReports(pages[i], threadId, server, cursor);
    }
  }

  /** A page as the caller records it. */
  function PageFor(threadId: string, server: Json -> Json, cursor: Json): Json {
    Obj([Field("request", Request(threadId, cursor)), Field("response", server(cursor))])
  }

  /**
   The chain check asks no more than it must: a faithful recording of a listing that ends, with nothing in it, is a
   complete chain. That no cursor repeats needs no separate assumption.
   */
  lemma EmptyListingIsAccepted(server: Json -> Json, threadId: string, n: nat)
    requires EndsAfter(c => EmptyReply(server(c)), ListingOf(server), Null, n)
    ensures CompleteChain(PageReader(threadId), Record(c => PageFor(threadId, server, c), ListingOf(server), Null, n))
  {
    var good, page := c => EmptyReply(server(c)), c => PageFor(threadId, server, c);
    var l, r := ListingOf(server), PageReader(threadId);
    forall c: Json | (c.Null? || UsableCursor(c)) && good(c) ensures r.ok(page(c), c) && r.next(page(c)) == l.next(c) {
      RecordedPageIsOk(server, threadId, c);
    }
    RecordIsComplete(good, l, page, r, n);
  }

  lemma RecordedPageIsOk(server: Json -> Json, threadId: string, cursor: Json)
    requires EmptyReply(server(cursor)) && (cursor.Null? || UsableCursor(cursor))
    ensures var page := PageFor(threadId, server, cursor);
            PageOk(page, threadId, cursor) && Response(page) == server(cursor)
  {
    var page := PageFor(threadId, server, cursor);
    TwoFields("request", "response", Request(threadId, cursor), server(cursor));
    RequestIsItself(threadId, cursor);
  }

  lemma TwoFields(a: string, b: string, x: Json, y: Json)
    requires a != b
    ensures var fields := [Field(a, x), Field(b, y)];
            CJ.Keys(fields) == {a, b} && Get(fields, a) == Some(x) && Get(fields, b) == Some(y)
  {
    var fields := [Field(a, x), Field(b, y)];
    assert Get(fields[1..], b) == Some(y);
    assert Field(a, x) in fields && Field(b, y) in fields;
  }

  lemma RequestIsItself(threadId: string, cursor: Json)
    requires cursor.Null? || UsableCursor(cursor)
    ensures CJ.SameJson(Request(threadId, cursor), Request(threadId, cursor))
  {
    var request := Request(threadId, cursor);
    FourKeys("threadId", "detail", "limit", "cursor", Str(threadId), Str("full"), Int(100), cursor);
    CJ.SameIffCanonical(request, request);
  }

  lemma {:induction false} KeyAbsent(fields: seq<Field>, key: string)
    requires forall f :: f in fields ==> f.key != key
    ensures Get(fields, key).None?
  {
    if fields != [] {
      KeyAbsent(fields[1..], key);
    }
  }

  lemma FourKeys(a: string, b: string, c: string, d: string, x: Json, y: Json, z: Json, w: Json)
    requires a != b && a != c && a != d && b != c && b != d && c != d
    ensures CJ.DistinctKeys([Field(a, x), Field(b, y), Field(c, z), Field(d, w)])
  {
    var f := [Field(a, x), Field(b, y), Field(c, z), Field(d, w)];
    var f1, f2, f3 := f[1..], f[2..], f[3..];
    assert f1[1..] == f2 && f2[1..] == f3 && f3[1..] == [];
    KeyAbsent(f1, a);
    KeyAbsent(f2, b);
    KeyAbsent(f3, c);
    assert CJ.DistinctKeys(f3) && CJ.DistinctKeys(f2) && CJ.DistinctKeys(f1);
  }
}
