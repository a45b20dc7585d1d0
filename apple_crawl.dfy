/** The crawl of one user's shared album: an ordered series of writes to the
    user's stored record (crawl status, web-stream status, partition and
    stream). The settings read, the stored-partition read and the web-stream
    fetch are inputs; the record is a small class that applies each write. */
module AppleCrawl {
  import opened Wrappers
  import opened JsString
  import opened PublicAlbum

  const RefreshStarted: string := "Refresh started"
  const AlbumNotSetUp: string := "Refresh failed, album not set up"
  const NoPhotosFound: string := "Refresh failed, no photos found"
  const Updated: string := "Updated"
  const DefaultPartition: string := "p123"
  const NotSetUpError: string := "The album has not been set up yet."
  const NoPhotosError: string := "No photos found in the shared album. :-/"

  datatype AppleSettings = AppleSettings(uuid: string, sharedAlbumUrl: string)

  /** What the crawl destructures from the web-stream fetch, or the error it
      raised. `webStream` and `notFound` may be missing from the value. */
  datatype FetchReply =
    | FetchRaised
    | FetchDone(webStream: Option<WebStream>, partition: string, notFound: bool)

  /** The value returned, or an error raised out of the crawl. */
  datatype CrawlResult = Returned(success: bool, error: Option<string>) | CrawlRaised

  /** One write to the user's record. */
  datatype Write =
    | CrawlStatus(status: string)
    | WebStreamStatus(webStreamStatus: string)
    | PartitionAndWebStream(partition: string, webStream: Option<WebStream>)

  /** The stored fields the crawl writes; `None` is a field never written. */
  datatype Stored = Stored(
    crawlStatus: Option<string>,
    webStreamStatus: Option<string>,
    partition: Option<string>,
    webStream: Option<WebStream>)

  function Apply(s: Stored, w: Write): Stored {
    match w
    case CrawlStatus(status) => s.(crawlStatus := Some(status))
    case WebStreamStatus(status) => s.(webStreamStatus := Some(status))
    case PartitionAndWebStream(p, ws) =>
      // the stream blob is uploaded only when there is one; otherwise the stored one stays
      s.(partition := Some(p), webStream := if ws.Some? then ws else s.webStream)
  }

  function ApplyAll(s: Stored, ws: seq<Write>): Stored {
    if ws == [] then s else Apply(ApplyAll(s, ws[..|ws| - 1]), ws[|ws| - 1])
  }

  /** The fetch a crawl makes: the partition and album id it asks for. */
  datatype FetchRequest = FetchRequest(partition: string, albumId: Option<string>)

  /** The writes made, in order, the fetch made (if any), and the result. */
  datatype Crawl = Crawl(writes: seq<Write>, request: Option<FetchRequest>, result: CrawlResult)

  /** `request_partition`: the stored partition when it was read and is
      non-empty, otherwise `p123`. */
  function RequestPartition(stored: Result<Option<string>, string>): (p: string)
    ensures stored.Success? && Truthy(stored.value) ==> p == stored.value.value
    ensures !(stored.Success? && Truthy(stored.value)) ==> p == DefaultPartition
    ensures p != ""
  {
    if stored.Success? && Truthy(stored.value) then stored.value.value else DefaultPartition
  }

  /** What `crawlAlbum` does, as a whole: the writes, the fetch and the result. */
  function CrawlPlan(settings: Result<AppleSettings, string>, stored: Result<Option<string>, string>, reply: FetchReply): (c: Crawl)
    ensures |c.writes| >= 1 && c.writes[0] == CrawlStatus(RefreshStarted)
    ensures settings.Failure? <==> c.request.None?
    ensures settings.Failure? ==>
      c == Crawl([CrawlStatus(RefreshStarted), CrawlStatus(AlbumNotSetUp)], None, Returned(false, Some(NotSetUpError)))
    ensures settings.Success? ==>
      c.request == Some(FetchRequest(RequestPartition(stored), PublicAlbumId(settings.value.sharedAlbumUrl)))
    ensures settings.Success? && reply.FetchRaised? ==> c.writes == [CrawlStatus(RefreshStarted)] && c.result == CrawlRaised
    ensures settings.Success? && reply.FetchDone? ==>
      && |c.writes| == 4
      && c.writes[1] == WebStreamStatus(if reply.notFound then "not_found" else "found")
      && c.writes[2] == PartitionAndWebStream(reply.partition, reply.webStream)
    ensures settings.Success? && reply.FetchDone? ==>
      var hasPhotos := reply.webStream.Some? && |reply.webStream.value.photos| > 0;
      && (hasPhotos ==> c.writes[3] == CrawlStatus(Updated) && c.result == Returned(true, None))
      && (!hasPhotos ==> c.writes[3] == CrawlStatus(NoPhotosFound) && c.result == Returned(false, Some(NoPhotosError)))
    ensures c.result.Returned? ==> (c.result.success <==> c.writes[|c.writes| - 1] == CrawlStatus(Updated))
  {
    var started := CrawlStatus(RefreshStarted);
    if settings.Failure? then
      Crawl([started, CrawlStatus(AlbumNotSetUp)], None, Returned(false, Some(NotSetUpError)))
    else
      var request := FetchRequest(RequestPartition(stored), PublicAlbumId(settings.value.sharedAlbumUrl));
      match reply
      case FetchRaised => Crawl([started], Some(request), CrawlRaised)
      case FetchDone(webStream, partition, notFound) =>
        var found := WebStreamStatus(if notFound then "not_found" else "found");
        var persisted := PartitionAndWebStream(partition, webStream);
        if webStream.None? || |webStream.value.photos| == 0 then
          Crawl([started, found, persisted, CrawlStatus(NoPhotosFound)], Some(request), Returned(false, Some(NoPhotosError)))
        else
          Crawl([started, found, persisted, CrawlStatus(Updated)], Some(request), Returned(true, None))
  }

  /** Whatever the record held before, the crawl status a crawl leaves behind
      is one of the three terminal statuses when it returns, `Updated`
      exactly when it succeeds, and still `Refresh started` when the fetch
      raised. */
  lemma CrawlLeavesStatus(settings: Result<AppleSettings, string>, stored: Result<Option<string>, string>, reply: FetchReply, before: Stored)
    ensures var c := CrawlPlan(settings, stored, reply);
      var status := ApplyAll(before, c.writes).crawlStatus;
      && (c.result.Returned? ==> status in {Some(Updated), Some(AlbumNotSetUp), Some(NoPhotosFound)})
      && (c.result.Returned? ==> (c.result.success <==> status == Some(Updated)))
      && (c.result.CrawlRaised? ==> status == Some(RefreshStarted))
  {
    var c := CrawlPlan(settings, stored, reply);
    LastWriteWins(before, c.writes);
  }

  /** After a completed fetch the record holds the partition that served the
      stream and the stream itself (possibly empty), or still the stream it
      held before when the fetch returned none; the
      web-stream status is `not_found` exactly when the fetch said so, and the
      crawl status is `Updated` exactly when the stream has photos. */
  lemma CrawlPersistsFetch(settings: AppleSettings, stored: Result<Option<string>, string>, reply: FetchReply, before: Stored)
    requires reply.FetchDone?
    ensures var after := ApplyAll(before, CrawlPlan(Success(settings), stored, reply).writes);
      && after.partition == Some(reply.partition)
      && (reply.webStream.Some? ==> after.webStream == reply.webStream)
      && (reply.webStream.None? ==> after.webStream == before.webStream)
      && (after.webStreamStatus == Some("not_found") <==> reply.notFound)
      && (after.webStreamStatus == Some("found") <==> !reply.notFound)
      && after.crawlStatus == Some(if reply.webStream.Some? && |reply.webStream.value.photos| > 0 then Updated else NoPhotosFound)
  {
    var ws := CrawlPlan(Success(settings), stored, reply).writes;
    var status := if reply.notFound then "not_found" else "found";
    ApplyAllInOrder(before, [], ws[0], ws[1], ws[2], ws[3]);
    assert ApplyAll(before, ws).webStreamStatus == Some(status);
    assert "not_found"[0] != "found"[0];
  }

  /** The crawl status after a series of writes is the one of the last status
      write, or the earlier one when there is none. */
  function LastStatus(before: Option<string>, ws: seq<Write>): Option<string> {
    if ws == [] then before
    else if ws[|ws| - 1].CrawlStatus? then Some(ws[|ws| - 1].status)
    else LastStatus(before, ws[..|ws| - 1])
  }

  lemma {:induction false} LastWriteWins(before: Stored, ws: seq<Write>)
    ensures ApplyAll(before, ws).crawlStatus == LastStatus(before.crawlStatus, ws)
  {
    if ws != [] {
      LastWriteWins(before, ws[..|ws| - 1]);
    }
  }

  /** The fetch outcome of the public-album client, as the crawl consumes it:
      the stream and the partition that served it; the client raises on a
      malformed reply and never reports `notFound`. `None` when the replies
      ran out mid-chase: nothing is claimed about such a crawl. */
  function FromChase(outcome: FetchOutcome): (r: Option<FetchReply>)
    ensures r.None? <==> outcome.Unresolved?
    ensures r == Some(FetchRaised) <==> outcome.Threw?
    ensures r.Some? && r.value.FetchDone? ==>
      !r.value.notFound && r.value.webStream == Some(outcome.webStream) && r.value.partition == outcome.partition
  {
    match outcome
    case Fetched(webStream, partition) => Some(FetchDone(Some(webStream), partition, false))
    case Threw(_) => Some(FetchRaised)
    case Unresolved => None
  }

  /** With the public-album client as the fetcher, a crawl never records
      `not_found`: the status is `found` after every completed fetch. */
  lemma ChaseNeverNotFound(settings: AppleSettings, stored: Result<Option<string>, string>, replies: seq<WebStreamPayload>, before: Stored)
    ensures var request := CrawlPlan(Success(settings), stored, FetchRaised).request.value;
      var reply := FromChase(FetchPublicAlbumWebStream(request.partition, request.albumId, replies).outcome);
      reply.Some? && reply.value.FetchDone? ==>
        ApplyAll(before, CrawlPlan(Success(settings), stored, reply.value).writes).webStreamStatus == Some("found")
  {
    var request := CrawlPlan(Success(settings), stored, FetchRaised).request.value;
    var reply := FromChase(FetchPublicAlbumWebStream(request.partition, request.albumId, replies).outcome);
    if reply.Some? && reply.value.FetchDone? {
      CrawlPersistsFetch(settings, stored, reply.value, before);
    }
  }

  class AlbumRecord {
    var crawlStatus: Option<string>
    var webStreamStatus: Option<string>
    var partition: Option<string>
    var webStream: Option<WebStream>
    var writes: seq<Write>

    constructor (s: Stored)
      ensures State() == s && writes == []
    {
      crawlStatus, webStreamStatus, partition, webStream := s.crawlStatus, s.webStreamStatus, s.partition, s.webStream;
      writes := [];
    }

    function State(): Stored
      reads this
    {
      Stored(crawlStatus, webStreamStatus, partition, webStream)
    }

    /** `setCrawlStatus`. */
    method SetCrawlStatus(status: string)
      modifies this
      ensures State() == Apply(old(State()), CrawlStatus(status))
      ensures writes == old(writes) + [CrawlStatus(status)]
    {
      crawlStatus := Some(status);
      writes := writes + [CrawlStatus(status)];
    }

    /** `setWebStreamStatus`. */
    method SetWebStreamStatus(status: string)
      modifies this
      ensures State() == Apply(old(State()), WebStreamStatus(status))
      ensures writes == old(writes) + [WebStreamStatus(status)]
    {
      webStreamStatus := Some(status);
      writes := writes + [WebStreamStatus(status)];
    }

    /** `setPartitionAndWebStream`: the partition is always written, the
        stream only when there is one. */
    method SetPartitionAndWebStream(p: string, ws: Option<WebStream>)
      modifies this
      ensures State() == Apply(old(State()), PartitionAndWebStream(p, ws))
      ensures writes == old(writes) + [PartitionAndWebStream(p, ws)]
    {
      partition := Some(p);
      if ws.Some? {
        webStream := ws;
      }
      writes := writes + [PartitionAndWebStream(p, ws)];
    }
  }

  /** Applying one, two or four writes is applying them one after another,
      and logging them one after another is logging them together. */
  lemma ApplyAllInOrder(s: Stored, log: seq<Write>, a: Write, b: Write, c: Write, d: Write)
    ensures ApplyAll(s, [a]) == Apply(s, a)
    ensures ApplyAll(s, [a, b]) == Apply(Apply(s, a), b)
    ensures ApplyAll(s, [a, b, c, d]) == Apply(Apply(Apply(Apply(s, a), b), c), d)
    ensures log + [a] + [b] == log + [a, b]
    ensures log + [a] + [b] + [c] + [d] == log + [a, b, c, d]
  {
    assert [a, b, c, d][..3] == [a, b, c];
    assert [a, b, c][..2] == [a, b];
    assert [a, b][..1] == [a];
  }

  /** `crawlAlbum`: the record receives exactly the writes of `CrawlPlan`, in
      order, and the crawl returns (or raises) as `CrawlPlan` says. */
  method CrawlAlbum(record: AlbumRecord, settings: Result<AppleSettings, string>, stored: Result<Option<string>, string>, reply: FetchReply)
    returns (result: CrawlResult, request: Option<FetchRequest>)
    modifies record
    ensures var c := CrawlPlan(settings, stored, reply);
      && record.writes == old(record.writes) + c.writes
      && record.State() == ApplyAll(old(record.State()), c.writes)
      && result == c.result && request == c.request
  {
    ghost var s0, log := record.State(), record.writes;
    var started := CrawlStatus(RefreshStarted);
    record.SetCrawlStatus(RefreshStarted);
    if settings.Failure? {
      record.SetCrawlStatus(AlbumNotSetUp);
      ApplyAllInOrder(s0, log, started, CrawlStatus(AlbumNotSetUp), started, started);
      return Returned(false, Some(NotSetUpError)), None;
    }
    var requestPartition := DefaultPartition;
    if stored.Success? && Truthy(stored.value) {
      requestPartition := stored.value.value;
    }
    var albumId := PublicAlbumId(settings.value.sharedAlbumUrl);
    request := Some(FetchRequest(requestPartition, albumId));
    if reply.FetchRaised? {
      ApplyAllInOrder(s0, log, started, started, started, started);
      return CrawlRaised, request;
    }
    var found := WebStreamStatus(if reply.notFound then "not_found" else "found");
    var persisted := PartitionAndWebStream(reply.partition, reply.webStream);
    record.SetWebStreamStatus(if reply.notFound then "not_found" else "found");
    record.SetPartitionAndWebStream(reply.partition, reply.webStream);
    if reply.webStream.None? || |reply.webStream.value.photos| == 0 {
      record.SetCrawlStatus(NoPhotosFound);
      ApplyAllInOrder(s0, log, started, found, persisted, CrawlStatus(NoPhotosFound));
      return Returned(false, Some(NoPhotosError)), request;
    }
    record.SetCrawlStatus(Updated);
    ApplyAllInOrder(s0, log, started, found, persisted, CrawlStatus(Updated));
    return Returned(true, None), request;
  }
}
