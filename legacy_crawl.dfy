/** The older crawl over the first storage backend. It reads settings as a
    possibly missing value rather than a result, and otherwise makes the same
    ordered writes as `AppleCrawl.CrawlAlbum`. The settings type of that
    backend is not part of this model beyond the shared-album URL it carries. */
module LegacyCrawl {
  import opened Wrappers
  import opened JsString
  import opened PublicAlbum
  import AppleCrawl

  datatype Settings = Settings(sharedAlbumUrl: string)

  /** The settings read as the newer crawl sees it: a missing value is a
      failed read. */
  function AsResult(settings: Option<Settings>): (r: Result<AppleCrawl.AppleSettings, string>)
    ensures r.Success? <==> settings.Some?
    ensures r.Success? ==> r.value.sharedAlbumUrl == settings.value.sharedAlbumUrl
  {
    match settings
    case None => Failure("User settings not found")
    case Some(s) => Success(AppleCrawl.AppleSettings("", s.sharedAlbumUrl))
  }

  /** `crawlAlbum` of the older backend: the record receives exactly the
      writes the newer crawl makes for the same inputs, in the same order,
      and the result and the fetch made are the same. */
  method CrawlAlbum(record: AppleCrawl.AlbumRecord, settings: Option<Settings>, stored: Result<Option<string>, string>, reply: AppleCrawl.FetchReply)
    returns (result: AppleCrawl.CrawlResult, request: Option<AppleCrawl.FetchRequest>)
    modifies record
    ensures var c := AppleCrawl.CrawlPlan(AsResult(settings), stored, reply);
      && record.writes == old(record.writes) + c.writes
      && record.State() == AppleCrawl.ApplyAll(old(record.State()), c.writes)
      && result == c.result && request == c.request
  {
    ghost var s0, log := record.State(), record.writes;
    var started := AppleCrawl.CrawlStatus(AppleCrawl.RefreshStarted);
    record.SetCrawlStatus(AppleCrawl.RefreshStarted);
    if settings.None? {
      record.SetCrawlStatus(AppleCrawl.AlbumNotSetUp);
      AppleCrawl.ApplyAllInOrder(s0, log, started, AppleCrawl.CrawlStatus(AppleCrawl.AlbumNotSetUp), started, started);
      return AppleCrawl.Returned(false, Some(AppleCrawl.NotSetUpError)), None;
    }
    var requestPartition := AppleCrawl.DefaultPartition;
    if stored.Success? && Truthy(stored.value) {
      requestPartition := stored.value.value;
    }
    var albumId := PublicAlbumId(settings.value.sharedAlbumUrl);
    request := Some(AppleCrawl.FetchRequest(requestPartition, albumId));
    if reply.FetchRaised? {
      AppleCrawl.ApplyAllInOrder(s0, log, started, started, started, started);
      return AppleCrawl.CrawlRaised, request;
    }
    var status := if reply.notFound then "not_found" else "found";
    var persisted := AppleCrawl.PartitionAndWebStream(reply.partition, reply.webStream);
    record.SetWebStreamStatus(status);
    record.SetPartitionAndWebStream(reply.partition, reply.webStream);
    if reply.webStream.None? || |reply.webStream.value.photos| == 0 {
      record.SetCrawlStatus(AppleCrawl.NoPhotosFound);
      AppleCrawl.ApplyAllInOrder(s0, log, started, AppleCrawl.WebStreamStatus(status), persisted, AppleCrawl.CrawlStatus(AppleCrawl.NoPhotosFound));
      return AppleCrawl.Returned(false, Some(AppleCrawl.NoPhotosError)), request;
    }
    record.SetCrawlStatus(AppleCrawl.Updated);
    AppleCrawl.ApplyAllInOrder(s0, log, started, AppleCrawl.WebStreamStatus(status), persisted, AppleCrawl.CrawlStatus(AppleCrawl.Updated));
    return AppleCrawl.Returned(true, None), request;
  }

  /** Missing settings end the older crawl with `Refresh failed, album not
      set up` after `Refresh started`, and nothing is fetched. */
  lemma MissingSettingsNotSetUp(stored: Result<Option<string>, string>, reply: AppleCrawl.FetchReply, before: AppleCrawl.Stored)
    ensures var c := AppleCrawl.CrawlPlan(AsResult(None), stored, reply);
      && c.request.None?
      && c.writes == [AppleCrawl.CrawlStatus(AppleCrawl.RefreshStarted), AppleCrawl.CrawlStatus(AppleCrawl.AlbumNotSetUp)]
      && AppleCrawl.ApplyAll(before, c.writes).crawlStatus == Some(AppleCrawl.AlbumNotSetUp)
      && c.result == AppleCrawl.Returned(false, Some(AppleCrawl.NotSetUpError))
  {
    var c := AppleCrawl.CrawlPlan(AsResult(None), stored, reply);
    AppleCrawl.LastWriteWins(before, c.writes);
  }
}
