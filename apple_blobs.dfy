/** The two pieces of the album repository that hold logic of their own: the
    paged scan for users whose albums should be refreshed, and the crawl
    status read with its defaults. The table is given as the sequence of
    pages the scan receives, one per request. */
module AppleBlobs {
  import opened Wrappers

  /** A stored attribute: not in the item, stored as null, or a value. The
      scan's filter compares with `=== null` and `!== null`, so a missing
      attribute and a null one behave differently. */
  datatype Attr<T> = Missing | Null | Present(value: T)

  datatype ScanItem = ScanItem(id: string, uninstalledAt: Attr<int>, settings: Attr<string>)

  /** The filter of `listAlbumsToRefresh`. */
  predicate Refreshable(item: ScanItem) {
    item.uninstalledAt == Null && item.settings != Null
  }

  /** The ids of the refreshable items, in order. */
  function RefreshableIds(items: seq<ScanItem>): (ids: seq<string>)
    ensures |ids| <= |items|
  {
    if items == [] then []
    else (if Refreshable(items[0]) then [items[0].id] else []) + RefreshableIds(items[1..])
  }

  /** An id is listed exactly when some refreshable item carries it. */
  lemma {:induction false} RefreshableIdsMembers(items: seq<ScanItem>, id: string)
    ensures id in RefreshableIds(items) <==> exists i :: 0 <= i < |items| && items[i].id == id && Refreshable(items[i])
  {
    if items != [] {
      RefreshableIdsMembers(items[1..], id);
      if exists i :: 0 <= i < |items[1..]| && items[1..][i].id == id && Refreshable(items[1..][i]) {
        var i :| 0 <= i < |items[1..]| && items[1..][i].id == id && Refreshable(items[1..][i]);
        assert items[i + 1] == items[1..][i];
      }
      if exists i :: 0 <= i < |items| && items[i].id == id && Refreshable(items[i]) {
        var i :| 0 <= i < |items| && items[i].id == id && Refreshable(items[i]);
        if i > 0 {
          assert items[1..][i - 1] == items[i];
        }
      }
    }
  }

  /** Filtering pages one after another is filtering their concatenation. */
  lemma {:induction false} RefreshableIdsAppend(a: seq<ScanItem>, b: seq<ScanItem>)
    ensures RefreshableIds(a + b) == RefreshableIds(a) + RefreshableIds(b)
  {
    if a != [] {
      assert (a + b)[1..] == a[1..] + b;
      RefreshableIdsAppend(a[1..], b);
    } else {
      assert a + b == b;
    }
  }

  /** An item whose `uninstalled_at` attribute is missing rather than null is
      never listed, even with settings present. */
  lemma MissingUninstalledExcluded(id: string, settings: string)
    ensures RefreshableIds([ScanItem(id, Missing, Present(settings))]) == []
    ensures RefreshableIds([ScanItem(id, Null, Present(settings))]) == [id]
  {
  }

  /** One scan reply: a page (its items may be missing) with the key to
      continue from, or an error raised by the request. */
  datatype ScanReply = ScanRaised | Page(items: Option<seq<ScanItem>>, lastEvaluatedKey: Option<string>)

  datatype ListOutcome = Listed(ids: seq<string>) | ListRaised | Unfinished

  /** The start key sent with each request, in order, and the outcome. */
  datatype Scan = Scan(startKeys: seq<Option<string>>, outcome: ListOutcome)

  /** The scan from `start` on: each page's refreshable ids, then the scan
      from its `LastEvaluatedKey`, until a page comes without one. */
  function ScanFrom(replies: seq<ScanReply>, start: Option<string>): (r: Scan)
    ensures |r.startKeys| <= |replies|
    ensures |replies| > 0 ==> |r.startKeys| > 0 && r.startKeys[0] == start
    ensures r.outcome.Unfinished? ==> |r.startKeys| == |replies|
    decreases |replies|
  {
    if replies == [] then Scan([], Unfinished)
    else match replies[0]
      case ScanRaised => Scan([start], ListRaised)
      case Page(items, next) =>
        var ids := RefreshableIds(items.GetOr([]));
        if next.None? then Scan([start], Listed(ids))
        else Prepend([start], ids, ScanFrom(replies[1..], next))
  }

  /** A scan that already sent `keys` and collected `ids`, followed by `r`. */
  function Prepend(keys: seq<Option<string>>, ids: seq<string>, r: Scan): Scan {
    Scan(keys + r.startKeys, match r.outcome case Listed(more) => Listed(ids + more) case other => other)
  }

  /** Prepending twice is prepending the concatenations. */
  lemma PrependTwice(k1: seq<Option<string>>, i1: seq<string>, k2: seq<Option<string>>, i2: seq<string>, r: Scan)
    ensures Prepend(k1, i1, Prepend(k2, i2, r)) == Prepend(k1 + k2, i1 + i2, r)
  {
    assert k1 + (k2 + r.startKeys) == (k1 + k2) + r.startKeys;
    if r.outcome.Listed? {
      assert i1 + (i2 + r.outcome.ids) == (i1 + i2) + r.outcome.ids;
    }
  }

  /** One page of the scan that carries a key to go on from. */
  lemma ScanFromStep(replies: seq<ScanReply>, i: nat, start: Option<string>)
    requires i < |replies| && replies[i].Page? && replies[i].lastEvaluatedKey.Some?
    ensures ScanFrom(replies[i..], start)
      == Prepend([start], RefreshableIds(replies[i].items.GetOr([])), ScanFrom(replies[i + 1..], replies[i].lastEvaluatedKey))
  {
    assert replies[i..][1..] == replies[i + 1..];
  }

  /** The items of a run of pages, concatenated; a page without items adds none. */
  function PageItems(replies: seq<ScanReply>): seq<ScanItem> {
    if replies == [] then []
    else (if replies[0].Page? then replies[0].items.GetOr([]) else []) + PageItems(replies[1..])
  }

  /** A completed scan read exactly the pages up to the first one without a
      `LastEvaluatedKey`: every earlier reply was a page with a key, the
      first request started from nothing and each later one from the
      previous page's key, and the ids listed are the refreshable items of
      those pages, in scan order. */
  lemma {:induction false} ScanListsRefreshable(replies: seq<ScanReply>, start: Option<string>)
    ensures var r := ScanFrom(replies, start);
      var n := |r.startKeys|;
      r.outcome.Listed? ==>
        && 0 < n <= |replies|
        && (forall k :: 0 <= k < n - 1 ==> replies[k].Page? && replies[k].lastEvaluatedKey.Some?)
        && replies[n - 1].Page? && replies[n - 1].lastEvaluatedKey.None?
        && (forall k :: 0 <= k < n - 1 ==> r.startKeys[k + 1] == replies[k].lastEvaluatedKey)
        && r.outcome.ids == RefreshableIds(PageItems(replies[..n]))
    decreases |replies|
  {
    var r := ScanFrom(replies, start);
    if replies != [] && replies[0].Page? {
      var n := |r.startKeys|;
      var items := replies[0].items.GetOr([]);
      if replies[0].lastEvaluatedKey.None? {
        assert replies[..1] == [replies[0]];
        assert PageItems(replies[..1]) == items + PageItems([]) == items;
      } else if r.outcome.Listed? {
        var rest := replies[1..];
        ScanListsRefreshable(rest, replies[0].lastEvaluatedKey);
        var tail := ScanFrom(rest, replies[0].lastEvaluatedKey);
        assert n == |tail.startKeys| + 1;
        forall k | 0 <= k < n - 1
          ensures replies[k].Page? && replies[k].lastEvaluatedKey.Some?
          ensures r.startKeys[k + 1] == replies[k].lastEvaluatedKey
        {
          if k > 0 {
            assert replies[k] == rest[k - 1];
          }
        }
        assert replies[n - 1] == rest[n - 2];
        assert replies[..n] == [replies[0]] + rest[..n - 1];
        assert PageItems(replies[..n]) == items + PageItems(rest[..n - 1]);
        RefreshableIdsAppend(items, PageItems(rest[..n - 1]));
      }
    }
  }

  /** `listAlbumsToRefresh`: a do-while loop that requests a page from the
      last key, appends the page's refreshable ids, and stops after the
      first page without a `LastEvaluatedKey`. It never returns a failure:
      the only other outcomes are an error raised by a request, or the pages
      running out. */
  method ListAlbumsToRefresh(replies: seq<ScanReply>) returns (startKeys: seq<Option<string>>, outcome: ListOutcome)
    ensures Scan(startKeys, outcome) == ScanFrom(replies, None)
  {
    var lastEvaluatedKey: Option<string> := None;
    var userIdsToRefresh: seq<string> := [];
    startKeys := [];
    var i := 0;
    assert replies[i..] == replies;
    while true
      invariant 0 <= i <= |replies|
      invariant Prepend(startKeys, userIdsToRefresh, ScanFrom(replies[i..], lastEvaluatedKey)) == ScanFrom(replies, None)
      decreases |replies| - i
    {
      if i == |replies| {
        return startKeys, Unfinished;
      }
      var start := lastEvaluatedKey;
      match replies[i]
      case ScanRaised =>
        return startKeys + [start], ListRaised;
      case Page(items, next) =>
        var ids := RefreshableIds(items.GetOr([]));
        if next.None? {
          return startKeys + [start], Listed(userIdsToRefresh + ids);
        }
        ScanFromStep(replies, i, start);
        PrependTwice(startKeys, userIdsToRefresh, [start], ids, ScanFrom(replies[i + 1..], next));
        startKeys := startKeys + [start];
        userIdsToRefresh := userIdsToRefresh + ids;
        lastEvaluatedKey := next;
        i := i + 1;
    }
  }

  /** The crawl status read: a missing item is `User not found`; a missing
      status reads as `not_found`; a missing or zero fetch time reads as
      null. */
  datatype StatusItem = StatusItem(crawlStatus: Option<string>, fetchedAt: Option<int>)

  datatype CrawlStatusView = CrawlStatusView(status: string, fetchedAt: Option<int>)

  const UserNotFound: string := "User not found"
  const DefaultCrawlStatus: string := "not_found"

  /** `getCrawlStatus`. */
  function GetCrawlStatus(item: Option<StatusItem>): (r: Result<CrawlStatusView, string>)
    ensures r.Failure? <==> item.None?
    ensures r.Failure? ==> r.error == UserNotFound
    ensures r.Success? ==> r.value.status == item.value.crawlStatus.GetOr(DefaultCrawlStatus)
    ensures r.Success? ==> (r.value.fetchedAt.None? <==> item.value.fetchedAt.None? || item.value.fetchedAt == Some(0))
    ensures r.Success? && r.value.fetchedAt.Some? ==> r.value.fetchedAt == item.value.fetchedAt
  {
    match item
    case None => Failure(UserNotFound)
    case Some(it) =>
      var fetchedAt := if it.fetchedAt.Some? && it.fetchedAt.value != 0 then it.fetchedAt else None;
      Success(CrawlStatusView(it.crawlStatus.GetOr(DefaultCrawlStatus), fetchedAt))
  }
}
