/** The paged listing of the media items picked in a Google Photos picker
    session. The picker API is given as the sequence of replies the listing
    receives, one per request. */
module GoogleAlbum {
  import opened Wrappers
  import opened JsString

  datatype MediaType = Photo | Video | TypeUnspecified

  datatype MediaItem = MediaItem(id: string, mediaType: MediaType, baseUrl: string)

  /** One reply: the request raised, the body failed the schema, or a page
      of items with an optional token for the next page. */
  datatype PageReply = RequestRaised | Unparsable | MediaPage(mediaItems: seq<MediaItem>, nextPageToken: Option<string>)

  const ParseFailure: string := "Failed to parse media items response"

  datatype Listing = Listed(items: seq<MediaItem>) | ParseFailed(error: string) | ListingRaised | Unfinished

  /** The URLs requested, in order, and the outcome. */
  datatype ListRun = ListRun(urls: seq<string>, outcome: Listing)

  /** The request URL for a page: the session and a page size of 100, and
      the page token only when there is a non-empty one. */
  function PageUrl(sessionId: string, pageToken: Option<string>): string {
    "https://photospicker.googleapis.com/v1/mediaItems?sessionId=" + sessionId + "&pageSize=100"
      + (if Truthy(pageToken) then "&pageToken=" + pageToken.value else "")
  }

  /** The loop stops after a page without a non-empty token, or an empty page. */
  predicate LastPage(mediaItems: seq<MediaItem>, nextPageToken: Option<string>) {
    !Truthy(nextPageToken) || |mediaItems| == 0
  }

  /** The listing from the page `pageToken` names: each page's items, then
      the listing from its token, until the last page. */
  function ListFrom(sessionId: string, replies: seq<PageReply>, pageToken: Option<string>): (r: ListRun)
    ensures |r.urls| <= |replies|
    ensures |replies| > 0 ==> |r.urls| > 0 && r.urls[0] == PageUrl(sessionId, pageToken)
    ensures r.outcome.ParseFailed? ==> r.outcome.error == ParseFailure
    ensures r.outcome.Unfinished? ==> |r.urls| == |replies|
    decreases |replies|
  {
    if replies == [] then ListRun([], Unfinished)
    else
      var url := PageUrl(sessionId, pageToken);
      match replies[0]
      case RequestRaised => ListRun([url], ListingRaised)
      case Unparsable => ListRun([url], ParseFailed(ParseFailure))
      case MediaPage(items, next) =>
        if LastPage(items, next) then ListRun([url], Listed(items))
        else Prepend([url], items, ListFrom(sessionId, replies[1..], next))
  }

  /** A listing that already requested `urls` and collected `items`,
      followed by `r`. */
  function Prepend(urls: seq<string>, items: seq<MediaItem>, r: ListRun): ListRun {
    ListRun(urls + r.urls, match r.outcome case Listed(more) => Listed(items + more) case other => other)
  }

  /** Prepending twice is prepending the concatenations. */
  lemma PrependTwice(u1: seq<string>, i1: seq<MediaItem>, u2: seq<string>, i2: seq<MediaItem>, r: ListRun)
    ensures Prepend(u1, i1, Prepend(u2, i2, r)) == Prepend(u1 + u2, i1 + i2, r)
  {
    assert u1 + (u2 + r.urls) == (u1 + u2) + r.urls;
    if r.outcome.Listed? {
      assert i1 + (i2 + r.outcome.items) == (i1 + i2) + r.outcome.items;
    }
  }

  /** One page of the listing that is not the last one. */
  lemma ListFromStep(sessionId: string, replies: seq<PageReply>, i: nat, pageToken: Option<string>)
    requires i < |replies| && replies[i].MediaPage?
    requires !LastPage(replies[i].mediaItems, replies[i].nextPageToken)
    ensures ListFrom(sessionId, replies[i..], pageToken)
      == Prepend([PageUrl(sessionId, pageToken)], replies[i].mediaItems, ListFrom(sessionId, replies[i + 1..], replies[i].nextPageToken))
  {
    assert replies[i..][1..] == replies[i + 1..];
  }

  /** The items of a run of pages, concatenated. */
  function PagesItems(replies: seq<PageReply>): seq<MediaItem> {
    if replies == [] then []
    else (if replies[0].MediaPage? then replies[0].mediaItems else []) + PagesItems(replies[1..])
  }

  /** A completed listing read the pages up to the first last page: every
      earlier reply was a non-empty page with a token, each later request
      carries the previous page's token, and the result is the items of
      those pages concatenated in page order. */
  lemma {:induction false} ListingConcatenatesPages(sessionId: string, replies: seq<PageReply>, pageToken: Option<string>)
    ensures var r := ListFrom(sessionId, replies, pageToken);
      var n := |r.urls|;
      r.outcome.Listed? ==>
        && 0 < n <= |replies|
        && (forall k :: 0 <= k < n - 1 ==> replies[k].MediaPage? && !LastPage(replies[k].mediaItems, replies[k].nextPageToken))
        && replies[n - 1].MediaPage? && LastPage(replies[n - 1].mediaItems, replies[n - 1].nextPageToken)
        && (forall k :: 0 <= k < n - 1 ==> r.urls[k + 1] == PageUrl(sessionId, replies[k].nextPageToken))
        && r.outcome.items == PagesItems(replies[..n])
    decreases |replies|
  {
    var r := ListFrom(sessionId, replies, pageToken);
    if replies != [] && replies[0].MediaPage? {
      var n := |r.urls|;
      var items := replies[0].mediaItems;
      if LastPage(items, replies[0].nextPageToken) {
        assert replies[..1] == [replies[0]];
        assert PagesItems(replies[..1]) == items + PagesItems([]) == items;
      } else if r.outcome.Listed? {
        var rest := replies[1..];
        ListingConcatenatesPages(sessionId, rest, replies[0].nextPageToken);
        var tail := ListFrom(sessionId, rest, replies[0].nextPageToken);
        assert n == |tail.urls| + 1;
        forall k | 0 <= k < n - 1
          ensures replies[k].MediaPage? && !LastPage(replies[k].mediaItems, replies[k].nextPageToken)
          ensures r.urls[k + 1] == PageUrl(sessionId, replies[k].nextPageToken)
        {
          if k > 0 {
            assert replies[k] == rest[k - 1];
          }
        }
        assert replies[n - 1] == rest[n - 2];
        assert replies[..n] == [replies[0]] + rest[..n - 1];
        assert PagesItems(replies[..n]) == items + PagesItems(rest[..n - 1]);
      }
    }
  }

  /** A page that is empty ends the listing even when it carries a token,
      and a failed parse discards the items of the pages before it. */
  lemma ListingStopsAndDiscards(sessionId: string, first: seq<MediaItem>, token: string, later: seq<PageReply>)
    requires |first| > 0 && token != ""
    ensures ListFrom(sessionId, [MediaPage([], Some(token))] + later, None) == ListRun([PageUrl(sessionId, None)], Listed([]))
    ensures ListFrom(sessionId, [MediaPage(first, Some(token)), Unparsable] + later, None).outcome == ParseFailed(ParseFailure)
  {
    var replies := [MediaPage(first, Some(token)), Unparsable] + later;
    assert replies[1..][0] == Unparsable;
  }

  /** `listImagesInAlbum`: a `while (true)` loop that requests the page its
      token names, appends the page's items, takes the next token, and stops
      after the last page; a reply failing the schema returns the parse error. */
  method ListImagesInAlbum(sessionId: string, replies: seq<PageReply>) returns (urls: seq<string>, outcome: Listing)
    ensures ListRun(urls, outcome) == ListFrom(sessionId, replies, None)
  {
    var mediaItems: seq<MediaItem> := [];
    var nextPageToken: Option<string> := None;
    urls := [];
    var i := 0;
    assert replies[i..] == replies;
    while true
      invariant 0 <= i <= |replies|
      invariant Prepend(urls, mediaItems, ListFrom(sessionId, replies[i..], nextPageToken)) == ListFrom(sessionId, replies, None)
      decreases |replies| - i
    {
      if i == |replies| {
        return urls, Unfinished;
      }
      var url := PageUrl(sessionId, nextPageToken);
      match replies[i]
      case RequestRaised =>
        return urls + [url], ListingRaised;
      case Unparsable =>
        return urls + [url], ParseFailed(ParseFailure);
      case MediaPage(items, next) =>
        if !Truthy(next) || |items| == 0 {
          return urls + [url], Listed(mediaItems + items);
        }
        ListFromStep(sessionId, replies, i, nextPageToken);
        PrependTwice(urls, mediaItems, [url], items, ListFrom(sessionId, replies[i + 1..], next));
        urls := urls + [url];
        mediaItems := mediaItems + items;
        nextPageToken := next;
        i := i + 1;
    }
  }

  /** The number of items of type `PHOTO`. */
  function PhotoCount(items: seq<MediaItem>): (n: nat)
    ensures n <= |items|
  {
    if items == [] then 0 else (if items[0].mediaType == Photo then 1 else 0) + PhotoCount(items[1..])
  }

  /** Counting photos page by page adds up. */
  lemma {:induction false} PhotoCountAppend(a: seq<MediaItem>, b: seq<MediaItem>)
    ensures PhotoCount(a + b) == PhotoCount(a) + PhotoCount(b)
  {
    if a != [] {
      assert (a + b)[1..] == a[1..] + b;
      PhotoCountAppend(a[1..], b);
    } else {
      assert a + b == b;
    }
  }
}
