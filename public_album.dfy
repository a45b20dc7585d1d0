/** The public shared-album client: album id and partition extraction, the
    web-stream fetch that chases partition redirects, and the web-asset
    fetch. The upstream is a sequence of replies, one per request, in the
    order the requests are made. */
module PublicAlbum {
  import opened Wrappers
  import opened JsString

  datatype Derivative = Derivative(fileSize: string, checksum: string, width: string, height: string)

  /** One manifest entry. `derivatives` holds the values of the derivative
      record in the order `Object.values` enumerates them. */
  datatype StreamPhoto = StreamPhoto(
    batchGuid: Option<string>,
    derivatives: seq<Derivative>,
    photoGuid: string,
    width: Option<string>,
    height: Option<string>,
    mediaAssetType: Option<string>)

  datatype WebStream = WebStream(streamName: string, photos: seq<StreamPhoto>)

  /** `sharedAlbumUrl.split('#')[1]`: the text between the first `#` and the
      next one (or the end); `undefined` when there is no `#`. */
  function PublicAlbumId(sharedAlbumUrl: string): (r: Option<string>)
    ensures r.None? <==> '#' !in sharedAlbumUrl
    ensures r.Some? ==> '#' !in r.value && exists i :: HashSegmentAt(sharedAlbumUrl, i, r.value)
  {
    var parts := Split(sharedAlbumUrl, '#');
    SplitHead(sharedAlbumUrl, '#');
    if |parts| > 1 then
      var i := |parts[0]|;
      SplitHead(sharedAlbumUrl[i + 1..], '#');
      assert HashSegmentAt(sharedAlbumUrl, i, parts[1]) by {
        assert '#' !in sharedAlbumUrl[..i] by { assert sharedAlbumUrl[..i] == parts[0]; }
        assert sharedAlbumUrl[i + 1..][..|parts[1]|] == sharedAlbumUrl[i + 1..i + 1 + |parts[1]|];
      }
      Some(parts[1])
    else
      None
  }

  /** `url[i]` is the first `#` of `url`, and `id` is the `#`-free text that
      follows it up to the next `#` or the end. */
  predicate HashSegmentAt(url: string, i: int, id: string) {
    && 0 <= i < |url|
    && url[i] == '#'
    && '#' !in url[..i]
    && i + 1 + |id| <= |url|
    && url[i + 1..i + 1 + |id|] == id
    && (i + 1 + |id| == |url| || url[i + 1 + |id|] == '#')
  }

  /** `host.split('-')[0]`: the host up to its first `-`, or the whole host. */
  function HostPartition(host: string): (r: string)
    ensures r <= host && '-' !in r
    ensures |r| == |host| || host[|r|] == '-'
  {
    SplitHead(host, '-');
    Split(host, '-')[0]
  }

  /** Any separator-free prefix of the host that ends at its end or at a `-`
      is the partition. */
  lemma HostPartitionUnique(host: string, p: string)
    requires p <= host && '-' !in p
    requires |p| == |host| || host[|p|] == '-'
    ensures HostPartition(host) == p
  {
  }

  /** The redirect host named in the source's comment maps to `p159`. */
  lemma HostPartitionExample()
    ensures HostPartition("p159-sharedstreams.icloud.com") == "p159"
  {
    var host := "p159-sharedstreams.icloud.com";
    assert host[..4] == "p159";
    assert host[4] == '-';
    HostPartitionUnique(host, "p159");
  }

  /** What the reply body offers to the schema union: whether it is a valid
      web stream, and whether it carries a string `X-Apple-MMe-Host`. */
  datatype WebStreamPayload = WebStreamPayload(asStream: Option<WebStream>, redirectHost: Option<string>)

  datatype Parsed = Stream(webStream: WebStream) | Redirect(host: string) | Malformed

  /** The union tries the web-stream schema before the redirect schema. */
  function ParsePayload(p: WebStreamPayload): Parsed {
    if p.asStream.Some? then Stream(p.asStream.value)
    else if p.redirectHost.Some? then Redirect(p.redirectHost.value)
    else Malformed
  }

  function WebStreamUrl(partition: string, albumId: Option<string>): string {
    "https://" + partition + "-sharedstreams.icloud.com/" + Text(albumId) + "/sharedstreams/webstream"
  }

  /** `Fetched` is the returned pair; `Threw` is the error raised on a reply
      matching neither schema, naming the requested URL; `Unresolved` means
      the replies ran out while redirects were still being followed. */
  datatype FetchOutcome = Fetched(webStream: WebStream, partition: string) | Threw(url: string) | Unresolved

  /** The URLs requested, in order, and the outcome. */
  datatype Chase = Chase(requests: seq<string>, outcome: FetchOutcome)

  /** `fetchPublicAlbumWebStream(partition, albumId)`: POST to the partition's
      web-stream URL; a stream is returned with the partition that served it,
      a redirect starts the same fetch over on the partition named by its
      host, anything else raises. There is no depth bound: only the length of
      `replies` limits the chase. */
  function FetchPublicAlbumWebStream(partition: string, albumId: Option<string>, replies: seq<WebStreamPayload>): (c: Chase)
    ensures |c.requests| <= |replies|
    ensures c.outcome.Unresolved? <==> |c.requests| == |replies| && forall k :: 0 <= k < |replies| ==> ParsePayload(replies[k]).Redirect?
    decreases |replies|
  {
    if |replies| == 0 then Chase([], Unresolved)
    else
      var url := WebStreamUrl(partition, albumId);
      match ParsePayload(replies[0])
      case Stream(s) => Chase([url], Fetched(s, partition))
      case Malformed => Chase([url], Threw(url))
      case Redirect(host) =>
        var rest := FetchPublicAlbumWebStream(HostPartition(host), albumId, replies[1..]);
        assert forall k :: 1 <= k < |replies| ==> replies[k] == replies[1..][k - 1];
        Chase([url] + rest.requests, rest.outcome)
  }

  /** A stream without photos is a stream like any other: it is returned as
      fetched, even when the reply also names a redirect host. */
  lemma EmptyStreamFetched(partition: string, albumId: Option<string>, name: string, host: Option<string>, later: seq<WebStreamPayload>)
    ensures FetchPublicAlbumWebStream(partition, albumId, [WebStreamPayload(Some(WebStream(name, [])), host)] + later)
      == Chase([WebStreamUrl(partition, albumId)], Fetched(WebStream(name, []), partition))
  {
  }

  /** The number of leading replies that are redirects. */
  function LeadingRedirects(replies: seq<WebStreamPayload>): (n: nat)
    ensures n <= |replies|
    ensures forall k :: 0 <= k < n ==> ParsePayload(replies[k]).Redirect?
    ensures n < |replies| ==> !ParsePayload(replies[n]).Redirect?
  {
    if |replies| > 0 && ParsePayload(replies[0]).Redirect? then
      var n := 1 + LeadingRedirects(replies[1..]);
      assert forall k :: 1 <= k < n ==> replies[k] == replies[1..][k - 1];
      n
    else 0
  }

  /** The partition of request `k`: the starting one, then the partition of
      the host named by the previous redirect. */
  function RequestPartition(partition: string, replies: seq<WebStreamPayload>, k: nat): string
    requires k <= LeadingRedirects(replies)
  {
    if k == 0 then partition else HostPartition(ParsePayload(replies[k - 1]).host)
  }

  /** The chase issues one request per leading redirect plus one, each for
      the same album on the partition the previous redirect named; it ends
      with the first non-redirect reply: a stream is returned with the
      partition of the request that got it, anything else raises. */
  lemma {:induction false} ChaseCharacterized(partition: string, albumId: Option<string>, replies: seq<WebStreamPayload>)
    ensures var c := FetchPublicAlbumWebStream(partition, albumId, replies);
      var n := LeadingRedirects(replies);
      && |c.requests| == (if n < |replies| then n + 1 else n)
      && (forall k :: 0 <= k < |c.requests| ==> c.requests[k] == WebStreamUrl(RequestPartition(partition, replies, k), albumId))
      && (n == |replies| ==> c.outcome == Unresolved)
      && (n < |replies| && ParsePayload(replies[n]).Stream? ==>
            c.outcome == Fetched(ParsePayload(replies[n]).webStream, RequestPartition(partition, replies, n)))
      && (n < |replies| && ParsePayload(replies[n]).Malformed? ==> c.outcome == Threw(c.requests[n]))
    decreases |replies|
  {
    if |replies| > 0 && ParsePayload(replies[0]).Redirect? {
      var p' := HostPartition(ParsePayload(replies[0]).host);
      var tail := replies[1..];
      ChaseCharacterized(p', albumId, tail);
      var n := LeadingRedirects(replies);
      assert LeadingRedirects(tail) == n - 1;
      forall k | 0 <= k <= n - 1
        ensures RequestPartition(p', tail, k) == RequestPartition(partition, replies, k + 1)
      {
        if k > 0 {
          assert tail[k - 1] == replies[k];
        }
      }
      var c := FetchPublicAlbumWebStream(partition, albumId, replies);
      var rest := FetchPublicAlbumWebStream(p', albumId, tail);
      assert c.requests == [WebStreamUrl(partition, albumId)] + rest.requests;
      forall k | 0 < k < |c.requests|
        ensures c.requests[k] == WebStreamUrl(RequestPartition(partition, replies, k), albumId)
      {
        assert c.requests[k] == rest.requests[k - 1];
      }
      if n < |replies| {
        assert tail[n - 1] == replies[n];
        assert c.requests[n] == rest.requests[n - 1];
      }
    }
  }

  /** However long a chain of redirects is, a stream at its end is returned,
      with the partition named by the last redirect. */
  lemma RedirectChainIsFollowed(partition: string, albumId: Option<string>, hosts: seq<string>, s: WebStream)
    ensures var replies := seq(|hosts|, k requires 0 <= k < |hosts| => WebStreamPayload(None, Some(hosts[k]))) + [WebStreamPayload(Some(s), None)];
      FetchPublicAlbumWebStream(partition, albumId, replies).outcome
        == Fetched(s, if |hosts| == 0 then partition else HostPartition(hosts[|hosts| - 1]))
  {
    var replies := seq(|hosts|, k requires 0 <= k < |hosts| => WebStreamPayload(None, Some(hosts[k]))) + [WebStreamPayload(Some(s), None)];
    assert forall k :: 0 <= k < |hosts| ==> ParsePayload(replies[k]) == Redirect(hosts[k]);
    assert ParsePayload(replies[|hosts|]) == Stream(s);
    assert LeadingRedirects(replies) == |hosts|;
    ChaseCharacterized(partition, albumId, replies);
  }

  datatype AssetItem = AssetItem(urlExpiry: string, urlLocation: string, urlPath: string)

  datatype WebAsset = WebAsset(items: map<string, AssetItem>)

  datatype AssetRequest = AssetRequest(url: string, photoGuids: seq<string>)

  /** The HTTP status and whether the body parsed against the asset schema. */
  datatype AssetReply = AssetReply(status: int, body: Option<WebAsset>)

  datatype AssetError = BadStatus(url: string, status: int) | BadBody(url: string)

  function WebAssetUrl(partition: string, albumId: Option<string>): string {
    "https://" + partition + "-sharedstreams.icloud.com/" + Text(albumId) + "/sharedstreams/webasseturls"
  }

  /** `fetchPublicAlbumWebAsset`: one request naming exactly the one guid; any
      status other than 200 raises before the body is parsed, and a body that
      does not parse raises too. */
  function FetchPublicAlbumWebAsset(partition: string, albumId: Option<string>, photoGuid: string, reply: AssetReply)
    : (r: (AssetRequest, Result<WebAsset, AssetError>))
    ensures r.0.photoGuids == [photoGuid]
    ensures r.1.Success? <==> reply.status == 200 && reply.body.Some?
    ensures r.1.Success? ==> r.1.value == reply.body.value
    ensures reply.status != 200 ==> r.1.Failure? && r.1.error.BadStatus?
  {
    var url := WebAssetUrl(partition, albumId);
    var request := AssetRequest(url, [photoGuid]);
    if reply.status != 200 then (request, Failure(BadStatus(url, reply.status)))
    else if reply.body.None? then (request, Failure(BadBody(url)))
    else (request, Success(reply.body.value))
  }
}
