/** Photo selection for the on-demand render path: fetch the album's web
    stream from the fixed `p142` partition, pick a photo at random, resolve
    its widest derivative to an asset URL (`getPhotos`), or resolve every
    photo in manifest order (`getAllUrls`). The stream and asset fetches are
    inputs: `None` stands for a fetch or schema parse that raised. */
module Photos {
  import opened Wrappers
  import opened JsString
  import opened PublicAlbum

  const NotSetUp: string := "The album is not set up yet."
  const NoPhotos: string := "No photos found in the shared album."
  const FixedPartition: string := "p142"

  datatype Settings = Settings(sharedAlbumUrl: string)

  datatype Request = StreamPost(url: string) | AssetPost(url: string, photoGuids: seq<string>)

  /** A returned value, a returned `{ success: false, error }`, or a raised error. */
  datatype Outcome<T> = Done(value: T) | Refused(error: string) | Raised

  /** The upstream requests made, in order, and the outcome. */
  datatype Run<T> = Run(requests: seq<Request>, outcome: Outcome<T>)

  function StreamUrl(albumId: Option<string>): string {
    WebStreamUrl(FixedPartition, albumId)
  }

  function AssetUrl(albumId: Option<string>): string {
    WebAssetUrl(FixedPartition, albumId)
  }

  /** `parseInt(a.width) > parseInt(b.width)` on parsed widths: a comparison
      with `NaN` (written `None`) is false. */
  predicate Greater(x: Option<int>, y: Option<int>) {
    x.Some? && y.Some? && x.value > y.value
  }

  /** The parsed width of each derivative, in enumeration order. */
  function Widths(ds: seq<Derivative>): (ws: seq<Option<int>>)
    ensures |ws| == |ds|
  {
    if ds == [] then [] else Widths(ds[..|ds| - 1]) + [ParseInt(ds[|ds| - 1].width)]
  }

  /** Entry `j` of `Widths` is the parse of derivative `j`'s width. */
  lemma {:induction false} WidthsAt(ds: seq<Derivative>, j: nat)
    requires j < |ds|
    ensures Widths(ds)[j] == ParseInt(ds[j].width)
  {
    if j < |ds| - 1 {
      WidthsAt(ds[..|ds| - 1], j);
    }
  }

  /** The index `reduce((a, b) => a > b ? a : b)` ends on, over parsed widths:
      the accumulator is kept only while it is strictly greater than the next
      entry, so a trailing `NaN` always wins. */
  function ReduceWidest(ws: seq<Option<int>>): (k: nat)
    requires |ws| > 0
    ensures k < |ws|
    ensures ws[|ws| - 1].None? ==> k == |ws| - 1
  {
    if |ws| == 1 then 0
    else
      var k := ReduceWidest(ws[..|ws| - 1]);
      if Greater(ws[k], ws[|ws| - 1]) then k else |ws| - 1
  }

  /** When every width parses, the reduction lands on a maximal width, and
      every later entry is strictly smaller: ties go to the later entry. */
  lemma {:induction false} ReduceWidestIsMax(ws: seq<Option<int>>)
    requires |ws| > 0 && forall j :: 0 <= j < |ws| ==> ws[j].Some?
    ensures var k := ReduceWidest(ws);
      && (forall j :: 0 <= j < |ws| ==> ws[j].value <= ws[k].value)
      && (forall j :: k < j < |ws| ==> ws[j].value < ws[k].value)
  {
    if |ws| > 1 {
      var init := ws[..|ws| - 1];
      assert forall j :: 0 <= j < |init| ==> init[j] == ws[j];
      ReduceWidestIsMax(init);
    }
  }

  /** The derivative `getPhotos` and `getAllUrls` resolve: the one the width
      reduction over `Object.values(photo.derivatives)` ends on. */
  function LargestDerivative(ds: seq<Derivative>): (k: nat)
    requires |ds| > 0
    ensures k < |ds|
  {
    ReduceWidest(Widths(ds))
  }

  /** A last derivative whose width does not parse is always chosen. */
  lemma LargestDerivativeTrailingNaN(ds: seq<Derivative>)
    requires |ds| > 0 && ParseInt(ds[|ds| - 1].width).None?
    ensures LargestDerivative(ds) == |ds| - 1
  {
    WidthsAt(ds, |ds| - 1);
  }

  /** When every width parses, the chosen derivative is one of greatest width,
      and no later derivative is as wide. */
  lemma LargestDerivativeIsWidest(ds: seq<Derivative>)
    requires |ds| > 0
    requires forall j :: 0 <= j < |ds| ==> ParseInt(ds[j].width).Some?
    ensures var k := LargestDerivative(ds);
      && (forall j :: 0 <= j < |ds| ==> ParseInt(ds[j].width).value <= ParseInt(ds[k].width).value)
      && (forall j :: k < j < |ds| ==> ParseInt(ds[j].width).value < ParseInt(ds[k].width).value)
  {
    forall j | 0 <= j < |ds| {
      WidthsAt(ds, j);
    }
    ReduceWidestIsMax(Widths(ds));
  }

  /** `Math.floor(Math.random() * n)` for a draw `u` in [0, 1). */
  function RandomIndex(u: real, n: nat): (i: nat)
    requires 0.0 <= u < 1.0 && n > 0
    ensures i < n
  {
    assert u * (n as real) < n as real by {
      assert (n as real) - u * (n as real) == (1.0 - u) * (n as real);
    }
    (u * (n as real)).Floor
  }

  /** The URL for one photo given its asset reply: `https://` followed by the
      location and path of the asset item keyed by the checksum of the
      derivative `LargestDerivative` picks. `None` is the `TypeError` raised
      when the photo has no derivatives or the key is missing. */
  function ResolveUrl(photo: StreamPhoto, asset: WebAsset): (r: Option<string>)
    ensures r.Some? <==> |photo.derivatives| > 0 && photo.derivatives[LargestDerivative(photo.derivatives)].checksum in asset.items
    ensures r.Some? ==>
      var item := asset.items[photo.derivatives[LargestDerivative(photo.derivatives)].checksum];
      r.value == "https://" + item.urlLocation + item.urlPath
  {
    if |photo.derivatives| == 0 then None
    else
      var d := photo.derivatives[LargestDerivative(photo.derivatives)];
      if d.checksum in asset.items then
        var item := asset.items[d.checksum];
        Some("https://" + item.urlLocation + item.urlPath)
      else None
  }

  /** `getPhotos`: settings missing gives an error and no request; a stream
      fetch that raised raises; an empty album gives an error after the
      stream request; otherwise one asset request names only the randomly
      chosen photo's guid, and the result is that photo's resolved URL, or an
      error raised when the asset fetch or the checksum lookup fails. */
  function GetPhotos(settings: Option<Settings>, stream: Option<WebStream>, u: real, asset: Option<WebAsset>): (r: Run<string>)
    requires 0.0 <= u < 1.0
    ensures settings.None? ==> r == Run([], Refused(NotSetUp))
    ensures settings.Some? ==>
      |r.requests| >= 1 && r.requests[0] == StreamPost(StreamUrl(PublicAlbumId(settings.value.sharedAlbumUrl)))
    ensures settings.Some? && stream.None? ==> |r.requests| == 1 && r.outcome == Raised
    ensures settings.Some? && stream.Some? && stream.value.photos == [] ==>
      |r.requests| == 1 && r.outcome == Refused(NoPhotos)
    ensures settings.Some? && stream.Some? && stream.value.photos != [] ==>
      var photos := stream.value.photos;
      var photo := photos[RandomIndex(u, |photos|)];
      && r.requests[1..] == [AssetPost(AssetUrl(PublicAlbumId(settings.value.sharedAlbumUrl)), [photo.photoGuid])]
      && (r.outcome.Done? <==> asset.Some? && ResolveUrl(photo, asset.value).Some?)
      && (r.outcome.Done? ==> ResolveUrl(photo, asset.value) == Some(r.outcome.value))
      && (!r.outcome.Done? ==> r.outcome == Raised)
    ensures r.outcome.Refused? ==> r.outcome.error == NotSetUp || r.outcome.error == NoPhotos
  {
    if settings.None? then Run([], Refused(NotSetUp))
    else
      var albumId := PublicAlbumId(settings.value.sharedAlbumUrl);
      var streamRequest := StreamPost(StreamUrl(albumId));
      if stream.None? then Run([streamRequest], Raised)
      else if |stream.value.photos| == 0 then Run([streamRequest], Refused(NoPhotos))
      else
        var photo := stream.value.photos[RandomIndex(u, |stream.value.photos|)];
        var requests := [streamRequest, AssetPost(AssetUrl(albumId), [photo.photoGuid])];
        if asset.None? then Run(requests, Raised)
        else
          match ResolveUrl(photo, asset.value)
          case Some(url) => Run(requests, Done(url))
          case None => Run(requests, Raised)
  }

  /** One photo's URL: its asset fetch must succeed and its URL resolve. */
  function UrlOf(photo: StreamPhoto, assetOf: string -> Option<WebAsset>): Option<string> {
    match assetOf(photo.photoGuid)
    case None => None
    case Some(a) => ResolveUrl(photo, a)
  }

  /** The index of the first photo whose URL cannot be resolved, or the
      number of photos when every one resolves. */
  function FirstFailure(photos: seq<StreamPhoto>, assetOf: string -> Option<WebAsset>): (n: nat)
    ensures n <= |photos|
    ensures forall i :: 0 <= i < n ==> UrlOf(photos[i], assetOf).Some?
    ensures n < |photos| ==> UrlOf(photos[n], assetOf).None?
  {
    if |photos| == 0 || UrlOf(photos[0], assetOf).None? then 0
    else
      var n := 1 + FirstFailure(photos[1..], assetOf);
      assert forall i :: 1 <= i < n ==> photos[i] == photos[1..][i - 1];
      n
  }

  function AssetPosts(albumId: Option<string>, photos: seq<StreamPhoto>): seq<Request> {
    seq(|photos|, i requires 0 <= i < |photos| => AssetPost(AssetUrl(albumId), [photos[i].photoGuid]))
  }

  /** Extending the prefix by one photo appends that photo's asset request. */
  lemma AssetPostsExtend(albumId: Option<string>, photos: seq<StreamPhoto>, i: nat)
    requires i < |photos|
    ensures AssetPosts(albumId, photos[..i + 1]) == AssetPosts(albumId, photos[..i]) + [AssetPost(AssetUrl(albumId), [photos[i].photoGuid])]
  {
    assert photos[..i + 1] == photos[..i] + [photos[i]];
  }

  /** The first `|urls|` photos resolve to `urls`, in order. */
  predicate Resolved(photos: seq<StreamPhoto>, assetOf: string -> Option<WebAsset>, urls: seq<string>) {
    |urls| <= |photos| && forall j :: 0 <= j < |urls| ==> UrlOf(photos[j], assetOf) == Some(urls[j])
  }

  /** Resolving the next photo extends the resolved prefix by its URL. */
  lemma ResolvedExtend(photos: seq<StreamPhoto>, assetOf: string -> Option<WebAsset>, urls: seq<string>, url: string)
    requires Resolved(photos, assetOf, urls) && |urls| < |photos|
    requires UrlOf(photos[|urls|], assetOf) == Some(url)
    ensures Resolved(photos, assetOf, urls + [url])
  {
    var next := urls + [url];
    forall j | 0 <= j < |next|
      ensures UrlOf(photos[j], assetOf) == Some(next[j])
    {
      if j < |urls| {
        assert next[j] == urls[j];
      }
    }
  }

  /** The loop of `getAllUrls`: one asset request per photo in manifest
      order, up to and including the first photo whose URL does not resolve
      (where it raises); when none fails, exactly one URL per photo, in
      manifest order, each that photo's resolved URL. */
  method ResolveAllUrls(albumId: Option<string>, photos: seq<StreamPhoto>, assetOf: string -> Option<WebAsset>)
    returns (posts: seq<Request>, urls: Option<seq<string>>)
    ensures var n := FirstFailure(photos, assetOf);
      posts == AssetPosts(albumId, photos[..if n < |photos| then n + 1 else n])
    ensures urls.Some? <==> FirstFailure(photos, assetOf) == |photos|
    ensures urls.Some? ==> |urls.value| == |photos|
    ensures urls.Some? ==> forall i :: 0 <= i < |photos| ==> UrlOf(photos[i], assetOf) == Some(urls.value[i])
  {
    posts := [];
    var found: seq<string> := [];
    var i := 0;
    while i < |photos|
      invariant 0 <= i <= |photos|
      invariant i <= FirstFailure(photos, assetOf)
      invariant posts == AssetPosts(albumId, photos[..i])
      invariant |found| == i
      invariant Resolved(photos, assetOf, found)
    {
      var photo := photos[i];
      posts := posts + [AssetPost(AssetUrl(albumId), [photo.photoGuid])];
      AssetPostsExtend(albumId, photos, i);
      var url := UrlOf(photo, assetOf);
      if url.None? {
        return posts, None;
      }
      assert i + 1 <= FirstFailure(photos, assetOf);
      ResolvedExtend(photos, assetOf, found, url.value);
      found := found + [url.value];
      i := i + 1;
    }
    assert photos[..i] == photos;
    return posts, Some(found);
  }

  /** `getAllUrls`: settings missing gives an error and no request; an empty
      album gives an error after the stream request; otherwise the stream
      request is followed by the asset requests of `ResolveAllUrls`, and the
      result is its URL list, or a raised error. */
  method GetAllUrls(settings: Option<Settings>, stream: Option<WebStream>, assetOf: string -> Option<WebAsset>)
    returns (r: Run<seq<string>>)
    ensures settings.None? ==> r == Run([], Refused(NotSetUp))
    ensures settings.Some? && stream.None? ==>
      r == Run([StreamPost(StreamUrl(PublicAlbumId(settings.value.sharedAlbumUrl)))], Raised)
    ensures settings.Some? && stream.Some? && stream.value.photos == [] ==>
      r == Run([StreamPost(StreamUrl(PublicAlbumId(settings.value.sharedAlbumUrl)))], Refused(NoPhotos))
    ensures settings.Some? && stream.Some? && stream.value.photos != [] ==>
      var albumId := PublicAlbumId(settings.value.sharedAlbumUrl);
      var photos := stream.value.photos;
      var n := FirstFailure(photos, assetOf);
      && r.requests == [StreamPost(StreamUrl(albumId))] + AssetPosts(albumId, photos[..if n < |photos| then n + 1 else n])
      && (r.outcome.Done? <==> n == |photos|)
      && (r.outcome.Done? ==> |r.outcome.value| == |photos|)
      && (r.outcome.Done? ==> forall i :: 0 <= i < |photos| ==> UrlOf(photos[i], assetOf) == Some(r.outcome.value[i]))
      && (!r.outcome.Done? ==> r.outcome == Raised)
  {
    if settings.None? {
      return Run([], Refused(NotSetUp));
    }
    var albumId := PublicAlbumId(settings.value.sharedAlbumUrl);
    var streamRequest := StreamPost(StreamUrl(albumId));
    if stream.None? {
      return Run([streamRequest], Raised);
    }
    var photos := stream.value.photos;
    if |photos| == 0 {
      return Run([streamRequest], Refused(NoPhotos));
    }
    var posts, urls := ResolveAllUrls(albumId, photos, assetOf);
    if urls.None? {
      return Run([streamRequest] + posts, Raised);
    }
    return Run([streamRequest] + posts, Done(urls.value));
  }
}
