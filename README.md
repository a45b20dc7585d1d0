# trmnl photo album sync — a Dafny model

This project models the core of a TRMNL plugin that shows a photo from a
user's album on an e-ink device. There are two album sources.

**Apple side**
- A public iCloud shared album is read through the `sharedstreams` web API.
  The client picks the album id out of the shared-album URL. It fetches the
  album's web stream and follows `X-Apple-MMe-Host` partition redirects
  until a stream arrives.
- It chooses a random photo and that photo's widest derivative. It then
  builds the photo URL from the web-asset reply.
- A crawl job records its progress in a per-user record as a fixed sequence
  of status and persistence writes.
- A worker fans the crawl out over every installed user in chunks of 100.
- A paged table scan finds the users to refresh.

**Google side**
- A Photos Picker session is created and stored.
- The app-state route decides what the settings page shows. It polls the
  session and lists the picked media page by page.

**Routing**
- A proxy and an older middleware route each request by host name to the
  Google or the Apple pages.
- The settings form checks the shared-album URL.

**How the model works**
- Each core source file becomes one Dafny module.
- Code that computes a value becomes a function whose contract says what
  the value means.
- Code that updates state becomes a method over a class or a loop.
  - Each such method is proved against a pure specification function: the
    crawl's write plan, the scan, the page listing, the app-state decision.
  - Lemmas state the properties of that function.
- Network replies are parameters.
  - A redirect chase or a paged loop consumes a sequence of replies, one per
    request, in request order.
  - Running out of replies is an explicit outcome (`Unresolved`,
    `Unfinished`), so every result is stated within the replies given.
- Storage reads are `Result`/`Option` parameters. Storage writes go to small
  in-memory records (`AppleCrawl.AlbumRecord`,
  `GoogleSession.PickSessionStore`) that keep a log of their writes.
- Errors the source throws are explicit outcomes (`Threw`, `Raised`,
  `CrawlRaised`, `CreateFailed`, `RouteRaised`).

**Shared modules**
- `Wrappers` holds `Option` and `Result`.
- `JsString` holds the JavaScript string semantics the code relies on:
  - `split` on one character, `startsWith` and `includes`;
  - truthiness of an optional string;
  - how a template literal renders `undefined`;
  - decimal `parseInt`.

## Model

| member | source | states |
|---|---|---|
| JsString.Split | src/app/apple-public-album.ts:4 | `split` on one separator always yields at least one piece |
| JsString.SplitJoin | src/app/apple-public-album.ts:4 | joining the pieces of a split with the separator gives back the original text, so no character is lost |
| JsString.SplitHead | src/app/apple-public-album.ts:35 | the first piece is the separator-free prefix that ends at the first separator or at the end, and the rest splits the remainder |
| JsString.IncludesAt | src/app/settings/AlbumForm.tsx:26 | `includes` holds exactly when the needle occurs at some position |
| JsString.ParseIntIgnoresSuffix | src/app/photos.ts:111 | for any run of white space, optional sign `-`/`+`, non-empty digit run and text not starting with a digit, `parseInt` of their concatenation is the digit run's value, negated after `-`; whatever follows the digits is ignored |
| JsString.ParseIntExamples | src/app/photos.ts:111 | `parseInt("2048")` is 2048, `" -12px"` gives -12, and `""`, `"wide"` and `"-"` give NaN |
| PublicAlbum.PublicAlbumId | src/app/apple-public-album.ts:3-6 | undefined exactly when the URL has no `#`; otherwise the `#`-free text right after the first `#`, up to the next `#` or the end |
| PublicAlbum.HostPartition | src/app/apple-public-album.ts:33-36 | a `-`-free prefix of the host that ends at the host's end or at a `-` |
| PublicAlbum.HostPartitionUnique | src/app/apple-public-album.ts:33-36 | any such prefix is the partition, so the partition is the text before the first `-` (or the whole host) |
| PublicAlbum.HostPartitionExample | src/app/apple-public-album.ts:34 | `p159-sharedstreams.icloud.com` gives `p159` |
| PublicAlbum.FetchPublicAlbumWebStream | src/app/apple-public-album.ts:45-70 | at most one request per reply; the chase is unresolved exactly when every reply given is a redirect |
| PublicAlbum.EmptyStreamFetched | src/app/apple-public-album.ts:15-27 | a stream with no photos is returned as fetched, even when the reply also names a redirect host, because the stream schema is tried first (38-41) |
| PublicAlbum.ChaseCharacterized | src/app/apple-public-album.ts:45-70 | one request per leading redirect, plus one; each request is for the same album on the partition named by the previous redirect; a stream is returned with the partition that served it; a reply matching neither schema raises, naming the last URL |
| PublicAlbum.RedirectChainIsFollowed | src/app/apple-public-album.ts:63-69 | there is no depth bound: a stream at the end of any chain of redirects is returned, with the partition of the last redirect |
| PublicAlbum.FetchPublicAlbumWebAsset | src/app/apple-public-album.ts:85-114 | the request names exactly the one guid; the result succeeds exactly on status 200 with a parsable body, and any other status raises before the body is parsed |
| Photos.ReduceWidest | src/app/photos.ts:110-112 | the reduce picks an index of the list; a NaN width at the end always wins |
| Photos.ReduceWidestIsMax | src/app/photos.ts:110-112 | with every width a number, the chosen width is the maximum and no later entry is as wide, so ties go to the later entry |
| Photos.LargestDerivative | src/app/photos.ts:110-112 | the chosen derivative is one of the photo's derivatives |
| Photos.LargestDerivativeTrailingNaN | src/app/photos.ts:111 | when the last width does not parse, the last derivative is chosen |
| Photos.LargestDerivativeIsWidest | src/app/photos.ts:110-112 | with every width parsable, the chosen derivative has the largest integer width, and ties go to the later entry |
| Photos.RandomIndex | src/app/photos.ts:103-105 | the index is within `[0, photos.length)` |
| Photos.ResolveUrl | src/app/photos.ts:114-115 | a URL exists exactly when the chosen derivative's checksum keys an asset item, and it is `https://` + `url_location` + `url_path` of that item |
| Photos.GetPhotos | src/app/photos.ts:78-123 | missing settings refuse with `The album is not set up yet.` and fetch nothing; a stream fetch that raised raises after the one stream request; an empty stream refuses with `No photos found in the shared album.`; otherwise one asset request names only the chosen photo's guid, and the result is that photo's resolved URL, or raised when the asset fetch or the checksum lookup fails (never a refusal) |
| Photos.FirstFailure | src/app/photos.ts:150-165 | the index of the first photo whose URL cannot be resolved, or the photo count when every URL resolves |
| Photos.ResolveAllUrls | src/app/photos.ts:150-165 | one asset request per photo, in manifest order, up to and including the first failure; on success, exactly one URL per photo, in order, each the photo's resolved URL |
| Photos.GetAllUrls | src/app/photos.ts:125-173 | the same guards as `getPhotos`, then the stream request followed by the per-photo asset requests; the URLs are returned exactly when every photo resolves |
| AppleCrawl.RequestPartition | src/apple/crawl.ts:53-61 | the stored partition when the read succeeded and it is non-empty, otherwise `p123`; never empty |
| AppleCrawl.CrawlPlan | src/apple/crawl.ts:35-105 | the first write is always `Refresh started`; a failed settings lookup means no fetch is made; a completed fetch writes `not_found`/`found`, then the partition and stream, then a final status; a missing or empty stream ends with `Refresh failed, no photos found` and returns failure with the no-photos error, a stream with photos ends with `Updated` and returns success; success holds exactly when the last status is `Updated` |
| AppleCrawl.CrawlLeavesStatus | src/apple/crawl.ts:35-105 | after a returning crawl the stored status is one of the three terminal statuses, and success holds exactly when it is `Updated`; after a fetch that raises, the status stays `Refresh started` (65-68) |
| AppleCrawl.CrawlPersistsFetch | src/apple/crawl.ts:70-79 | after every completed fetch, including an empty album, the record holds the fetched partition and the fetched stream (possibly empty), or keeps the stream it held when the fetch returned none, `web_stream_status` is `not_found` exactly when the fetch reported `notFound`, and the crawl status is `Updated` when the stream has photos and `Refresh failed, no photos found` otherwise (81-98) |
| AppleCrawl.LastWriteWins | src/apple/crawl.ts:35-98 | the stored crawl status is the last status written, or the earlier one when none was written |
| AppleCrawl.FromChase | src/apple/crawl.ts:65-68 | the crawl sees a completed fetch exactly when the chase fetched a stream, and then carries that stream and partition with `notFound` never set; a reply matching neither schema is a raised fetch; a chase that ran out of replies gives no fetch result at all |
| AppleCrawl.ChaseNeverNotFound | src/apple/crawl.ts:65-73 | when the fetch is the redirect chase and it completed, `web_stream_status` is `found`, never `not_found` |
| AppleCrawl.AlbumRecord.SetCrawlStatus | src/apple/crawl.ts:35-38 | the record's state is the old state with `crawl_status` overwritten, and the write is appended to the log |
| AppleCrawl.AlbumRecord.SetWebStreamStatus | src/apple/crawl.ts:70-73 | the record's state is the old state with `web_stream_status` overwritten, and the write is appended to the log |
| AppleCrawl.AlbumRecord.SetPartitionAndWebStream | src/apple/crawl.ts:75-79 | the record's state is the old state with the partition overwritten and the stream overwritten when one is given, kept otherwise (src/apple/blobs.ts:264-279), and the write is appended to the log |
| AppleCrawl.CrawlAlbum | src/apple/crawl.ts:35-105 | the record receives exactly the planned writes, in order; its new state is the old one with those writes applied; the result and the fetch request are the planned ones |
| LegacyCrawl.AsResult | src/crawl.ts:34-35 | undefined settings become a failed lookup, and defined settings keep their album URL |
| LegacyCrawl.CrawlAlbum | src/crawl.ts:29-99 | the older crawl makes the same ordered writes, with the same result, as the current crawl does for the converted settings lookup |
| LegacyCrawl.MissingSettingsNotSetUp | src/crawl.ts:34-45 | undefined settings write `Refresh started` and then `Refresh failed, album not set up`, fetch nothing, and return failure |
| Worker.Slice | worker/main.ts:124 | `slice` gives at most `size` ids, and exactly `size` when that many remain |
| Worker.CeilDivIsCeiling | worker/main.ts:123 | the chunk count is `ceil(n / size)`: enough chunks to cover `n` ids, and no more |
| Worker.Chunked | worker/main.ts:122-126 | there are `ceil(n / size)` chunks |
| Worker.ChunkedSingle | worker/main.ts:122-126 | a non-empty list of at most `size` ids is a single chunk |
| Worker.ChunkedSplit | worker/main.ts:122-126 | the first chunk is the first `size` ids, and the rest is the chunking of the remainder |
| Worker.ChunkedFlatten | worker/main.ts:123-125 | the chunks, concatenated in order, give back the input exactly |
| Worker.ChunkedSizes | worker/main.ts:124 | every chunk is non-empty and at most `size` long, and all but the last are exactly `size` |
| Worker.ChunkedExample | worker/main.ts:145 | 250 ids give chunks of 100, 100 and 50 |
| Worker.ChunkedEmpty | worker/main.ts:122-126 | an empty list gives no chunks |
| Worker.TriggerAll | worker/main.ts:133-160 | a failed user listing raises and dispatches nothing; otherwise one bulk job per chunk, in chunk order, each in concurrency group `cron` with LOW priority |
| Worker.TriggerAllCoversUsers | worker/main.ts:145-158 | the dispatched jobs' user lists, concatenated, are exactly the listed users, in order |
| Worker.AttemptOf | worker/main.ts:60-72 | a user's attempt is marked failed exactly when the crawl raised |
| Worker.RefreshAlbumBulk | worker/main.ts:53-75 | the crawl runs once per user, in order; a user whose crawl raises does not stop the later users; the job always reports success |
| Worker.RefreshAlbum | worker/main.ts:33-42 | the single-user task returns the crawl's result unchanged, and the record receives the crawl's writes |
| AppleBlobs.RefreshableIds | src/apple/blobs.ts:415-420 | at most one id per scanned item |
| AppleBlobs.RefreshableIdsMembers | src/apple/blobs.ts:415-420 | an id is listed exactly when some scanned item with that id has `uninstalled_at === null` and `settings !== null` |
| AppleBlobs.RefreshableIdsAppend | src/apple/blobs.ts:410-420 | filtering two pages' items is filtering each page and concatenating, so scan order is kept |
| AppleBlobs.MissingUninstalledExcluded | src/apple/blobs.ts:416 | the comparison is strict: an item without `uninstalled_at` is excluded, and one with `null` is listed |
| AppleBlobs.ScanFrom | src/apple/blobs.ts:410-423 | the first scan starts at the given key, and there is at most one scan per reply |
| AppleBlobs.ScanListsRefreshable | src/apple/blobs.ts:410-428 | a finished scan stops at the first page without `LastEvaluatedKey`; each scan starts at the previous page's key; the ids are the refreshable ids of exactly those pages' items, in order |
| AppleBlobs.ListAlbumsToRefresh | src/apple/blobs.ts:393-429 | the do-while loop makes the scans, and gives the result, that the scan specification describes |
| AppleBlobs.GetCrawlStatus | src/apple/blobs.ts:361-391 | no item gives `User not found`; the status defaults to `not_found`; `fetched_at` is null exactly when it is absent or zero, and it is kept otherwise |
| GoogleAlbum.ListFrom | src/google/album.ts:31-62 | the first request carries the given page token (none at the start); a schema failure is the parse error; at most one request per reply |
| GoogleAlbum.ListingConcatenatesPages | src/google/album.ts:34-62 | a finished listing stops at the first page that is empty or has no `nextPageToken`; each later request carries the previous page's token; the items are the pages' items concatenated, in page order |
| GoogleAlbum.ListingStopsAndDiscards | src/google/album.ts:49-59 | an empty page ends the listing even when it carries a token; a page failing the schema returns the error and discards the items gathered so far |
| GoogleAlbum.ListImagesInAlbum | src/google/album.ts:24-63 | the `while (true)` loop makes the requests, and gives the result, that the listing specification describes |
| GoogleAlbum.PhotoCount | src/app/api/google/get-app-state/route.ts:80-82 | the number of PHOTO items is at most the number of items |
| GoogleAlbum.PhotoCountAppend | src/app/api/google/get-app-state/route.ts:80-82 | the photo count of two pages together is the sum of their counts |
| GoogleSession.PickSessionStore.SetGooglePickSession | src/app/api/google/get-app-state/route.ts:113-117 | the stored session id and done flag are overwritten, and the write is appended to the log |
| GoogleAppState.Decide | src/app/api/google/get-app-state/route.ts:20-128 | see below |
| GoogleAppState.NeverNoPictures | src/app/api/google/get-app-state/type.ts:3-27 | `connected-no-pictures` is never produced, and a response is an `error` exactly when its status is 400 or 500 |
| GoogleAppState.ImageCountCountsPhotos | src/app/api/google/get-app-state/route.ts:67-88 | with the done flag stored, `imageCount` is the number of PHOTO items across every listed page |
| GoogleAppState.GetAppState | src/app/api/google/get-app-state/route.ts:20-128 | the route answers as decided; the store is written only when the poll reports `mediaItemsSet`, and then holds the polled id with done set; otherwise it is unchanged |
| CreatePickSession.Plan | src/app/api/google/create-pick-session/route.ts:11-71 | see below |
| CreatePickSession.AnswerMatchesStore | src/app/api/google/create-pick-session/route.ts:58-70 | a session is reported opened exactly when one was stored, under the same id and not done; every refusal is one of the two guards, with its status |
| CreatePickSession.CreateSession | src/app/api/google/create-pick-session/route.ts:11-71 | the route answers as planned; a created session overwrites the stored one with done=false; otherwise the store is unchanged |
| Proxy.Proxy | src/proxy.ts:4-45 | see below |
| Proxy.RewritesExclusive | src/proxy.ts:14-24 | no request is both a Google and an Apple page route, and every page route is one of the two |
| Proxy.MarkupGetPassesThrough | src/proxy.ts:5-10 | the check is a prefix test, so `/markup-get` and API paths pass through on every host |
| Middleware.Middleware | src/middleware.ts:4-13 | rewrites exactly on the Google host when the path starts with neither `/_next` nor `/api`; the target is exactly `/google`, dropping path and query |
| Middleware.AppleHostUntouched | src/middleware.ts:8 | the Apple host is never rewritten |
| Middleware.MiddlewareCoversProxy | src/middleware.ts:6-12 | every Google rewrite of the proxy is also a middleware rewrite, but to the landing page alone; `/markup` on the Google host passes the proxy yet is rewritten by the middleware |
| AlbumForm.ValidUrlHasAlbumId | src/app/settings/AlbumForm.tsx:25-27 | a URL that passes the check contains `#`, so the album id is defined for it |
| AlbumForm.ValidateIsSubstring | src/app/settings/AlbumForm.tsx:25-27 | the check holds exactly when `icloud.com/sharedalbum/#` occurs somewhere in the URL, whatever surrounds it |
| AlbumForm.FailureMessage | src/app/settings/AlbumForm.tsx:57-69 | a message is shown exactly when the save did not succeed |
| AlbumForm.AlbumFormState.constructor | src/app/settings/AlbumForm.tsx:12-23 | the form starts from the saved URL, or empty, with nothing edited, not submitting, and no message |
| AlbumForm.AlbumFormState.OnFormChange | src/app/settings/AlbumForm.tsx:29-33 | stores the typed URL, its validity computed from that same value, and that it was edited; the warning then shows exactly when the value is invalid |
| AlbumForm.AlbumFormState.BeginSubmit | src/app/settings/AlbumForm.tsx:35-46 | whatever the URL's validity, the form locks, clears the message and sends the current URL |
| AlbumForm.AlbumFormState.FinishSubmit | src/app/settings/AlbumForm.tsx:57-72 | the form unlocks and records the save or the failure message; the URL and its validity are kept |
| AlbumForm.WarningMatchesUrl | src/app/settings/AlbumForm.tsx:128 | the warning shows exactly when the URL was edited and the current URL fails the check |

Rows marked "see below":

- **`GoogleAppState.Decide`**
  - A missing `user_uuid` gives `error` with status 400 (24-29).
  - Failed or incomplete tokens give `error` with status 500 (36-45).
  - With no stored session id, the state is `not-connected` with the sign-in URL (57-65).
  - With the done flag stored, the state is `connected-pictures` with the PHOTO count; a listing failure gives `error` (67-88). A listing that raises raises out of the route, and a listing that ran out of replies gives the unfinished outcome.
  - Otherwise the session is polled. A poll that raises raises out of the route, and an unparsable poll gives `error` (101-110).
  - When the poll reports `mediaItemsSet`, done is stored under the polled id, and the state is `connected-pictures` with count 0 (112-122).
  - Otherwise the state is `connected-picking` with the picker URI, or `''` when it is missing (124-127).
- **`CreatePickSession.Plan`**
  - A missing `user_uuid` gives 400, and a token failure gives 500 (17-22, 29-38). In both cases no session is requested.
  - A reply that lacks `id` or `pickerUri` raises and stores nothing (58).
  - Otherwise the created id is stored with done=false (60-64). The answer carries that id and picker URI, with status 200 (66-70).
- **`Proxy.Proxy`**
  - Paths under `/_next`, `/api`, `/markup`, `/google/markup` or `/apple/markup` pass through.
  - Any other path on the Google host becomes `/google` + path + query.
  - On any other host, known or not, it becomes `/apple` + path + query, because the development default is `apple`.

## Left out

- Network I/O.
  - Each `fetch` becomes a reply parameter.
  - zod and JSON parsing become an abstract parsed or unparsed value.
  - Request headers and bodies are left out, except the URLs and the photo guids an asset request names.
- Fuel.
  - A redirect chase or paged loop with more requests than the replies given ends in an explicit unfinished outcome.
  - The source has no bound, so nothing is claimed beyond the replies given.
- Storage.
  - The DynamoDB/S3/Supabase wrappers in src/blobs.ts, src/google/blobs.ts and the rest of src/apple/blobs.ts become read parameters and in-memory write logs.
  - A storage write that fails is not modelled.
- `Math.random()` becomes the parameter `u` in `[0, 1)`.
- `Date.now()` timestamps and all logging are left out.
- Hatchet configuration and scheduling (worker/main.ts:77-120, 169-193) are left out.
  - This covers retries, timeouts, concurrency strategies, rate limits, worker slots and the cron schedule.
  - `await` ordering across concurrent jobs is left out too.
- OAuth plumbing and the token-refresh listener (src/app/api/google/create-pick-session/route.ts:47-51) are left out.
  - The sign-in URL that `getAuthURL` builds is a parameter.
- UI rendering, the JSX of the settings form and its `fetch` are left out. The form's state changes are modelled.
- Webhooks and the save-album, settings and rediscover routes are left out.
- `notFound` is read by the crawl but never produced by the web-stream fetcher, so it stays an input of the fetch result.
- The two crawl variants differ in how settings arrive, `Result` or `undefined`.
  - Both are modelled.
  - Neither is reconciled with the photos.ts settings lookup, which is a parameter there.
- Photos.LargestDerivativeIsWidest: states maximality only when every width parses.
  - With a NaN width before the last entry, `>` against NaN makes the reduce depend on position.
  - Only the trailing-NaN case is stated (Photos.LargestDerivativeTrailingNaN).
- JsString.ParseIntExamples: `parseInt` is modelled for decimal text only.
  - No `0x` prefix, no other radix.
  - White space is the ASCII set only.
  - Integers are exact: the loss of precision beyond 2^53 is not modelled.
- Worker.Chunked: requires a positive chunk size. The source only ever passes 100.
- LegacyCrawl.CrawlAlbum: its repository is the same abstract record as the current crawl's, so it models the writes the older crawl intends.
  - src/crawl.ts:64 calls `setWebStreamStatus`, but the repository class of src/blobs.ts has no such method.
  - As written, the older crawl would raise a TypeError right after the fetch. It would never store the partition and stream, and the status would stay `Refresh started`.
  - The model does not capture that failure.
- Photos.GetAllUrls: the asset replies are a function of the photo guid, so two photos with the same guid get the same reply.
  - The same holds for Photos.ResolveAllUrls.
  - Separate, differing replies to repeated requests for one guid are not modelled.
- AppleCrawl.FromChase: a chase that ran out of replies gives no fetch result, and no crawl is stated for it.
- `Object.values` on a derivative record is modelled as a sequence in enumeration order.
- A `user_uuid` that is present but not a string is not modelled. It is an optional string.
- In the Google routes, an exception from the poll, listing or session-create request becomes a single `RouteRaised`/`CreateFailed` outcome. Its message is left out.
  - Storage reads and writes in those routes are not modelled as raising. The token and session reads are `Result` values, and the session write always succeeds.
  - A request body that does not parse as JSON is not modelled either. `await request.json()` would raise at src/app/api/google/get-app-state/route.ts:21 and src/app/api/google/create-pick-session/route.ts:14.
- Worker.RefreshAlbumBulk: the crawl is a function of the user id, so a user id that occurs twice in one chunk gets the same crawl result both times.
