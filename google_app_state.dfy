/** The app-state route of the Google picker: from the request's user, the
    stored tokens and session, the media listing and the session poll, it
    decides which `AppState` the settings page shows, and marks the session
    done when the poll says the items are set. */
module GoogleAppState {
  import opened Wrappers
  import opened JsString
  import opened GoogleAlbum
  import opened GoogleSession

  datatype AppState =
    | Error(error: string)
    | NotConnected(signInUrl: string)
    | ConnectedNoPictures
    | ConnectedPicking(pickerUri: string)
    | ConnectedPictures(imageCount: int)

  datatype Response = Response(state: AppState, status: int)

  /** The route's result: a response, an error raised out of it, or the
      listing replies running out before the listing ended. */
  datatype RouteResult = Responded(response: Response) | RouteRaised | ListingUnfinished

  /** The session poll's reply: the request raised, the body failed the
      schema, or the session as the picker reports it. */
  datatype PollReply = PollRaised | PollUnparsable | Polled(id: string, pickerUri: Option<string>, mediaItemsSet: bool)

  const PollFailure: string := "Failed to parse get pick session response"

  function PollUrl(sessionId: string): string {
    "https://photospicker.googleapis.com/v1/sessions/" + sessionId
  }

  /** The route's decisions, the session write it makes (if any) and the
      poll request it makes (if any). */
  datatype Decision = Decision(result: RouteResult, write: Option<SessionWrite>, polled: Option<string>)

  /** A stored session id that is present and non-empty. */
  predicate HasSession(session: Result<PickSession, string>) {
    session.Success? && Truthy(session.value.id)
  }

  /** The media listing the route asks for: only with a stored session that
      is done. */
  predicate ListsMedia(session: Result<PickSession, string>) {
    HasSession(session) && session.value.done == Some(true)
  }

  /** The decision tree of the app-state route. `listing` is the outcome of
      listing the stored session's items, consulted only when the session
      is done. */
  function Decide(userUuid: Option<string>, tokens: Result<Tokens, string>, session: Result<PickSession, string>,
                  signInUrl: string, listing: Listing, poll: PollReply): (d: Decision)
    ensures !Truthy(userUuid) ==> d == Decision(Responded(Response(Error(MissingUser), 400)), None, None)
    ensures Truthy(userUuid) && !TokensUsable(tokens) ==> d == Decision(Responded(Response(Error(NoTokens), 500)), None, None)
    ensures Truthy(userUuid) && TokensUsable(tokens) && !HasSession(session) ==>
      d == Decision(Responded(Response(NotConnected(signInUrl), 200)), None, None)
    ensures Truthy(userUuid) && TokensUsable(tokens) && ListsMedia(session) ==>
      && d.write.None? && d.polled.None?
      && (listing.Listed? ==> d.result == Responded(Response(ConnectedPictures(PhotoCount(listing.items)), 200)))
      && (listing.ParseFailed? ==> d.result == Responded(Response(Error(listing.error), 500)))
      && (listing.ListingRaised? ==> d.result == RouteRaised)
      && (listing.Unfinished? ==> d.result == ListingUnfinished)
    ensures d.polled.Some? <==> Truthy(userUuid) && TokensUsable(tokens) && HasSession(session) && !ListsMedia(session)
    ensures d.polled.Some? ==> d.polled.value == PollUrl(session.value.id.value)
    ensures d.write.Some? <==> d.polled.Some? && poll.Polled? && poll.mediaItemsSet
    ensures d.write.Some? ==>
      d.write.value == SessionWrite(userUuid.value, poll.id, true)
      && d.result == Responded(Response(ConnectedPictures(0), 200))
    ensures d.polled.Some? && poll.PollRaised? ==> d.result == RouteRaised
    ensures d.polled.Some? && poll.PollUnparsable? ==> d.result == Responded(Response(Error(PollFailure), 500))
    ensures d.polled.Some? && poll.Polled? && !poll.mediaItemsSet ==>
      d.result == Responded(Response(ConnectedPicking(poll.pickerUri.GetOr("")), 200))
  {
    if !Truthy(userUuid) then Decision(Responded(Response(Error(MissingUser), 400)), None, None)
    else if !TokensUsable(tokens) then Decision(Responded(Response(Error(NoTokens), 500)), None, None)
    else if !HasSession(session) then Decision(Responded(Response(NotConnected(signInUrl), 200)), None, None)
    else if session.value.done == Some(true) then
      match listing
      case Listed(items) => Decision(Responded(Response(ConnectedPictures(PhotoCount(items)), 200)), None, None)
      case ParseFailed(error) => Decision(Responded(Response(Error(error), 500)), None, None)
      case ListingRaised => Decision(RouteRaised, None, None)
      case Unfinished => Decision(ListingUnfinished, None, None)
    else
      var url := PollUrl(session.value.id.value);
      match poll
      case PollRaised => Decision(RouteRaised, None, Some(url))
      case PollUnparsable => Decision(Responded(Response(Error(PollFailure), 500)), None, Some(url))
      case Polled(id, pickerUri, mediaItemsSet) =>
        if mediaItemsSet then
          Decision(Responded(Response(ConnectedPictures(0), 200)), Some(SessionWrite(userUuid.value, id, true)), Some(url))
        else
          Decision(Responded(Response(ConnectedPicking(pickerUri.GetOr("")), 200)), None, Some(url))
  }

  /** The route never answers `connected-no-pictures`, and every error it
      answers carries status 400 or 500 while every other state carries 200. */
  lemma NeverNoPictures(userUuid: Option<string>, tokens: Result<Tokens, string>, session: Result<PickSession, string>,
                        signInUrl: string, listing: Listing, poll: PollReply)
    ensures var d := Decide(userUuid, tokens, session, signInUrl, listing, poll);
      d.result.Responded? ==>
        && !d.result.response.state.ConnectedNoPictures?
        && (d.result.response.state.Error? <==> d.result.response.status in {400, 500})
        && (!d.result.response.state.Error? <==> d.result.response.status == 200)
  {
  }

  /** With a done session, the image count is the number of photos over all
      the pages the listing read, in page order. */
  lemma ImageCountCountsPhotos(userUuid: Option<string>, tokens: Result<Tokens, string>, session: Result<PickSession, string>,
                               signInUrl: string, pages: seq<PageReply>, poll: PollReply)
    requires Truthy(userUuid) && TokensUsable(tokens) && ListsMedia(session)
    ensures var run := ListFrom(session.value.id.value, pages, None);
      var d := Decide(userUuid, tokens, session, signInUrl, run.outcome, poll);
      run.outcome.Listed? ==>
        d.result == Responded(Response(ConnectedPictures(PhotoCount(PagesItems(pages[..|run.urls|]))), 200))
  {
    ListingConcatenatesPages(session.value.id.value, pages, None);
  }

  /** The listing outcome the route sees for these pages. */
  function ListingFor(session: Result<PickSession, string>, pages: seq<PageReply>): Listing {
    if ListsMedia(session) then ListFrom(session.value.id.value, pages, None).outcome else Unfinished
  }

  /** The route `POST`: it decides as `Decide` says, listing the done
      session's items from `pages`, and makes the one write `Decide` names. */
  method GetAppState(store: PickSessionStore, userUuid: Option<string>, tokens: Result<Tokens, string>,
                     session: Result<PickSession, string>, signInUrl: string, pages: seq<PageReply>, poll: PollReply)
    returns (result: RouteResult)
    modifies store
    ensures var d := Decide(userUuid, tokens, session, signInUrl, ListingFor(session, pages), poll);
      && result == d.result
      && (d.write.None? ==> store.writes == old(store.writes) && store.sessionId == old(store.sessionId) && store.done == old(store.done))
      && (d.write.Some? ==>
            && store.writes == old(store.writes) + [d.write.value]
            && store.sessionId == Some(d.write.value.id)
            && store.done == Some(true))
  {
    if !Truthy(userUuid) {
      return Responded(Response(Error(MissingUser), 400));
    }
    if !TokensUsable(tokens) {
      return Responded(Response(Error(NoTokens), 500));
    }
    if !HasSession(session) {
      return Responded(Response(NotConnected(signInUrl), 200));
    }
    var sessionId := session.value.id.value;
    if session.value.done == Some(true) {
      var urls, listing := ListImagesInAlbum(sessionId, pages);
      match listing
      case Listed(items) =>
        return Responded(Response(ConnectedPictures(PhotoCount(items)), 200));
      case ParseFailed(error) =>
        return Responded(Response(Error(error), 500));
      case ListingRaised =>
        return RouteRaised;
      case Unfinished =>
        return ListingUnfinished;
    }
    match poll
    case PollRaised =>
      return RouteRaised;
    case PollUnparsable =>
      return Responded(Response(Error(PollFailure), 500));
    case Polled(id, pickerUri, mediaItemsSet) =>
      if mediaItemsSet {
        store.SetGooglePickSession(userUuid.value, id, true);
        return Responded(Response(ConnectedPictures(0), 200));
      }
      return Responded(Response(ConnectedPicking(pickerUri.GetOr("")), 200));
  }
}
