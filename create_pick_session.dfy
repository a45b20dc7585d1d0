/** The create-pick-session route of the Google picker: after the same user
    and token guards as the app-state route, it opens a new picker session,
    stores it as not done, and answers with its id and picker URI. */
module CreatePickSession {
  import opened Wrappers
  import opened JsString
  import opened GoogleSession

  const SessionsUrl: string := "https://photospicker.googleapis.com/v1/sessions"

  /** The reply to the session `POST`: the request raised, or a body whose
      `id` and `pickerUri` may be missing. */
  datatype CreateReply = CreateRaised | Created(id: Option<string>, pickerUri: Option<string>)

  datatype CreateResponse = Opened(id: string, pickerUri: string) | Refused(error: string)

  /** A response with its status, or an error raised out of the route: by
      the request, or by the schema when the body lacks `id` or `pickerUri`. */
  datatype CreateResult = Answered(response: CreateResponse, status: int) | CreateFailed

  /** The route's result, the session request it makes (if any) and the
      session write it makes (if any). */
  datatype CreatePlan = CreatePlan(result: CreateResult, requested: bool, write: Option<SessionWrite>)

  function Plan(userUuid: Option<string>, tokens: Result<Tokens, string>, reply: CreateReply): (p: CreatePlan)
    ensures !Truthy(userUuid) ==> p == CreatePlan(Answered(Refused(MissingUser), 400), false, None)
    ensures Truthy(userUuid) && !TokensUsable(tokens) ==> p == CreatePlan(Answered(Refused(NoTokens), 500), false, None)
    ensures p.requested <==> Truthy(userUuid) && TokensUsable(tokens)
    ensures p.write.Some? <==> p.requested && reply.Created? && reply.id.Some? && reply.pickerUri.Some?
    ensures p.requested && p.write.None? ==> p.result == CreateFailed
    ensures p.write.Some? ==>
      && p.write.value == SessionWrite(userUuid.value, reply.id.value, false)
      && p.result == Answered(Opened(reply.id.value, reply.pickerUri.value), 200)
  {
    if !Truthy(userUuid) then CreatePlan(Answered(Refused(MissingUser), 400), false, None)
    else if !TokensUsable(tokens) then CreatePlan(Answered(Refused(NoTokens), 500), false, None)
    else match reply
      case CreateRaised => CreatePlan(CreateFailed, true, None)
      case Created(id, pickerUri) =>
        if id.None? || pickerUri.None? then CreatePlan(CreateFailed, true, None)
        else CreatePlan(Answered(Opened(id.value, pickerUri.value), 200), true, Some(SessionWrite(userUuid.value, id.value, false)))
  }

  /** Every successful answer is a session the store now holds as not done,
      and every refusal is one of the two guards. */
  lemma AnswerMatchesStore(userUuid: Option<string>, tokens: Result<Tokens, string>, reply: CreateReply)
    ensures var p := Plan(userUuid, tokens, reply);
      && (p.result.Answered? && p.result.response.Opened? <==> p.write.Some?)
      && (p.write.Some? ==> p.result.response.id == p.write.value.id && !p.write.value.done)
      && (p.result.Answered? && p.result.response.Refused? ==>
            (p.result.response.error == MissingUser && p.result.status == 400)
            || (p.result.response.error == NoTokens && p.result.status == 500))
  {
  }

  /** `POST`: the guards, the session request, and one write of the new
      session as not done before answering. */
  method CreateSession(store: PickSessionStore, userUuid: Option<string>, tokens: Result<Tokens, string>, reply: CreateReply)
    returns (result: CreateResult, requested: Option<string>)
    modifies store
    ensures var p := Plan(userUuid, tokens, reply);
      && result == p.result
      && (requested.Some? <==> p.requested)
      && (requested.Some? ==> requested.value == SessionsUrl)
      && (p.write.None? ==> store.writes == old(store.writes) && store.sessionId == old(store.sessionId) && store.done == old(store.done))
      && (p.write.Some? ==>
            && store.writes == old(store.writes) + [p.write.value]
            && store.sessionId == Some(p.write.value.id)
            && store.done == Some(false))
  {
    if !Truthy(userUuid) {
      return Answered(Refused(MissingUser), 400), None;
    }
    if !TokensUsable(tokens) {
      return Answered(Refused(NoTokens), 500), None;
    }
    requested := Some(SessionsUrl);
    match reply
    case CreateRaised =>
      return CreateFailed, requested;
    case Created(id, pickerUri) =>
      if id.None? || pickerUri.None? {
        return CreateFailed, requested;
      }
      store.SetGooglePickSession(userUuid.value, id.value, false);
      result := Answered(Opened(id.value, pickerUri.value), 200);
  }
}
