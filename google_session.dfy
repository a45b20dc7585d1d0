/** What the Google picker routes share: the user's stored tokens, the stored
    picker session (its id and whether picking is done), and the store that
    the routes write the session to. */
module GoogleSession {
  import opened Wrappers
  import opened JsString

  /** The stored tokens; either may be null. */
  datatype Tokens = Tokens(accessToken: Option<string>, refreshToken: Option<string>)

  /** The routes go on only when the tokens were read and both are non-empty. */
  predicate TokensUsable(tokens: Result<Tokens, string>) {
    tokens.Success? && Truthy(tokens.value.accessToken) && Truthy(tokens.value.refreshToken)
  }

  const MissingUser: string := "Missing user_uuid"
  const NoTokens: string := "Failed to get Google tokens"

  /** The stored session id (possibly null) and done flag (possibly null). */
  datatype PickSession = PickSession(id: Option<string>, done: Option<bool>)

  /** One `setGooglePickSession` write. */
  datatype SessionWrite = SessionWrite(userUuid: string, id: string, done: bool)

  /** One user's stored picker session, with every write logged in order. */
  class PickSessionStore {
    var sessionId: Option<string>
    var done: Option<bool>
    var writes: seq<SessionWrite>

    constructor (s: PickSession)
      ensures sessionId == s.id && done == s.done && writes == []
    {
      sessionId, done := s.id, s.done;
      writes := [];
    }

    /** `setGooglePickSession`: both fields are overwritten. */
    method SetGooglePickSession(userUuid: string, id: string, isDone: bool)
      modifies this
      ensures sessionId == Some(id) && done == Some(isDone)
      ensures writes == old(writes) + [SessionWrite(userUuid, id, isDone)]
    {
      sessionId, done := Some(id), Some(isDone);
      writes := writes + [SessionWrite(userUuid, id, isDone)];
    }
  }
}
