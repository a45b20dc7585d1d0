/** The shared-album settings form: the URL check and the state the form
    keeps as the user edits the URL and submits it. */
module AlbumForm {
  import opened Wrappers
  import opened JsString
  import PublicAlbum

  const SharedAlbumMarker: string := "icloud.com/sharedalbum/#"

  /** `validateSharedAlbumUrl`: the URL contains the shared-album marker
      somewhere. */
  predicate ValidateSharedAlbumUrl(url: string) {
    Includes(url, SharedAlbumMarker)
  }

  /** A URL that passes the check has an album id: it contains `#`. */
  lemma {:induction false} ValidUrlHasAlbumId(url: string)
    requires ValidateSharedAlbumUrl(url)
    ensures PublicAlbum.PublicAlbumId(url).Some?
  {
    assert SharedAlbumMarker[|SharedAlbumMarker| - 1] == '#';
    IncludesChar(url, SharedAlbumMarker, '#');
  }

  /** The check is exactly "the marker occurs at some position", and the
      marker's position does not matter: anything around it is accepted. */
  lemma ValidateIsSubstring(before: string, after: string, url: string)
    ensures ValidateSharedAlbumUrl(before + SharedAlbumMarker + after)
    ensures ValidateSharedAlbumUrl(url) <==> exists i :: OccursAt(url, SharedAlbumMarker, i)
  {
    IncludesAt(url, SharedAlbumMarker);
    var s := before + SharedAlbumMarker + after;
    assert s[|before|..|before| + |SharedAlbumMarker|] == SharedAlbumMarker;
    assert OccursAt(s, SharedAlbumMarker, |before|);
    IncludesAt(s, SharedAlbumMarker);
  }

  /** What a save attempt ends in: the server accepted it, answered with an
      error (whose `error` field may be missing), or the request raised
      (with an `Error`'s message, or something else). */
  datatype SaveOutcome = Saved | Rejected(error: Option<string>) | SaveThrew(errorMessage: Option<string>)

  datatype Settings = Settings(uuid: string, sharedAlbumUrl: string)

  /** The text of the message shown after a failed save. */
  function FailureMessage(outcome: SaveOutcome): (m: Option<string>)
    ensures m.None? <==> outcome.Saved?
  {
    match outcome
    case Saved => None
    case Rejected(error) => Some("Error: " + (if Truthy(error) then error.value else "Failed to save settings"))
    case SaveThrew(message) => Some("Error: " + (if message.Some? then message.value else "Unknown error"))
  }

  class AlbumFormState {
    const uuid: string
    var sharedAlbumUrl: string
    var isSubmitting: bool
    var message: Option<string>
    var didSaveNewAlbum: bool
    var isUrlValid: bool
    var didChangeUrl: bool

    /** Once the URL has been edited, the stored validity is the validity of
        the stored URL. */
    predicate Valid()
      reads this
    {
      didChangeUrl ==> isUrlValid == ValidateSharedAlbumUrl(sharedAlbumUrl)
    }

    /** The form starts from the saved URL, or empty, with nothing edited. */
    constructor (uuid: string, initialUrl: Option<string>)
      ensures Valid()
      ensures this.uuid == uuid && sharedAlbumUrl == (if Truthy(initialUrl) then initialUrl.value else "")
      ensures !isSubmitting && message.None? && !didSaveNewAlbum && !isUrlValid && !didChangeUrl
    {
      this.uuid := uuid;
      sharedAlbumUrl := if Truthy(initialUrl) then initialUrl.value else "";
      isSubmitting, message, didSaveNewAlbum := false, None, false;
      isUrlValid, didChangeUrl := false, false;
    }

    /** The warning under the input. */
    predicate ShowsInvalidWarning()
      reads this
    {
      didChangeUrl && !isUrlValid
    }

    /** The submit button; validity does not gate it. */
    predicate SubmitDisabled()
      reads this
    {
      isSubmitting
    }

    /** `onFormChange`: store the typed URL, its validity, and that it was
        edited. */
    method OnFormChange(value: string)
      requires Valid()
      modifies this
      ensures Valid()
      ensures sharedAlbumUrl == value && isUrlValid == ValidateSharedAlbumUrl(value) && didChangeUrl
      ensures isSubmitting == old(isSubmitting) && message == old(message) && didSaveNewAlbum == old(didSaveNewAlbum)
      ensures ShowsInvalidWarning() <==> !ValidateSharedAlbumUrl(value)
    {
      sharedAlbumUrl := value;
      isUrlValid := ValidateSharedAlbumUrl(value);
      didChangeUrl := true;
    }

    /** The start of `handleSubmit`: whatever the URL's validity, the form
        locks and sends the current URL. */
    method BeginSubmit() returns (settings: Settings)
      requires Valid()
      modifies this
      ensures Valid()
      ensures settings == Settings(uuid, sharedAlbumUrl)
      ensures isSubmitting && SubmitDisabled() && message.None? && !didSaveNewAlbum
      ensures sharedAlbumUrl == old(sharedAlbumUrl) && isUrlValid == old(isUrlValid) && didChangeUrl == old(didChangeUrl)
    {
      isSubmitting := true;
      message := None;
      didSaveNewAlbum := false;
      settings := Settings(uuid, sharedAlbumUrl);
    }

    /** The end of `handleSubmit`: record the outcome and unlock the form. */
    method FinishSubmit(outcome: SaveOutcome)
      requires Valid()
      modifies this
      ensures Valid()
      ensures !isSubmitting && !SubmitDisabled()
      ensures didSaveNewAlbum == (old(didSaveNewAlbum) || outcome.Saved?)
      ensures message == (if outcome.Saved? then old(message) else FailureMessage(outcome))
      ensures sharedAlbumUrl == old(sharedAlbumUrl) && isUrlValid == old(isUrlValid) && didChangeUrl == old(didChangeUrl)
    {
      if outcome.Saved? {
        didSaveNewAlbum := true;
      } else {
        message := FailureMessage(outcome);
      }
      isSubmitting := false;
    }
  }

  /** In a form that keeps `Valid`, the warning shows exactly when the URL
      was edited and the current URL fails the check. */
  lemma WarningMatchesUrl(form: AlbumFormState)
    requires form.Valid()
    ensures form.ShowsInvalidWarning() <==> form.didChangeUrl && !ValidateSharedAlbumUrl(form.sharedAlbumUrl)
  {
  }
}
