/** animegen/App.tsx: the page state of the anime scene generator and its
    generate handler. The call to the image service is not modelled; its
    outcome (the base64 data it resolved with, or the value it threw) is an
    input of the handler. The two halves of the handler, before and after the
    awaited call, are separate methods, and HandleGenerate runs them in order. */
module AnimegenApp {
  import opened Wrappers
  import ImageDisplay

  const DataUrlHeader: string := "data:image/jpeg;base64,"
  const UnknownError: string := "An unknown error occurred."

  /** What a rejected promise carries: an Error object, or any other value. */
  datatype Thrown = ErrorObject(message: string) | OtherValue

  /** How the awaited image request settled. */
  datatype Outcome = Resolved(imageData: string) | Rejected(thrown: Thrown)

  /** The image source built from the returned data: a data URL (section 3
      of RFC 2397) with media type image/jpeg and base64 encoding. */
  function JpegDataUrl(data: string): string {
    DataUrlHeader + data
  }

  /** The message shown for a thrown value. */
  function ErrorText(t: Thrown): string {
    match t
    case ErrorObject(message) => message
    case OtherValue => UnknownError
  }

  /** The parts of a data URL: `data:[<mediatype>][;base64],<data>`. */
  datatype DataUrlParts = DataUrlParts(mediaType: string, base64: bool, data: string)

  /** The position of the first occurrence of c in s. */
  function IndexOf(s: string, c: char): (r: Option<nat>)
    ensures r.Some? ==> r.value < |s| && s[r.value] == c && forall j :: 0 <= j < r.value ==> s[j] != c
    ensures r.None? ==> forall j :: 0 <= j < |s| ==> s[j] != c
  {
    if s == [] then None
    else if s[0] == c then Some(0)
    else
      match IndexOf(s[1..], c)
      case None => None
      case Some(k) => Some(k + 1)
  }

  /** Splits a data URL at its first comma, as the grammar of section 3 of
      RFC 2397 reads it: the header after "data:" holds the media type and an
      optional ";base64" marker; the rest is the data. */
  function ParseDataUrl(url: string): Option<DataUrlParts> {
    if |url| < 5 || url[..5] != "data:" then None
    else
      match IndexOf(url, ',')
      case None => None
      case Some(k) =>
        if k < 5 then None
        else
          var header, body := url[5..k], url[k + 1..];
          if |header| >= 7 && header[|header| - 7..] == ";base64"
          then Some(DataUrlParts(header[..|header| - 7], true, body))
          else Some(DataUrlParts(header, false, body))
  }

  /** Round trip: the built URL is a well-formed data URL whose media type is
      image/jpeg, whose data is base64-marked, and whose data is exactly what
      the service returned (base64 text has no comma to confuse the split). */
  lemma JpegDataUrlRoundTrip(data: string)
    ensures ParseDataUrl(JpegDataUrl(data)) == Some(DataUrlParts("image/jpeg", true, data))
  {
    var url := JpegDataUrl(data);
    assert url[..5] == "data:";
    assert url[22] == ',';
    forall j | 0 <= j < 22 ensures url[j] != ',' {
      assert url[j] == DataUrlHeader[j];
    }
    assert IndexOf(url, ',') == Some(22);
    var header := url[5..22];
    assert header == "image/jpeg;base64";
    assert header[10..] == ";base64" && header[..10] == "image/jpeg";
    assert url[23..] == data;
  }

  /** The three pieces of state the page keeps. */
  datatype UiState = UiState(isLoading: bool, error: Option<string>, generatedImage: Option<string>)

  /** The state after a request has settled: not loading, and exactly one of
      the error and the image is set, the image for a resolved request and the
      error message for a rejected one. */
  function Settled(outcome: Outcome): (s: UiState)
    ensures !s.isLoading
    ensures s.error.Some? <==> s.generatedImage.None?
    ensures s.generatedImage.Some? <==> outcome.Resolved?
    ensures outcome.Resolved? ==> ParseDataUrl(s.generatedImage.value) == Some(DataUrlParts("image/jpeg", true, outcome.imageData))
    ensures outcome.Rejected? && outcome.thrown.ErrorObject? ==> s.error == Some(outcome.thrown.message)
    ensures outcome.Rejected? && outcome.thrown.OtherValue? ==> s.error == Some(UnknownError)
  {
    match outcome
    case Resolved(data) =>
      JpegDataUrlRoundTrip(data);
      UiState(false, None, Some(JpegDataUrl(data)))
    case Rejected(thrown) => UiState(false, Some(ErrorText(thrown)), None)
  }

  /** What the result panel shows once the request has settled. An Error whose
      message is empty is falsy in the panel's test, so it falls through to the
      placeholder instead of an error. */
  lemma SettledView(outcome: Outcome)
    ensures var s := Settled(outcome);
      ImageDisplay.Render(s.generatedImage, s.isLoading, s.error) ==
        match outcome
        case Resolved(data) => ImageDisplay.Image(JpegDataUrl(data))
        case Rejected(OtherValue) => ImageDisplay.ErrorPanel(UnknownError)
        case Rejected(ErrorObject(m)) => if m == "" then ImageDisplay.Placeholder else ImageDisplay.ErrorPanel(m)
  {
    if outcome.Resolved? {
      assert JpegDataUrl(outcome.imageData)[0] == 'd';
    }
  }

  class App {
    var isLoading: bool
    var error: Option<string>
    var generatedImage: Option<string>

    function State(): UiState
      reads this
    {
      UiState(isLoading, error, generatedImage)
    }

    /** The initial state: idle, no error, no image. */
    constructor ()
      ensures State() == UiState(false, None, None)
    {
      isLoading := false;
      error := None;
      generatedImage := None;
    }

    /** The handler up to the awaited call: loading, with error and image cleared. */
    method Start()
      modifies this
      ensures State() == UiState(true, None, None)
    {
      isLoading := true;
      error := None;
      generatedImage := None;
    }

    /** The handler after the awaited call: the try or catch branch, then the
        finally block. Only the field the branch sets changes. */
    method Settle(outcome: Outcome)
      modifies this
      ensures !isLoading
      ensures outcome.Resolved? ==> generatedImage == Some(JpegDataUrl(outcome.imageData)) && error == old(error)
      ensures outcome.Rejected? ==> error == Some(ErrorText(outcome.thrown)) && generatedImage == old(generatedImage)
    {
      match outcome {
        case Resolved(data) =>
          generatedImage := Some(JpegDataUrl(data));
        case Rejected(thrown) =>
          error := Some(ErrorText(thrown));
      }
      isLoading := false;
    }

    /** handleGenerate, run to completion without another call overlapping it. */
    method HandleGenerate(outcome: Outcome)
      modifies this
      ensures State() == Settled(outcome)
    {
      Start();
      Settle(outcome);
    }
  }
}
