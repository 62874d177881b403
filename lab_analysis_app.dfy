/** The lab-analysis page: turning the chosen file's data URL into its
    base64 payload and MIME type, the upload whitelist, and the page state
    that file selection and the analyze button update. */
module LabAnalysisApp {
  import opened Wrappers
  import opened Text
  import GeminiService

  const DataUrlFormatError: string := "Неверный формат файла Data URL"
  const WrongTypeError: string := "Пожалуйста, выберите файл изображения (JPEG, PNG, WebP) или PDF."
  const NoFileError: string := "Пожалуйста, сначала выберите файл анализов."
  const UnknownAnalysisError: string := "Произошла неизвестная ошибка при расшифровке."
  const PdfType: string := "application/pdf"

  /** The MIME types the file input accepts. */
  const AcceptedTypes: seq<string> := ["image/jpeg", "image/png", "image/webp", PdfType]

  datatype Base64File = Base64File(base64String: string, mimeType: string)

  /** `fileToFormattedBase64` once the reader produced `dataUrl`: exactly two
      comma-separated parts, the payload being the second and the MIME type
      the header's text between its first ':' and its first ';'. */
  function FileToFormattedBase64(dataUrl: string): Result<Base64File, string> {
    var parts := Split(dataUrl, ',');
    if |parts| != 2 then Failure(DataUrlFormatError)
    else
      var header := parts[0];
      Success(Base64File(parts[1], Substring(header, IndexOf(header, ':') + 1, IndexOf(header, ';'))))
  }

  /** The `data:` URL that `readAsDataURL` produces for a file of type `mime`
      (section 3 of RFC 2397, base64 form). */
  function DataUrl(mime: string, payload: string): string {
    "data:" + mime + ";base64," + payload
  }

  /** Splitting a base64 data URL gives back its MIME type and payload. */
  lemma DataUrlRoundTrip(mime: string, payload: string)
    requires ';' !in mime && ',' !in mime && ',' !in payload
    ensures FileToFormattedBase64(DataUrl(mime, payload)) == Success(Base64File(payload, mime))
  {
    var header := "data:" + mime + ";base64";
    assert DataUrl(mime, payload) == header + [','] + payload;
    assert ',' !in "data:" && ',' !in ";base64";
    SplitTwo(header, payload, ',');
    HeaderFields(mime);
  }

  /** In the header `data:<mime>;base64` the first ':' ends the scheme and
      the first ';' ends the MIME type. */
  lemma HeaderFields(mime: string)
    requires ';' !in mime
    ensures var header := "data:" + mime + ";base64";
            Substring(header, IndexOf(header, ':') + 1, IndexOf(header, ';')) == mime
  {
    var header := "data:" + mime + ";base64";
    assert header[..4] == "data";
    IndexOfIs(header, ':', 4);
    assert header[..5 + |mime|] == "data:" + mime;
    assert ';' !in "data:";
    IndexOfIs(header, ';', 5 + |mime|);
    assert header[5..5 + |mime|] == mime;
  }

  /** The URL is refused exactly when it has no comma or more than one. */
  lemma DataUrlRejected(dataUrl: string)
    ensures FileToFormattedBase64(dataUrl).Failure? <==>
              (',' !in dataUrl || ',' in dataUrl[IndexOf(dataUrl, ',') + 1..])
    ensures FileToFormattedBase64(dataUrl).Failure? ==> FileToFormattedBase64(dataUrl).error == DataUrlFormatError
  {
    SplitTwoParts(dataUrl, ',');
  }

  /** A header with no ';' (the URL form without parameters) yields as
      "type" the header up to and including its ':'. */
  lemma HeaderWithoutParameters(header: string, payload: string)
    requires ':' in header && ';' !in header && ',' !in header && ',' !in payload
    ensures FileToFormattedBase64(header + "," + payload)
              == Success(Base64File(payload, header[..IndexOf(header, ':') + 1]))
  {
    assert header + "," + payload == header + [','] + payload;
    SplitTwo(header, payload, ',');
  }

  predicate Accepted(fileType: string) {
    fileType in AcceptedTypes
  }

  /** The chosen file, as far as the page looks at it. */
  datatype File = File(fileType: string)

  /** What the reader hands back: the data URL, or the error event. */
  datatype FileRead = Read(dataUrl: string) | ReadFailed

  /** The value a failed analysis rejects with: a bare string (what
      `analyzeBloodTest` rejects with), an `Error` (the data-URL check), or
      the reader's error event, which has no `message`. */
  datatype Rejection = StringValue(s: string) | ErrorValue(message: string) | EventValue

  /** The component's state. */
  datatype PageState = PageState(
    selectedFile: Option<File>,
    previewUrl: Option<string>,
    isPdf: bool,
    analysisResult: Option<string>,
    isLoading: bool,
    error: Option<string>)

  const Initial: PageState := PageState(None, None, false, None, false, None)

  /** `handleFileChange`, with `objectUrl` the URL `URL.createObjectURL` returns for the file. */
  function FileChanged(st: PageState, file: Option<File>, objectUrl: string): PageState {
    match file
    case None => st
    case Some(f) =>
      if !Accepted(f.fileType) then
        st.(error := Some(WrongTypeError), selectedFile := None, previewUrl := None, isPdf := false)
      else if f.fileType == PdfType then
        st.(selectedFile := Some(f), analysisResult := None, error := None, previewUrl := None, isPdf := true)
      else
        st.(selectedFile := Some(f), analysisResult := None, error := None, previewUrl := Some(objectUrl), isPdf := false)
  }

  /** The synchronous part of `handleAnalyze`, up to the first `await`. */
  function AnalyzeStarted(st: PageState): PageState {
    if st.selectedFile.None? then st.(error := Some(NoFileError))
    else st.(isLoading := true, error := None, analysisResult := None)
  }

  /** How the awaited work ends: reading the file, splitting its data URL, then the Gemini call. */
  function AnalysisOutcome(read: FileRead, proxy: string, transport: GeminiService.Transport): Result<string, Rejection> {
    match read
    case ReadFailed => Failure(EventValue)
    case Read(url) =>
      match FileToFormattedBase64(url)
      case Failure(m) => Failure(ErrorValue(m))
      case Success(_) =>
        match GeminiService.Analyze(proxy, transport).result
        case Success(t) => Success(t)
        case Failure(s) => Failure(StringValue(s))
  }

  /** The error the page shows as written: `err.message || generic`. Only an `Error` has a message. */
  function ShownErrorAsWritten(v: Rejection): string {
    match v
    case ErrorValue(m) => if m != "" then m else UnknownAnalysisError
    case _ => UnknownAnalysisError
  }

  /** The error shown, reading the text of a rejection whichever form it takes. */
  function ShownError(v: Rejection): (r: string)
    ensures r != ""
  {
    match v
    case StringValue(s) => if s != "" then s else UnknownAnalysisError
    case ErrorValue(m) => if m != "" then m else UnknownAnalysisError
    case EventValue => UnknownAnalysisError
  }

  /** The `try`/`catch`/`finally` after the awaits: the result or the shown error, and loading ends. */
  function Settled(st: PageState, outcome: Result<string, Rejection>): PageState {
    match outcome
    case Success(t) => st.(analysisResult := Some(t), isLoading := false)
    case Failure(v) => st.(error := Some(ShownError(v)), isLoading := false)
  }

  /** The whole of `handleAnalyze` once every await has completed. */
  function Analyzed(st: PageState, read: FileRead, proxy: string, transport: GeminiService.Transport): PageState {
    if st.selectedFile.None? then AnalyzeStarted(st)
    else Settled(AnalyzeStarted(st), AnalysisOutcome(read, proxy, transport))
  }

  /** The page's own consistency: a selection is always of an accepted type;
      a PDF has no preview and an image has one; without a selection there
      is no preview and no PDF flag. */
  predicate Consistent(st: PageState) {
    && (st.selectedFile.Some? ==>
          && Accepted(st.selectedFile.value.fileType)
          && (st.isPdf <==> st.selectedFile.value.fileType == PdfType)
          && (st.isPdf <==> st.previewUrl.None?))
    && (st.selectedFile.None? ==> st.previewUrl.None? && !st.isPdf)
  }

  lemma InitialConsistent()
    ensures Consistent(Initial)
  {
  }

  /** Selecting a file, starting and finishing an analysis all keep the page consistent. */
  lemma ConsistentPreserved(st: PageState, file: Option<File>, objectUrl: string, read: FileRead,
                            proxy: string, transport: GeminiService.Transport)
    requires Consistent(st)
    ensures Consistent(FileChanged(st, file, objectUrl))
    ensures Consistent(AnalyzeStarted(st))
    ensures Consistent(Analyzed(st, read, proxy, transport))
  {
  }

  /** A file of another type is refused: the selection and preview go, the
      type error is shown, and an earlier result stays. */
  lemma WrongTypeRefused(st: PageState, f: File, objectUrl: string)
    requires !Accepted(f.fileType)
    ensures var r := FileChanged(st, Some(f), objectUrl);
            && r.selectedFile.None? && r.previewUrl.None? && !r.isPdf
            && r.error == Some(WrongTypeError)
            && r.analysisResult == st.analysisResult && r.isLoading == st.isLoading
  {
  }

  /** An accepted file becomes the selection and clears the last result and
      error; it is a PDF (no preview) exactly when its type is PDF. */
  lemma AcceptedSelected(st: PageState, f: File, objectUrl: string)
    requires Accepted(f.fileType)
    ensures var r := FileChanged(st, Some(f), objectUrl);
            && r.selectedFile == Some(f) && r.analysisResult.None? && r.error.None?
            && (r.isPdf <==> f.fileType == PdfType)
            && (r.isPdf ==> r.previewUrl.None?)
            && (!r.isPdf ==> r.previewUrl == Some(objectUrl))
            && r.isLoading == st.isLoading
  {
  }

  /** Of the four accepted types exactly one is a PDF, and nothing else is accepted. */
  lemma AcceptedTypesListed(t: string)
    ensures Accepted(t) <==> t == "image/jpeg" || t == "image/png" || t == "image/webp" || t == PdfType
  {
  }

  /** Analyze without a selection only shows the no-file error; loading does not start. */
  lemma NoFileGuard(st: PageState, read: FileRead, proxy: string, transport: GeminiService.Transport)
    requires st.selectedFile.None?
    ensures Analyzed(st, read, proxy, transport) == st.(error := Some(NoFileError))
    ensures AnalyzeStarted(st).isLoading == st.isLoading
  {
  }

  /** While the analysis is awaited the page is loading with no result and no error;
      when it ends loading has stopped and exactly one of result and error is set. */
  lemma AnalysisLifecycle(st: PageState, read: FileRead, proxy: string, transport: GeminiService.Transport)
    requires st.selectedFile.Some?
    ensures var m := AnalyzeStarted(st);
            m.isLoading && m.error.None? && m.analysisResult.None?
    ensures var r := Analyzed(st, read, proxy, transport);
            && !r.isLoading
            && (r.analysisResult.Some? <==> r.error.None?)
            && r.selectedFile == st.selectedFile
  {
  }

  /** As written, any rejection of the Gemini call (a bare string) is shown
      as the generic error, never its own text. */
  lemma ServiceErrorHiddenAsWritten(url: string, proxy: string, transport: GeminiService.Transport)
    requires FileToFormattedBase64(url).Success?
    requires GeminiService.Analyze(proxy, transport).result.Failure?
    ensures AnalysisOutcome(Read(url), proxy, transport).Failure?
    ensures ShownErrorAsWritten(AnalysisOutcome(Read(url), proxy, transport).error) == UnknownAnalysisError
  {
  }

  /** For the unconfigured proxy the configuration error is what the user
      should read, yet the page as written shows the generic text instead. */
  lemma ConfigErrorHiddenAsWritten(mime: string, payload: string, proxy: string, transport: GeminiService.Transport)
    requires ';' !in mime && ',' !in mime && ',' !in payload
    requires Contains(proxy, GeminiService.ProxyPlaceholder)
    ensures var v := AnalysisOutcome(Read(DataUrl(mime, payload)), proxy, transport);
            && v == Failure(StringValue(GeminiService.ConfigError))
            && ShownErrorAsWritten(v.error) == UnknownAnalysisError
            && ShownErrorAsWritten(v.error) != GeminiService.ConfigError
  {
    DataUrlRoundTrip(mime, payload);
  }

  /** Reading the rejection's text, the page shows exactly the non-empty
      message the Gemini call or the data-URL check rejected with. */
  lemma ServiceErrorShown(read: FileRead, proxy: string, transport: GeminiService.Transport)
    requires read.Read?
    ensures var v := AnalysisOutcome(read, proxy, transport);
            && (FileToFormattedBase64(read.dataUrl).Failure? ==> ShownError(v.error) == DataUrlFormatError)
            && (FileToFormattedBase64(read.dataUrl).Success? && GeminiService.Analyze(proxy, transport).result.Failure?
                && GeminiService.Analyze(proxy, transport).result.error != "" ==>
                  ShownError(v.error) == GeminiService.Analyze(proxy, transport).result.error)
  {
    DataUrlRejected(read.dataUrl);
  }

  /** The component, its state variables as fields. */
  class LabAnalysisPage {
    var selectedFile: Option<File>
    var previewUrl: Option<string>
    var isPdf: bool
    var analysisResult: Option<string>
    var isLoading: bool
    var error: Option<string>

    ghost function State(): PageState
      reads this
    {
      PageState(selectedFile, previewUrl, isPdf, analysisResult, isLoading, error)
    }

    constructor ()
      ensures State() == Initial
    {
      selectedFile := None;
      previewUrl := None;
      isPdf := false;
      analysisResult := None;
      isLoading := false;
      error := None;
    }

    /** `handleFileChange` for the first chosen file, if any. */
    method HandleFileChange(file: Option<File>, objectUrl: string)
      modifies this
      ensures State() == FileChanged(old(State()), file, objectUrl)
    {
      if file.Some? {
        var f := file.value;
        if f.fileType !in AcceptedTypes {
          error := Some(WrongTypeError);
          selectedFile := None;
          previewUrl := None;
          isPdf := false;
          return;
        }
        selectedFile := Some(f);
        analysisResult := None;
        error := None;
        if f.fileType == PdfType {
          previewUrl := None;
          isPdf := true;
        } else {
          previewUrl := Some(objectUrl);
          isPdf := false;
        }
      }
    }

    /** `handleAnalyze`, run until its awaits complete; `started` says whether it got past the guard. */
    method HandleAnalyze(read: FileRead, proxy: string, transport: GeminiService.Transport) returns (started: bool)
      modifies this
      ensures started <==> old(selectedFile).Some?
      ensures State() == Analyzed(old(State()), read, proxy, transport)
    {
      if selectedFile.None? {
        error := Some(NoFileError);
        return false;
      }
      started := true;
      isLoading := true;
      error := None;
      analysisResult := None;
      var outcome: Result<string, Rejection>;
      match read {
        case ReadFailed =>
          outcome := Failure(EventValue);
        case Read(url) =>
          match FileToFormattedBase64(url) {
            case Failure(m) =>
              outcome := Failure(ErrorValue(m));
            case Success(_) =>
              var _, r := GeminiService.AnalyzeBloodTest(proxy, transport);
              outcome := match r case Success(t) => Success(t) case Failure(s) => Failure(StringValue(s));
          }
      }
      if outcome.Success? {
        analysisResult := Some(outcome.value);
      } else {
        error := Some(ShownError(outcome.error));
      }
      isLoading := false;
    }
  }
}
