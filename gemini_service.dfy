/** `analyzeBloodTest`: the request to the Gemini proxy and the decoding of
    its answer. The network exchange is a parameter (`Transport`); the model
    is how the answer, or the failure to get one, becomes the resolved text
    or the rejection string. */
module GeminiService {
  import opened Wrappers
  import opened Text

  const ProxyBaseUrl: string := "https://happydoomguy.pythonanywhere.com/gemini"
  const ModelName: string := "gemini-2.5-flash"
  /** The text a proxy URL still carries when nobody configured it. */
  const ProxyPlaceholder: string := "[YOUR_PYTHONANYWHERE_APP_NAME]"

  const ConfigError: string := "Ошибка конфигурации: URL прокси-сервера не настроен. Обратитесь к администратору."
  const NoTextError: string := "Не удалось извлечь текст из ответа API. Структура ответа не соответствует ожиданиям или текст отсутствует."
  const UnknownProxyError: string := "Произошла неизвестная ошибка при обращении к прокси-серверу."
  const HttpErrorPrefix: string := "Ошибка API ("
  const ApiErrorPrefix: string := "Ошибка от API Gemini: "
  const BlockedPrefix: string := "Запрос был заблокирован. Причина: "

  function TargetUrl(proxy: string): string {
    proxy + "/models/" + ModelName + ":generateContent"
  }

  /** The message of the error thrown for a non-2xx answer. */
  function HttpError(status: int, message: string): string {
    HttpErrorPrefix + IntToString(status) + "): " + message
  }

  function NetworkError(proxy: string): string {
    "Сетевая ошибка: Не удалось подключиться к прокси-серверу. Проверьте ваше интернет-соединение и URL прокси ("
      + proxy + "). Убедитесь, что прокси-сервер запущен и доступен."
  }

  /** A value thrown inside the `try`: an `Error` with its message, or anything else. */
  datatype Thrown = JsError(message: string) | OtherValue

  datatype ApiError = ApiError(message: Option<string>)
  datatype Part = Part(text: Option<string>)
  datatype Content = Content(parts: Option<seq<Part>>)
  datatype Candidate = Candidate(content: Option<Content>)
  datatype SafetyRating = SafetyRating(category: string, probability: string)
  datatype PromptFeedback = PromptFeedback(blockReason: Option<string>, safetyRatings: Option<seq<SafetyRating>>)
  /** The JSON body of a 2xx answer; an absent field is `None`. */
  datatype ApiResponse = ApiResponse(
    text: Option<string>,
    candidates: Option<seq<Candidate>>,
    promptFeedback: Option<PromptFeedback>,
    error: Option<ApiError>)

  /** The two message fields the error handling looks at in a parsed error body. */
  datatype ErrorJson = ErrorJson(errorMessage: Option<string>, message: Option<string>)

  /** An HTTP answer. For a non-2xx one: `bodyText` is `None` when reading the
      body threw, and `parsed` is what `JSON.parse` makes of the body text
      (`None` when it throws). For a 2xx one, `json` is the parsed body or the
      message of the error `response.json()` threw. */
  datatype Response =
    | NotOk(status: int, statusText: string, bodyText: Option<string>, parsed: Option<ErrorJson>)
    | Ok(json: Result<ApiResponse, string>)

  /** The outcome of `fetch`: it rejected, or it produced a response. */
  datatype Transport = Rejected(thrown: Thrown) | Responded(response: Response)

  /** The request made, if any, and how the returned promise settles: the
      extracted text or the rejection string. */
  datatype Call = Call(url: Option<string>, result: Result<string, string>)

  /** JavaScript truthiness of an optional string. */
  predicate Truthy(o: Option<string>) {
    o.Some? && o.value != ""
  }

  /** `a || b || ... || fallback` over optional strings: the first truthy one, else the fallback. */
  function FirstTruthy(xs: seq<Option<string>>, fallback: string): (r: string)
    ensures r == fallback || exists i :: 0 <= i < |xs| && Truthy(xs[i]) && r == xs[i].value
    ensures forall i :: 0 <= i < |xs| && Truthy(xs[i]) && (forall j :: 0 <= j < i ==> !Truthy(xs[j]))
              ==> r == xs[i].value
    ensures (forall i :: 0 <= i < |xs| ==> !Truthy(xs[i])) ==> r == fallback
  {
    if |xs| == 0 then fallback
    else if Truthy(xs[0]) then xs[0].value
    else
      var r := FirstTruthy(xs[1..], fallback);
      assert forall i :: 1 <= i < |xs| ==> xs[i] == xs[1..][i - 1];
      r
  }

  /** The parsed error body the message is taken from: `JSON.parse` runs only on a non-empty body text. */
  function ParsedErrorBody(bodyText: Option<string>, parsed: Option<ErrorJson>): Option<ErrorJson> {
    if Truthy(bodyText) then parsed else None
  }

  /** The message of a non-2xx answer, by precedence: the proxy-wrapped
      `error.message`, the body's own `message`, the raw body text, the status text. */
  function NonOkMessage(statusText: string, bodyText: Option<string>, parsed: Option<ErrorJson>): string {
    match ParsedErrorBody(bodyText, parsed)
    case Some(j) => FirstTruthy([j.errorMessage, j.message, bodyText], statusText)
    case None => FirstTruthy([bodyText], statusText)
  }

  /** `candidates[0].content.parts[0].text`, when every step exists and the text is non-empty. */
  function CandidateText(data: ApiResponse): Option<string> {
    if data.candidates.Some? && |data.candidates.value| > 0 then
      match data.candidates.value[0].content
      case Some(c) =>
        if c.parts.Some? && |c.parts.value| > 0 && Truthy(c.parts.value[0].text)
        then c.parts.value[0].text else None
      case None => None
    else None
  }

  /** The text of a 2xx answer: the direct `text` field first, then the first candidate's first part. */
  function ExtractedText(data: ApiResponse): (r: Option<string>)
    ensures r.Some? ==> r.value != ""
  {
    if Truthy(data.text) then data.text else CandidateText(data)
  }

  /** `category: probability` for each rating, joined with `, `. */
  function RatingsText(rs: seq<SafetyRating>): string {
    if |rs| == 0 then ""
    else if |rs| == 1 then rs[0].category + ": " + rs[0].probability
    else rs[0].category + ": " + rs[0].probability + ", " + RatingsText(rs[1..])
  }

  /** The error thrown when no text could be extracted. */
  function NoTextMessage(data: ApiResponse): string {
    match data.promptFeedback
    case Some(f) =>
      if Truthy(f.blockReason) then
        BlockedPrefix + f.blockReason.value + ". "
          + (if f.safetyRatings.Some? then RatingsText(f.safetyRatings.value) else "")
      else NoTextError
    case None => NoTextError
  }

  /** The message of an `Error` means the network is unreachable, whatever its case. */
  predicate FetchFailure(message: string) {
    Contains(ToLower(message), "failed to fetch")
  }

  /** Whether a message reports a network failure does not depend on the
      case of its ASCII letters. */
  lemma FetchFailureCaseBlind(m: string, n: string)
    requires |m| == |n|
    requires forall i :: 0 <= i < |m| ==> ToLowerChar(m[i]) == ToLowerChar(n[i])
    ensures FetchFailure(m) <==> FetchFailure(n)
  {
    ToLowerCaseBlind(m, n);
  }

  /** The `catch` clause: the string the promise is rejected with for a thrown value. */
  function RejectionFor(thrown: Thrown, proxy: string): string {
    match thrown
    case JsError(m) => if FetchFailure(m) then NetworkError(proxy) else m
    case OtherValue => UnknownProxyError
  }

  /** The body of the `try` once a response arrived: the extracted text, or what it throws. */
  function Settle(resp: Response): Result<string, Thrown> {
    match resp
    case NotOk(status, statusText, bodyText, parsed) =>
      Failure(JsError(HttpError(status, NonOkMessage(statusText, bodyText, parsed))))
    case Ok(Failure(m)) => Failure(JsError(m))
    case Ok(Success(data)) =>
      if data.error.Some? && Truthy(data.error.value.message) then
        Failure(JsError(ApiErrorPrefix + data.error.value.message.value))
      else
        match ExtractedText(data)
        case Some(t) => Success(t)
        case None => Failure(JsError(NoTextMessage(data)))
  }

  /** `analyzeBloodTest` against the proxy at `proxy`, the exchange going as `transport` says. */
  function Analyze(proxy: string, transport: Transport): Call {
    if Contains(proxy, ProxyPlaceholder) then Call(None, Failure(ConfigError))
    else
      var outcome := match transport
                     case Rejected(th) => Failure(th)
                     case Responded(resp) => Settle(resp);
      Call(Some(TargetUrl(proxy)),
           match outcome
           case Success(t) => Success(t)
           case Failure(th) => Failure(RejectionFor(th, proxy)))
  }

  /** The message of a non-2xx answer, as the source builds it: the status
      text, replaced by the body text when one was read, then overridden by
      a message field of the parsed body. */
  method ErrorMessageOf(resp: Response) returns (errorMessage: string)
    requires resp.NotOk?
    ensures errorMessage == NonOkMessage(resp.statusText, resp.bodyText, resp.parsed)
  {
    var parsedErrorBody: Option<ErrorJson> := None;
    var errorTextDetails := resp.statusText;
    if resp.bodyText.Some? {
      var responseBodyText := resp.bodyText.value;
      errorTextDetails := if responseBodyText != "" then responseBodyText else resp.statusText;
      if responseBodyText != "" {
        parsedErrorBody := resp.parsed;
      }
    }
    errorMessage := errorTextDetails;
    if parsedErrorBody.Some? && Truthy(parsedErrorBody.value.errorMessage) {
      errorMessage := parsedErrorBody.value.errorMessage.value;
    } else if parsedErrorBody.Some? && Truthy(parsedErrorBody.value.message) {
      errorMessage := parsedErrorBody.value.message.value;
    }
    NonOkPrecedence(resp.statusText, resp.bodyText, resp.parsed);
  }

  /** `extractedText`, starting from `null` and set by the first branch that applies. */
  method ExtractText(data: ApiResponse) returns (extractedText: Option<string>)
    ensures extractedText == ExtractedText(data)
  {
    extractedText := None;
    if Truthy(data.text) {
      extractedText := data.text;
    } else if data.candidates.Some? && |data.candidates.value| > 0
           && data.candidates.value[0].content.Some?
           && data.candidates.value[0].content.value.parts.Some?
           && |data.candidates.value[0].content.value.parts.value| > 0
           && Truthy(data.candidates.value[0].content.value.parts.value[0].text) {
      extractedText := data.candidates.value[0].content.value.parts.value[0].text;
    }
  }

  /** The `try` body after `fetch` returned: the text it returns, or the value it throws. */
  method SettleResponse(resp: Response) returns (outcome: Result<string, Thrown>)
    ensures outcome == Settle(resp)
  {
    if resp.NotOk? {
      var errorMessage := ErrorMessageOf(resp);
      return Failure(JsError(HttpError(resp.status, errorMessage)));
    }
    if resp.json.Failure? {
      return Failure(JsError(resp.json.error));
    }
    var data := resp.json.value;
    if data.error.Some? && Truthy(data.error.value.message) {
      return Failure(JsError(ApiErrorPrefix + data.error.value.message.value));
    }
    var extractedText := ExtractText(data);
    if extractedText.None? {
      var message := NoTextError;
      if data.promptFeedback.Some? && Truthy(data.promptFeedback.value.blockReason) {
        var f := data.promptFeedback.value;
        message := BlockedPrefix + f.blockReason.value + ". "
                     + (if f.safetyRatings.Some? then RatingsText(f.safetyRatings.value) else "");
      }
      return Failure(JsError(message));
    }
    outcome := Success(extractedText.value);
  }

  /** `analyzeBloodTest`: the configuration guard, then the `try` whose
      thrown value the `catch` clause turns into the rejection string. */
  method AnalyzeBloodTest(proxy: string, transport: Transport) returns (url: Option<string>, r: Result<string, string>)
    ensures Call(url, r) == Analyze(proxy, transport)
  {
    if Contains(proxy, ProxyPlaceholder) {
      url := None;
      r := Failure(ConfigError);
      return;
    }
    url := Some(TargetUrl(proxy));
    var outcome: Result<string, Thrown>;
    if transport.Rejected? {
      outcome := Failure(transport.thrown);
    } else {
      outcome := SettleResponse(transport.response);
    }
    match outcome
    case Success(t) => r := Success(t);
    case Failure(th) => r := Failure(RejectionFor(th, proxy));
  }

  /** With the placeholder still in the proxy URL no request is made and the
      configuration error is the rejection; otherwise the request goes to the
      model's `generateContent` endpoint under the proxy. */
  lemma PlaceholderRejected(proxy: string, transport: Transport)
    ensures Contains(proxy, ProxyPlaceholder) <==> Analyze(proxy, transport).url.None?
    ensures Contains(proxy, ProxyPlaceholder) ==> Analyze(proxy, transport).result == Failure(ConfigError)
    ensures !Contains(proxy, ProxyPlaceholder) ==> Analyze(proxy, transport).url == Some(TargetUrl(proxy))
  {
  }

  /** The message precedence of a non-2xx answer, case by case. */
  lemma NonOkPrecedence(statusText: string, bodyText: Option<string>, parsed: Option<ErrorJson>)
    ensures var m := NonOkMessage(statusText, bodyText, parsed);
            && (Truthy(bodyText) && parsed.Some? && Truthy(parsed.value.errorMessage) ==>
                  m == parsed.value.errorMessage.value)
            && (Truthy(bodyText) && parsed.Some? && !Truthy(parsed.value.errorMessage) && Truthy(parsed.value.message) ==>
                  m == parsed.value.message.value)
            && (Truthy(bodyText) && (parsed.None? || (!Truthy(parsed.value.errorMessage) && !Truthy(parsed.value.message))) ==>
                  m == bodyText.value)
            && (!Truthy(bodyText) ==> m == statusText)
  {
    var xs := if parsed.Some? then [parsed.value.errorMessage, parsed.value.message, bodyText] else [bodyText];
    if Truthy(bodyText) && parsed.Some? {
      assert xs[2] == bodyText;
    }
  }

  /** A non-2xx answer rejects with the status and the chosen message, unless
      that text happens to read as a fetch failure. */
  lemma NonOkRejected(proxy: string, status: int, statusText: string, bodyText: Option<string>, parsed: Option<ErrorJson>)
    requires !Contains(proxy, ProxyPlaceholder)
    ensures var msg := HttpError(status, NonOkMessage(statusText, bodyText, parsed));
            Analyze(proxy, Responded(NotOk(status, statusText, bodyText, parsed))).result
              == Failure(if FetchFailure(msg) then NetworkError(proxy) else msg)
  {
  }

  /** A 2xx answer that carries `error.message` rejects with that message, whatever text it also holds. */
  lemma ApiErrorRejected(proxy: string, data: ApiResponse)
    requires !Contains(proxy, ProxyPlaceholder)
    requires data.error.Some? && Truthy(data.error.value.message)
    requires !FetchFailure(ApiErrorPrefix + data.error.value.message.value)
    ensures Analyze(proxy, Responded(Ok(Success(data)))).result
              == Failure(ApiErrorPrefix + data.error.value.message.value)
  {
  }

  /** Without an error object, a non-empty `text` field is the answer; the
      first candidate's first part is used only when `text` is missing or empty. */
  lemma TextPrecedence(proxy: string, data: ApiResponse)
    requires !Contains(proxy, ProxyPlaceholder)
    requires !(data.error.Some? && Truthy(data.error.value.message))
    ensures Truthy(data.text) ==> Analyze(proxy, Responded(Ok(Success(data)))).result == Success(data.text.value)
    ensures !Truthy(data.text) && CandidateText(data).Some? ==>
              Analyze(proxy, Responded(Ok(Success(data)))).result == Success(CandidateText(data).value)
  {
  }

  /** A resolved call always comes from a 2xx answer without an error
      message, and resolves with that answer's non-empty extracted text. */
  lemma ResolvedOnlyWithText(proxy: string, transport: Transport)
    requires Analyze(proxy, transport).result.Success?
    ensures transport.Responded? && transport.response.Ok? && transport.response.json.Success?
    ensures var data := transport.response.json.value;
            && !(data.error.Some? && Truthy(data.error.value.message))
            && ExtractedText(data) == Some(Analyze(proxy, transport).result.value)
            && Analyze(proxy, transport).result.value != ""
  {
    if transport.Responded? && transport.response.Ok? && transport.response.json.Success? {
      var data := transport.response.json.value;
      if !(data.error.Some? && Truthy(data.error.value.message)) {
        assert ExtractedText(data).Some?;
      }
    }
  }

  /** With no text to extract, the rejection names the block reason when
      the answer gives one, and is the generic message otherwise. */
  lemma NoTextRejected(proxy: string, data: ApiResponse)
    requires !Contains(proxy, ProxyPlaceholder)
    requires !(data.error.Some? && Truthy(data.error.value.message))
    requires ExtractedText(data).None?
    requires !FetchFailure(NoTextMessage(data))
    ensures var r := Analyze(proxy, Responded(Ok(Success(data)))).result;
            && r == Failure(NoTextMessage(data))
            && (data.promptFeedback.Some? && Truthy(data.promptFeedback.value.blockReason) ==>
                  IsPrefix(BlockedPrefix + data.promptFeedback.value.blockReason.value, r.error))
            && (!(data.promptFeedback.Some? && Truthy(data.promptFeedback.value.blockReason)) ==>
                  r.error == NoTextError)
  {
    assert Settle(Ok(Success(data))) == Failure(JsError(NoTextMessage(data)));
    if data.promptFeedback.Some? && Truthy(data.promptFeedback.value.blockReason) {
      var f := data.promptFeedback.value;
      var p := BlockedPrefix + f.blockReason.value;
      var rest := ". " + (if f.safetyRatings.Some? then RatingsText(f.safetyRatings.value) else "");
      assert NoTextMessage(data) == p + rest;
      PrefixOfConcat(p, rest);
    }
  }

  lemma PrefixOfConcat(p: string, rest: string)
    ensures IsPrefix(p, p + rest)
  {
    assert (p + rest)[..|p|] == p;
  }

  /** An `Error` whose message mentions "failed to fetch", in any case, is
      reported as the network error naming the proxy; any other error keeps
      its own message, and a thrown non-`Error` gives the generic message. */
  lemma CatchMapping(proxy: string, thrown: Thrown)
    requires !Contains(proxy, ProxyPlaceholder)
    ensures var r := Analyze(proxy, Rejected(thrown)).result;
            && (thrown.JsError? && FetchFailure(thrown.message) ==> r == Failure(NetworkError(proxy)))
            && (thrown.JsError? && !FetchFailure(thrown.message) ==> r == Failure(thrown.message))
            && (thrown.OtherValue? ==> r == Failure(UnknownProxyError))
  {
  }

  /** The browser's own message for an unreachable server is recognised in either spelling. */
  lemma FetchFailureSpellings()
    ensures FetchFailure("Failed to fetch")
    ensures FetchFailure("FAILED TO FETCH")
  {
    assert ToLower("Failed to fetch") == "failed to fetch";
    assert ToLower("FAILED TO FETCH") == "failed to fetch";
    ContainsItself("failed to fetch");
  }
}
