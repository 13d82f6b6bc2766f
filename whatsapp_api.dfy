/**
 * The two webhook endpoints of the WhatsApp router: the GET verification
 * handshake and the POST that receives messages.
 *
 * An endpoint either returns a JSON value or ends in an exception; FastAPI
 * answers an `HTTPException` with its status and detail and any other
 * exception with status 500.
 */
module WhatsAppApi {
  import opened Wrappers
  import opened PyStrings
  import opened PyValues
  import opened WhatsAppService

  /** How an endpoint call ends when it does not return normally. */
  datatype ApiError =
    | HttpException(statusCode: int, detail: string)
    | Unhandled(error: PyError)

  const TokenMismatch := "Verification token mismatch"

  /** The ValueError `int()` raises for a decimal string of `n` digits, more than the limit. */
  function DigitLimitError(n: nat): PyError {
    ValueError("Exceeds the limit (" + DecimalString(MaxStrDigits) + " digits) for integer string conversion: value has "
               + DecimalString(n) + " digits; use sys.set_int_max_str_digits() to increase the limit")
  }

  /**
   * `int(s)` as Python evaluates it under the default digit limit: the
   * value, or the ValueError it raises for a malformed literal or for one
   * of more than `MaxStrDigits` digits.
   */
  function PythonInt(s: string): (r: Result<int, PyError>)
    ensures r.Ok? <==> ParseInt(s).Some? && IntDigitCount(s) <= MaxStrDigits
    ensures r.Ok? ==> r.value == ParseInt(s).value
    ensures ParseInt(s).Some? && IntDigitCount(s) > MaxStrDigits ==> r == Err(DigitLimitError(IntDigitCount(s)))
    ensures r.Err? ==> r.error.ValueError?
  {
    match ParseInt(s)
    case Some(n) => if IntDigitCount(s) > MaxStrDigits then Err(DigitLimitError(IntDigitCount(s))) else Ok(n)
    case None => Err(ValueError("invalid literal for int() with base 10: '" + s + "'"))
  }

  /**
   * `verify_webhook`: a matching verify token answers the challenge as an
   * integer; any other token is refused with 403. The mode plays no part,
   * and the challenge is only parsed once the token matched.
   */
  function VerifyWebhook(settings: Settings, hubMode: string, hubChallenge: string, hubVerifyToken: string)
    : (r: Result<Json, ApiError>)
    ensures hubVerifyToken != settings.verifyToken ==> r == Err(HttpException(403, TokenMismatch))
    ensures hubVerifyToken == settings.verifyToken ==>
              && (r.Ok? <==> ParseInt(hubChallenge).Some? && IntDigitCount(hubChallenge) <= MaxStrDigits)
              && (r.Ok? ==> r.value == JInt(ParseInt(hubChallenge).value))
              && (r.Err? ==> r.error.Unhandled? && r.error.error.ValueError?)
  {
    if hubVerifyToken == settings.verifyToken then
      match PythonInt(hubChallenge)
      case Ok(challenge) => Ok(JInt(challenge))
      case Err(e) => Err(Unhandled(e))
    else
      Err(HttpException(403, TokenMismatch))
  }

  /** The mode never changes the answer. */
  lemma VerifyIgnoresMode(settings: Settings, mode1: string, mode2: string, challenge: string, token: string)
    ensures VerifyWebhook(settings, mode1, challenge, token) == VerifyWebhook(settings, mode2, challenge, token)
  {
  }

  /**
   * A correct token echoes back whatever integer the platform sent as the
   * challenge, as long as it is written in at most `MaxStrDigits` digits.
   */
  lemma VerifyEchoesChallenge(settings: Settings, mode: string, challenge: int)
    requires |DecimalString(if challenge < 0 then -challenge else challenge)| <= MaxStrDigits
    ensures VerifyWebhook(settings, mode, IntString(challenge), settings.verifyToken) == Ok(JInt(challenge))
  {
    ParseIntString(challenge);
    IntDigitCountOfString(challenge);
  }

  /**
   * A challenge of more digits than `int()` converts is an unhandled
   * ValueError, which FastAPI answers with 500, even with the correct token.
   */
  lemma LongChallengeRefused(settings: Settings, mode: string, challenge: int)
    requires |DecimalString(if challenge < 0 then -challenge else challenge)| > MaxStrDigits
    ensures VerifyWebhook(settings, mode, IntString(challenge), settings.verifyToken)
            == Err(Unhandled(DigitLimitError(|DecimalString(if challenge < 0 then -challenge else challenge)|)))
  {
    ParseIntString(challenge);
    IntDigitCountOfString(challenge);
  }

  /**
   * Whitespace around the challenge is skipped, but not the separator
   * characters U+001C to U+001F: with the right token, " 5\n" is answered
   * 5 and "\x1c5" ends in a ValueError.
   */
  lemma ChallengeWhitespace(settings: Settings, mode: string)
    ensures VerifyWebhook(settings, mode, " 5\n", settings.verifyToken) == Ok(JInt(5))
    ensures var r := VerifyWebhook(settings, mode, "\U{1C}5", settings.verifyToken);
            r.Err? && r.error.Unhandled? && r.error.error.ValueError?
  {
    assert IntStrip(" 5\n") == "5";
    assert IntStrip("\U{1C}5") == "\U{1C}5";
    assert !WellFormedDigits("\U{1C}5");
  }

  /** A wrong token is refused even when the challenge is not a number: the challenge is never parsed. */
  lemma WrongTokenNeverParses(settings: Settings, mode: string, token: string)
    requires token != settings.verifyToken
    ensures VerifyWebhook(settings, mode, "not-a-number", token) == Err(HttpException(403, TokenMismatch))
    ensures VerifyWebhook(settings, mode, "not-a-number", settings.verifyToken).Err?
  {
    assert IntStrip("not-a-number") == "not-a-number";
  }

  /**
   * `whatsapp_webhook` on a request body that decoded to `body` (or failed to
   * decode): the service's result is returned unchanged, and every exception
   * becomes a 500 whose detail is the exception's text.
   */
  function WebhookOutcome(body: Result<Json, PyError>): (Result<Json, ApiError>, Option<Task>) {
    match body
    case Err(e) => (Err(HttpException(500, ExceptionText(e))), None)
    case Ok(data) =>
      var (response, task) := Handling(data);
      match response
      case Ok(value) => (Ok(value), task)
      case Err(e) => (Err(HttpException(500, ExceptionText(e))), task)
  }

  /**
   * Whatever the body, the POST either returns exactly what the service
   * returned or fails with 500 carrying the text of the exception; only a
   * returned acknowledgement comes with a queued task.
   */
  lemma WebhookOutcomes(body: Result<Json, PyError>)
    ensures var (r, task) := WebhookOutcome(body);
            && (body.Ok? && Handling(body.value).0.Ok? ==> r == Ok(Handling(body.value).0.value) && task == Handling(body.value).1)
            && (body.Ok? && Handling(body.value).0.Err? ==>
                  r == Err(HttpException(500, ExceptionText(Handling(body.value).0.error))) && task.None?)
            && (body.Err? ==> r == Err(HttpException(500, ExceptionText(body.error))) && task.None?)
            && (r.Err? ==> r.error.HttpException? && r.error.statusCode == 500)
  {
    if body.Ok? {
      HandlingOutcomes(body.value);
    }
  }

  /** A payload missing a key is answered normally with the error dict; an empty entry list is a 500. */
  lemma MissingKeyVersusEmptyList()
    ensures WebhookOutcome(Ok(JDict(map[]))) == (Ok(InvalidPayload), None)
    ensures WebhookOutcome(Ok(Dict1("entry", JList([])))) == (Err(HttpException(500, "list index out of range")), None)
  {
    MissingEntryIsKeyError(map[]);
    EmptyEntryIsIndexError();
  }

  /** `whatsapp_webhook`: hands the decoded body to the service and maps exceptions to 500. */
  method WhatsappWebhook(body: Result<Json, PyError>, backgroundTasks: BackgroundTasks)
    returns (r: Result<Json, ApiError>)
    modifies backgroundTasks
    ensures r == WebhookOutcome(body).0
    ensures backgroundTasks.tasks
            == old(backgroundTasks.tasks) + (if WebhookOutcome(body).1.Some? then [WebhookOutcome(body).1.value] else [])
  {
    if body.Err? {
      return Err(HttpException(500, ExceptionText(body.error)));
    }
    var response := HandleIncomingMessage(body.value, backgroundTasks);
    if response.Err? {
      return Err(HttpException(500, ExceptionText(response.error)));
    }
    r := Ok(response.value);
  }
}
