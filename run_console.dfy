/**
 * The learning page's run-code console: the code buffer, the output or error
 * of the last run, the loading flag and the measured execution time, with
 * the run, clear and reset actions and the panels the output area shows.
 */
module RunConsole {
  import opened Js

  const DefaultCode: string := "# Write your Python code here\nprint(\"Hello, World!\")"

  const AuthFailedMessage: string := "Authentication failed. Please log in again."
  const TooManyRequestsMessage: string := "Too many requests. Please wait before trying again."
  const ServerErrorMessage: string := "Server error. Please try again later."
  const UnknownErrorMessage: string := "Unknown error occurred"
  const UnexpectedErrorMessage: string := "An unexpected error occurred"

  /** The body of a reply from the execution endpoint. */
  datatype Reply = Reply(status: string, output: Option<string>, error: Option<string>)

  /** The body of an HTTP error response, as far as the console reads it. */
  datatype ErrorPayload = ErrorPayload(message: Option<string>, error: Option<string>)

  /** `err.response`: the status and the (possibly absent) body. */
  datatype HttpResponse = HttpResponse(status: int, data: Option<ErrorPayload>)

  /**
   * How the request ended: a reply with the elapsed milliseconds
   * (`endTime - startTime`), a 2xx reply whose body is `null` (reading its
   * `status` throws after the time is recorded), an HTTP-client error with or
   * without a response and with its `message`, or any other exception.
   */
  datatype Outcome =
    | Replied(reply: Reply, elapsed: int)
    | RepliedWithoutBody(elapsed: int)
    | HttpFailure(response: Option<HttpResponse>, message: string)
    | OtherFailure

  /** The output area's fields once a run has ended. */
  datatype Settled = Settled(output: string, error: string, executionTime: Option<int>)

  /** The console's observable state. */
  datatype ConsoleState = ConsoleState(
    code: string, output: string, error: string, isLoading: bool, executionTime: Option<int>)

  /** `err.response?.data?.message || err.response?.data?.error || err.message`. */
  function ReportedMessage(response: Option<HttpResponse>, message: string): (r: string)
    ensures response.None? || response.value.data.None? ==> r == message
    ensures response.Some? && response.value.data.Some? ==>
      var p := response.value.data.value;
      (Truthy(p.message) ==> r == p.message.value) &&
      (!Truthy(p.message) && Truthy(p.error) ==> r == p.error.value) &&
      (!Truthy(p.message) && !Truthy(p.error) ==> r == message)
  {
    match response
    case None => message
    case Some(resp) =>
      match resp.data
      case None => message
      case Some(p) => Or(p.message, Or(p.error, message))
  }

  /** The message the catch block shows, tested in the order 401, 429, 5xx, then the reported text. */
  function FailureMessage(o: Outcome): (r: string)
    requires o.HttpFailure? || o.OtherFailure?
    ensures o.OtherFailure? ==> r == UnexpectedErrorMessage
    ensures o.HttpFailure? && o.response.Some? ==>
      var s := o.response.value.status;
      (s == 401 ==> r == AuthFailedMessage) &&
      (s == 429 ==> r == TooManyRequestsMessage) &&
      (s >= 500 ==> r == ServerErrorMessage)
    ensures o.HttpFailure? && (o.response.None? || (o.response.value.status !in {401, 429} && o.response.value.status < 500)) ==>
      r == ReportedMessage(o.response, o.message)
  {
    match o
    case OtherFailure => UnexpectedErrorMessage
    case HttpFailure(response, message) =>
      if response.Some? && response.value.status == 401 then AuthFailedMessage
      else if response.Some? && response.value.status == 429 then TooManyRequestsMessage
      else if response.Some? && response.value.status >= 500 then ServerErrorMessage
      else ReportedMessage(response, message)
  }

  /** What the try/catch of `executeCode` leaves in the output area for a given outcome. */
  function Settle(o: Outcome): (s: Settled)
    ensures s.output == "" || s.error == ""
    ensures s.executionTime.Some? <==> o.Replied? || o.RepliedWithoutBody?
    ensures o.Replied? || o.RepliedWithoutBody? ==> s.executionTime == Some(o.elapsed)
    ensures o.Replied? && o.reply.status == "success" ==>
      s.error == "" && s.output == Or(o.reply.output, "")
    ensures o.Replied? && o.reply.status != "success" ==>
      s.output == "" && s.error == Or(o.reply.error, UnknownErrorMessage) && s.error != ""
    ensures o.RepliedWithoutBody? ==> s.output == "" && s.error == UnexpectedErrorMessage
    ensures o.HttpFailure? || o.OtherFailure? ==> s.output == "" && s.error == FailureMessage(o)
  {
    match o
    case Replied(reply, elapsed) =>
      if reply.status == "success" then Settled(Or(reply.output, ""), "", Some(elapsed))
      else Settled("", Or(reply.error, UnknownErrorMessage), Some(elapsed))
    case RepliedWithoutBody(elapsed) => Settled("", UnexpectedErrorMessage, Some(elapsed))
    case _ => Settled("", FailureMessage(o), None)
  }

  /** A refused request never shows a success panel and never reports a time. */
  lemma FailureShowsNoOutput(o: Outcome)
    requires o.HttpFailure? || o.OtherFailure?
    ensures !ShowsSuccess(Settle(o))
    ensures Settle(o).executionTime.None?
  {
  }

  /** Apart from the reported-text fallback, every failure shows an error. */
  lemma ClassifiedFailureShowsError(o: Outcome)
    requires o.OtherFailure? || (o.HttpFailure? && o.response.Some? &&
      (o.response.value.status in {401, 429} || o.response.value.status >= 500))
    ensures Settle(o).error != "" && Settle(o).output == ""
  {
  }

  /** A reply without a body shows the unexpected-error message, and still records its time. */
  lemma BodylessReplyShowsErrorWithTime(elapsed: int)
    ensures ShowsError(Settle(RepliedWithoutBody(elapsed)))
    ensures !ShowsSuccess(Settle(RepliedWithoutBody(elapsed)))
    ensures Settle(RepliedWithoutBody(elapsed)).executionTime == Some(elapsed)
  {
  }

  /** `{!output && !error && !isLoading && ...}`: the "Click Run Code" placeholder. */
  predicate ShowsPlaceholder(s: Settled, isLoading: bool): (b: bool)
    ensures b ==> !isLoading
    ensures !isLoading && !b ==> s.output != "" || s.error != ""
  {
    s.output == "" && s.error == "" && !isLoading
  }

  /** `{output && !error && ...}`: the success panel, which hides the placeholder. */
  predicate ShowsSuccess(s: Settled): (b: bool)
    ensures b ==> s.output != ""
    ensures b ==> !ShowsPlaceholder(s, false) && !ShowsPlaceholder(s, true)
  {
    s.output != "" && s.error == ""
  }

  /** `{error && ...}`: the error panel, which hides both the success panel and the placeholder. */
  predicate ShowsError(s: Settled): (b: bool)
    ensures b ==> !ShowsSuccess(s)
    ensures b ==> !ShowsPlaceholder(s, false) && !ShowsPlaceholder(s, true)
  {
    s.error != ""
  }

  /** Once no run is in flight, the output area shows exactly one of error, success and placeholder. */
  lemma ExactlyOnePanelWhenIdle(s: Settled)
    ensures ShowsError(s) || ShowsSuccess(s) || ShowsPlaceholder(s, false)
    ensures !(ShowsError(s) && ShowsSuccess(s))
    ensures !(ShowsError(s) && ShowsPlaceholder(s, false))
    ensures !(ShowsSuccess(s) && ShowsPlaceholder(s, false))
  {
  }

  class EditorComponent {
    var code: string
    var output: string
    var error: string
    var isLoading: bool
    var executionTime: Option<int>

    /**
     * Output and error never both hold text, and while a run is in flight the
     * area is cleared (only Clear and Reset can run then; Run is disabled).
     */
    ghost predicate Valid()
      reads this
    {
      (output == "" || error == "") &&
      (isLoading ==> output == "" && error == "" && executionTime.None?)
    }

    function State(): ConsoleState
      reads this
    {
      ConsoleState(code, output, error, isLoading, executionTime)
    }

    function Area(): Settled
      reads this
    {
      Settled(output, error, executionTime)
    }

    constructor ()
      ensures Valid()
      ensures State() == ConsoleState(DefaultCode, "", "", false, None)
    {
      code := DefaultCode;
      output := "";
      error := "";
      isLoading := false;
      executionTime := None;
    }

    /** The editor's change event; `undefined` leaves the code as it is. */
    method HandleCodeChange(newCode: Option<string>)
      requires Valid()
      modifies this
      ensures Valid()
      ensures code == (if newCode.Some? then newCode.value else old(code))
      ensures output == old(output) && error == old(error)
      ensures isLoading == old(isLoading) && executionTime == old(executionTime)
    {
      if newCode.Some? {
        code := newCode.value;
      }
    }

    /** The part of `executeCode` before the request is awaited. */
    method StartRun()
      requires Valid()
      modifies this
      ensures Valid()
      ensures State() == ConsoleState(old(code), "", "", true, None)
    {
      isLoading := true;
      output := "";
      error := "";
      executionTime := None;
    }

    /** The part of `executeCode` after the request ends: try/catch, then `finally`. */
    method FinishRun(o: Outcome)
      requires Valid() && isLoading
      modifies this
      ensures Valid()
      ensures code == old(code) && !isLoading
      ensures Area() == Settle(o)
    {
      match o {
        case Replied(reply, elapsed) =>
          executionTime := Some(elapsed);
          if reply.status == "success" {
            output := Or(reply.output, "");
          } else {
            error := Or(reply.error, UnknownErrorMessage);
          }
        case RepliedWithoutBody(elapsed) =>
          executionTime := Some(elapsed);
          error := UnexpectedErrorMessage;
        case HttpFailure(response, message) =>
          if response.Some? && response.value.status == 401 {
            error := AuthFailedMessage;
          } else if response.Some? && response.value.status == 429 {
            error := TooManyRequestsMessage;
          } else if response.Some? && response.value.status >= 500 {
            error := ServerErrorMessage;
          } else {
            error := ReportedMessage(response, message);
          }
        case OtherFailure =>
          error := UnexpectedErrorMessage;
      }
      isLoading := false;
    }

    /** A whole run with nothing else happening while the request is in flight. */
    method ExecuteCode(o: Outcome)
      requires Valid()
      modifies this
      ensures Valid()
      ensures code == old(code) && !isLoading
      ensures Area() == Settle(o)
    {
      StartRun();
      FinishRun(o);
    }

    method ClearOutput()
      requires Valid()
      modifies this
      ensures Valid()
      ensures State() == Cleared(old(State()))
    {
      output := "";
      error := "";
      executionTime := None;
    }

    method ResetCode()
      requires Valid()
      modifies this
      ensures Valid()
      ensures State() == Cleared(old(State()).(code := DefaultCode))
    {
      code := DefaultCode;
      ClearOutput();
    }
  }

  /** While a run is in flight the area is cleared, so only the loading indicator shows. */
  lemma LoadingShowsOnlyIndicator(s: Settled)
    requires s.output == "" && s.error == ""
    ensures !ShowsError(s) && !ShowsSuccess(s) && !ShowsPlaceholder(s, true)
  {
  }

  /** Clearing twice is the same as clearing once, and never touches the code. */
  lemma ClearIdempotent(s: ConsoleState)
    ensures Cleared(Cleared(s)) == Cleared(s)
    ensures Cleared(s).code == s.code
  {
  }

  /** The state `clearOutput` produces from `s`. */
  function Cleared(s: ConsoleState): (r: ConsoleState)
    ensures r.output == "" && r.error == "" && r.executionTime.None?
    ensures r.code == s.code && r.isLoading == s.isLoading
  {
    s.(output := "", error := "", executionTime := None)
  }
}
