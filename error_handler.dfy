/** The admin panel's global error handler: a bounded in-memory log of the
    last 100 errors and the mapping of API and validation errors to the
    message shown to the user. */
module ErrorHandler {
  import opened Js
  import opened Strings

  /** The log keeps this many entries. */
  const MaxErrors: nat := 100

  /** An HTTP error response: its status and the `message` of its body, if any. */
  datatype Response = Response(status: nat, dataMessage: Option<string>)

  /** One entry of a validation error's `details`. */
  datatype Detail = Detail(message: Option<string>)

  /** The fields of a thrown error that the handler inspects. */
  datatype AppError = AppError(
    message: Option<string>,
    response: Option<Response>,
    request: bool,
    details: Option<seq<Detail>>)

  /** What `logError` records; the stack, URL, user agent and user id are not modelled. */
  datatype LogEntry = LogEntry(timestamp: string, message: string, context: map<string, string>)

  function Entry(e: AppError, context: map<string, string>, now: string): (entry: LogEntry)
    ensures entry.message == OrElse(e.message, "Unknown error") && entry.context == context
  {
    LogEntry(now, OrElse(e.message, "Unknown error"), context)
  }

  /** The log after one `logError`: appended, then the oldest entry shifted out when over the limit. */
  function Logged(errors: seq<LogEntry>, entry: LogEntry): (r: seq<LogEntry>)
    requires |errors| <= MaxErrors
    ensures |r| <= MaxErrors && |r| >= 1
    ensures r[|r| - 1] == entry
    ensures |errors| < MaxErrors ==> r == errors + [entry]
    ensures |errors| == MaxErrors ==> r == errors[1..] + [entry]
  {
    var pushed := errors + [entry];
    if |pushed| > MaxErrors then pushed[1..] else pushed
  }

  /** The last (at most) `n` elements of `h`. */
  function LastN<T>(h: seq<T>, n: nat): (r: seq<T>)
    ensures |r| == Min(n, |h|)
  {
    if |h| <= n then h else h[|h| - n..]
  }

  /** The log always holds the last 100 entries logged since it was last cleared, oldest first. */
  lemma LoggedKeepsLast(h: seq<LogEntry>, entry: LogEntry)
    ensures Logged(LastN(h, MaxErrors), entry) == LastN(h + [entry], MaxErrors)
  {
    var h2 := h + [entry];
    if |h| >= MaxErrors {
      assert LastN(h, MaxErrors)[1..] + [entry] == h2[|h2| - MaxErrors..];
    }
  }

  /** `${status}` */
  function StatusText(status: nat): string {
    NatToString(status)
  }

  /** The message `handleApiError` returns. */
  function ApiErrorMessage(e: AppError): (msg: string)
    ensures e.response.Some? && e.response.value.status == 400 ==>
      msg == OrElse(e.response.value.dataMessage, "Invalid request data")
    ensures e.response.Some? && FixedStatus(e.response.value.status) ==> msg == FixedMessage(e.response.value.status)
    ensures e.response.Some? && !FixedStatus(e.response.value.status) && e.response.value.status != 400 ==>
      msg == OrElse(e.response.value.dataMessage, "Server error (" + StatusText(e.response.value.status) + ")")
    ensures e.response.None? && e.request ==> msg == "Network error. Please check your internet connection."
    ensures e.response.None? && !e.request ==> msg == OrElse(e.message, "An unexpected error occurred")
    ensures msg != ""
  {
    match e.response
    case Some(Response(status, data)) =>
      if status == 400 then OrElse(data, "Invalid request data")
      else if FixedStatus(status) then FixedMessage(status)
      else OrElse(data, "Server error (" + StatusText(status) + ")")
    case None =>
      if e.request then "Network error. Please check your internet connection."
      else OrElse(e.message, "An unexpected error occurred")
  }

  /** The statuses whose message does not depend on the response body. */
  predicate FixedStatus(status: nat) {
    status in {401, 403, 404, 429, 500}
  }

  function FixedMessage(status: nat): string
    requires FixedStatus(status)
  {
    if status == 401 then "Authentication required. Please login again."
    else if status == 403 then "Access denied. You don't have permission for this action."
    else if status == 404 then "Requested resource not found."
    else if status == 429 then "Too many requests. Please try again later."
    else "Server error. Please try again later."
  }

  /** Two errors with the same fixed status get the same message, whatever
      their bodies and other fields say. */
  lemma FixedStatusIgnoresBody(a: AppError, b: AppError)
    requires a.response.Some? && b.response.Some? && a.response.value.status == b.response.value.status
    requires FixedStatus(a.response.value.status)
    ensures ApiErrorMessage(a) == ApiErrorMessage(b)
  {
  }

  /** The fixed messages are pairwise different, so the status can be read back from them. */
  lemma FixedMessagesDistinct(s: nat, t: nat)
    requires FixedStatus(s) && FixedStatus(t) && FixedMessage(s) == FixedMessage(t)
    ensures s == t
  {
  }

  /** The fallback message of an unlisted status names the status, and only it. */
  lemma DefaultMessageNamesStatus(s: nat, t: nat)
    requires "Server error (" + StatusText(s) + ")" == "Server error (" + StatusText(t) + ")"
    ensures s == t
  {
    var p := "Server error (";
    var a, b := p + StatusText(s) + ")", p + StatusText(t) + ")";
    assert StatusText(s) == a[|p|..|a| - 1];
    assert StatusText(t) == b[|p|..|b| - 1];
    NatToStringInjective(s, t);
  }

  /** `details.map(d => d.message).join(', ')`; a missing message joins as the
      empty string, so two or more details always give a non-empty text. */
  function JoinDetails(details: seq<Detail>): (r: string)
    ensures details == [] ==> r == ""
    ensures |details| == 1 ==> r == OrElse(details[0].message, "")
    ensures |details| > 1 ==> |r| >= 2
    ensures r == "" <==> details == [] || (|details| == 1 && !Truthy(details[0].message))
  {
    if details == [] then ""
    else if |details| == 1 then OrElse(details[0].message, "")
    else OrElse(details[0].message, "") + ", " + JoinDetails(details[1..])
  }

  /** The message `handleValidationError` returns. */
  function ValidationMessage(e: AppError): (msg: string)
    ensures msg != ""
    ensures e.details.Some? && JoinDetails(e.details.value) != "" ==> msg == JoinDetails(e.details.value)
    ensures (e.details.None? || JoinDetails(e.details.value) == "") ==> msg == OrElse(e.message, "Validation failed")
  {
    var joined := if e.details.Some? then Some(JoinDetails(e.details.value)) else None;
    OrElse(joined, OrElse(e.message, "Validation failed"))
  }

  /** Two details without messages join to ", ", which is truthy: the error's
      own message is then not used. */
  lemma MessagelessDetailsShowSeparator(e: AppError)
    requires e.details == Some([Detail(None), Detail(None)])
    ensures ValidationMessage(e) == ", "
  {
  }

  /** An empty `details` list falls through to the error's own message. */
  lemma EmptyDetailsFallThrough(e: AppError)
    requires e.details == Some([])
    ensures ValidationMessage(e) == OrElse(e.message, "Validation failed")
  {
  }

  /** An occurrence in `b` is an occurrence in `a + b`, shifted by `|a|`. */
  lemma OccursAfter(a: string, b: string, q: string, k: nat)
    requires OccursAt(b, q, k)
    ensures OccursAt(a + b, q, |a| + k)
  {
    assert (a + b)[|a| + k..|a| + k + |q|] == b[k..k + |q|];
  }

  /** `q` occurs at the start of `q + b`. */
  lemma OccursFirst(q: string, b: string)
    ensures OccursAt(q + b, q, 0)
  {
    assert (q + b)[..|q|] == q;
  }

  /** Every detail's message appears in the joined text, at some position. */
  lemma {:induction false} JoinDetailsKeepsEach(details: seq<Detail>, i: nat)
    requires i < |details| && details[i].message.Some?
    ensures exists k: nat :: OccursAt(JoinDetails(details), details[i].message.value, k)
  {
    var m := details[i].message.value;
    if |details| == 1 {
      assert OccursAt(JoinDetails(details), m, 0);
    } else {
      var rest := JoinDetails(details[1..]);
      if i == 0 {
        assert OrElse(details[0].message, "") == m;
        OccursFirst(m, ", " + rest);
        assert m + ", " + rest == m + (", " + rest);
        assert OccursAt(JoinDetails(details), m, 0);
      } else {
        var head := OrElse(details[0].message, "") + ", ";
        assert details[1..][i - 1] == details[i];
        JoinDetailsKeepsEach(details[1..], i - 1);
        var k: nat :| OccursAt(rest, m, k);
        OccursAfter(head, rest, m, k);
        assert OccursAt(JoinDetails(details), m, |head| + k);
      }
    }
  }

  /** The validation message names every detail: each detail's own message
      is part of what `handleValidationError` returns. */
  lemma ValidationMessageShowsEachDetail(e: AppError, i: nat)
    requires e.details.Some? && i < |e.details.value| && e.details.value[i].message.Some?
    ensures Includes(ValidationMessage(e), e.details.value[i].message.value)
  {
    var m := e.details.value[i].message.value;
    IncludesIff(ValidationMessage(e), m);
    if JoinDetails(e.details.value) != "" {
      JoinDetailsKeepsEach(e.details.value, i);
    } else {
      assert m == "";
      assert OccursAt(ValidationMessage(e), m, 0);
    }
  }

  /** The singleton `ErrorHandler`. */
  class ErrorLog {
    var errors: seq<LogEntry>
    /** Every entry logged since the last clear, oldest first. */
    ghost var history: seq<LogEntry>

    ghost predicate Valid()
      reads this
    {
      errors == LastN(history, MaxErrors)
    }

    constructor ()
      ensures Valid() && errors == [] && history == []
    {
      errors := [];
      history := [];
    }

    /** `logError(error, context)`, with `now` for the timestamp. */
    method LogError(e: AppError, context: map<string, string>, now: string)
      requires Valid()
      modifies this
      ensures Valid()
      ensures history == old(history) + [Entry(e, context, now)]
      ensures errors == Logged(old(errors), Entry(e, context, now))
    {
      var entry := Entry(e, context, now);
      LoggedKeepsLast(history, entry);
      errors := errors + [entry];
      if |errors| > MaxErrors {
        errors := errors[1..];
      }
      history := history + [entry];
    }

    /** `handleApiError(error, context)`: logs with type 'API_ERROR' and returns the message. */
    method HandleApiError(e: AppError, context: map<string, string>, now: string) returns (msg: string)
      requires Valid()
      modifies this
      ensures Valid()
      ensures msg == ApiErrorMessage(e)
      ensures errors == Logged(old(errors), Entry(e, context["type" := "API_ERROR"]["errorMessage" := msg], now))
    {
      msg := ApiErrorMessage(e);
      LogError(e, context["type" := "API_ERROR"]["errorMessage" := msg], now);
    }

    /** `handleValidationError(error, context)`: logs with type 'VALIDATION_ERROR' and returns the message. */
    method HandleValidationError(e: AppError, context: map<string, string>, now: string) returns (msg: string)
      requires Valid()
      modifies this
      ensures Valid()
      ensures msg == ValidationMessage(e)
      ensures errors == Logged(old(errors), Entry(e, context["type" := "VALIDATION_ERROR"]["errorMessage" := msg], now))
    {
      msg := ValidationMessage(e);
      LogError(e, context["type" := "VALIDATION_ERROR"]["errorMessage" := msg], now);
    }

    /** `getErrors()`: the log in insertion order. */
    method GetErrors() returns (r: seq<LogEntry>)
      requires Valid()
      ensures r == LastN(history, MaxErrors) && |r| <= MaxErrors
    {
      r := errors;
    }

    /** `clearErrors()`. */
    method ClearErrors()
      modifies this
      ensures Valid() && errors == [] && history == []
    {
      errors := [];
      history := [];
    }
  }
}
