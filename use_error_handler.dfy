/** The `useErrorHandler` hook: turns whatever a component caught into one
    message, keeps it as the hook's `error`, and wraps async calls with
    loading/error bookkeeping. */
module UseErrorHandler {
  import opened Js
  import opened ErrorHandler

  /** What a component may throw: a plain string, an error object, or `null`/`undefined`. */
  datatype Thrown = Text(text: string) | Object(error: AppError) | Nullish

  /** Which branch of `handleError` applies, in its priority order. */
  datatype Kind = Verbatim | Api | Validation | Plain

  function Classify(t: Thrown): (k: Kind)
    ensures t.Text? <==> k == Verbatim
    ensures k == Api <==> t.Object? && t.error.response.Some?
    ensures k == Validation <==> t.Object? && t.error.response.None? && t.error.details.Some?
  {
    match t
    case Text(_) => Verbatim
    case Object(e) => if e.response.Some? then Api else if e.details.Some? then Validation else Plain
    case Nullish => Plain
  }

  /** The message `handleError` settles on. */
  function MessageFor(t: Thrown): (msg: string)
    ensures Classify(t) == Verbatim ==> msg == t.text
    ensures Classify(t) == Api ==> msg == ApiErrorMessage(t.error)
    ensures Classify(t) == Validation ==> msg == ValidationMessage(t.error)
    ensures Classify(t) == Plain && t.Object? ==> msg == OrElse(t.error.message, "An unexpected error occurred")
    ensures t.Nullish? ==> msg == "An unexpected error occurred"
  {
    match Classify(t)
    case Verbatim => t.text
    case Api => ApiErrorMessage(t.error)
    case Validation => ValidationMessage(t.error)
    case Plain => if t.Object? then OrElse(t.error.message, "An unexpected error occurred") else "An unexpected error occurred"
  }

  /** An error with a response is treated as an API error even when it also has details. */
  lemma ResponseBeforeDetails(e: AppError)
    requires e.response.Some? && e.details.Some?
    ensures MessageFor(Object(e)) == ApiErrorMessage(e)
  {
  }

  /** Only a thrown string can give an empty message. */
  lemma OnlyStringsGiveEmptyMessage(t: Thrown)
    requires !t.Text?
    ensures MessageFor(t) != ""
  {
  }

  class ErrorHook {
    var error: Option<string>
    var loading: bool

    constructor ()
      ensures error.None? && !loading
    {
      error := None;
      loading := false;
    }

    /** `handleError(err, context)`: API and validation errors are also logged by the handler. */
    method HandleError(t: Thrown, context: map<string, string>, now: string, log: ErrorLog) returns (msg: string)
      requires log.Valid()
      modifies this`error, log
      ensures log.Valid()
      ensures msg == MessageFor(t) && error == Some(msg)
      ensures Classify(t) == Api ==>
        log.errors == Logged(old(log.errors), Entry(t.error, context["type" := "API_ERROR"]["errorMessage" := msg], now))
      ensures Classify(t) == Validation ==>
        log.errors == Logged(old(log.errors), Entry(t.error, context["type" := "VALIDATION_ERROR"]["errorMessage" := msg], now))
      ensures Classify(t) == Verbatim || Classify(t) == Plain ==> log.errors == old(log.errors) && log.history == old(log.history)
    {
      match Classify(t) {
        case Verbatim => msg := t.text;
        case Api => msg := log.HandleApiError(t.error, context, now);
        case Validation => msg := log.HandleValidationError(t.error, context, now);
        case Plain =>
          msg := if t.Object? then OrElse(t.error.message, "An unexpected error occurred") else "An unexpected error occurred";
      }
      error := Some(msg);
    }

    /** `clearError()`. */
    method ClearError()
      modifies this`error
      ensures error.None?
    {
      error := None;
    }

    /** `executeWithErrorHandling(fn)`, where `outcome` is what `await fn()`
        produced: the value is returned, a failure is handled and rethrown. */
    method ExecuteWithErrorHandling<T>(outcome: Result<T, Thrown>, context: map<string, string>, now: string, log: ErrorLog)
      returns (r: Result<T, Thrown>)
      requires log.Valid()
      modifies this, log
      ensures log.Valid()
      ensures r == outcome && !loading
      ensures outcome.Ok? ==> error.None? && log.errors == old(log.errors)
      ensures outcome.Ok? ==> log.history == old(log.history)
      ensures outcome.Err? ==> error == Some(MessageFor(outcome.error))
      ensures outcome.Err? && Classify(outcome.error) == Api ==>
        log.errors == Logged(old(log.errors), Entry(outcome.error.error,
          context["type" := "API_ERROR"]["errorMessage" := MessageFor(outcome.error)], now))
      ensures outcome.Err? && Classify(outcome.error) == Validation ==>
        log.errors == Logged(old(log.errors), Entry(outcome.error.error,
          context["type" := "VALIDATION_ERROR"]["errorMessage" := MessageFor(outcome.error)], now))
      ensures outcome.Err? && (Classify(outcome.error) == Verbatim || Classify(outcome.error) == Plain) ==>
        log.errors == old(log.errors) && log.history == old(log.history)
    {
      loading := true;
      error := None;
      if outcome.Err? {
        var _ := HandleError(outcome.error, context, now, log);
      }
      r := outcome;
      loading := false;
    }
  }
}
