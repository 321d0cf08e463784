/** What the model-backed path and the endpoint of app/parser.py promise. */
module ModelPathProperties {
  import opened Wrappers
  import opened Text
  import opened Utils
  import opened Parser

  /** A key is reported missing exactly when the reply lacks it or leaves it empty. */
  lemma {:induction false} MissingFieldsSpec(result: map<string, string>, fields: seq<string>, key: string)
    ensures key in MissingFields(result, fields) <==> key in fields && Field(result, key) == ""
    decreases fields
  {
    if fields != [] {
      MissingFieldsSpec(result, fields[1..], key);
      assert fields == [fields[0]] + fields[1..];
    }
  }

  /** No hallucination warning is logged exactly when all four fields of the response are non-empty. */
  lemma NoWarningsIffComplete(result: map<string, string>)
    ensures HallucinationLog(result, ResponseFields) == [] <==>
      var r := ShapeResponse(result);
      r.destination != "" && r.passportCountry != "" && r.travelDate != "" && r.purpose != ""
  {
    var m := MissingFields(result, ResponseFields);
    MissingFieldsSpec(result, ResponseFields, "destination");
    MissingFieldsSpec(result, ResponseFields, "passport_country");
    MissingFieldsSpec(result, ResponseFields, "travel_date");
    MissingFieldsSpec(result, ResponseFields, "purpose");
    if m != [] {
      MissingFieldsSpec(result, ResponseFields, m[0]);
    }
  }

  /**
   * One attempt fails exactly when the key is missing, the client setup raises
   * or the service errs; otherwise it yields the reply's fields with "" for any
   * that is absent.
   */
  lemma GeminiCallOutcome(apiKey: Option<string>, reply: Reply)
    ensures GeminiCall(apiKey, reply).outcome.Failure? <==>
      !KeyConfigured(apiKey) || reply.SetupError? || reply.ServiceError?
    // an exception from the client setup escapes as it is, with no record
    ensures KeyConfigured(apiKey) && reply.SetupError? ==>
      GeminiCall(apiKey, reply) == Attempt(Failure(reply.error), [])
    ensures !KeyConfigured(apiKey) ==>
      GeminiCall(apiKey, reply) ==
        Attempt(Failure(HttpException(500, "Gemini API key not configured")),
                [LogEntry(Error, Text("Gemini API key not set"))])
    ensures KeyConfigured(apiKey) && reply.ServiceError? ==>
      GeminiCall(apiKey, reply) ==
        Attempt(Failure(HttpException(500, "Gemini API call failed")),
                [LogEntry(Error, Text("Gemini API call failed: " + reply.reason))])
    ensures GeminiCall(apiKey, reply).outcome.Success? ==>
      var r := GeminiCall(apiKey, reply).outcome.value;
      r.destination == Field(reply.result, "destination") &&
      r.passportCountry == Field(reply.result, "passport_country") &&
      r.travelDate == Field(reply.result, "travel_date") &&
      r.purpose == Field(reply.result, "purpose")
  {
  }

  /** Without a configured key every attempt fails, so the endpoint always falls back after three. */
  lemma MissingKeyExhaustsRetries(query: string, apiKey: Option<string>, service: (string, nat) -> Reply)
    requires !KeyConfigured(apiKey)
    ensures FailedUpTo(GeminiAttempts(query, apiKey, service), 3)
    ensures FailureLog(GeminiAttempts(query, apiKey, service), 3) == [
      LogEntry(Error, Text("Gemini API key not set")),
      LogEntry(Warning, AttemptFailed(1, HttpException(500, "Gemini API key not configured"))),
      LogEntry(Error, Text("Gemini API key not set")),
      LogEntry(Warning, AttemptFailed(2, HttpException(500, "Gemini API key not configured"))),
      LogEntry(Error, Text("Gemini API key not set")),
      LogEntry(Warning, AttemptFailed(3, HttpException(500, "Gemini API key not configured")))]
  {
    var f := GeminiAttempts(query, apiKey, service);
    var e := HttpException(500, "Gemini API key not configured");
    var notSet := LogEntry(Error, Text("Gemini API key not set"));
    forall k: nat | k < 3
      ensures f(k) == Attempt(Failure(e), [notSet])
    {
      GeminiCallOutcome(apiKey, service(Prompt(query), k));
    }
    ThreeFailuresLog(f, e, notSet);
  }

  /** Three calls that each fail with `e` after logging `entry` leave their record and a warning, three times. */
  lemma ThreeFailuresLog<T>(f: nat -> Attempt<T>, e: Exception, entry: LogEntry)
    requires forall k: nat :: k < 3 ==> f(k) == Attempt(Failure(e), [entry])
    ensures FailedUpTo(f, 3)
    ensures FailureLog(f, 3) == [
      entry, LogEntry(Warning, AttemptFailed(1, e)),
      entry, LogEntry(Warning, AttemptFailed(2, e)),
      entry, LogEntry(Warning, AttemptFailed(3, e))]
  {
    assert f(0) == Attempt(Failure(e), [entry]);
    assert f(1) == Attempt(Failure(e), [entry]);
    assert f(2) == Attempt(Failure(e), [entry]);
    assert FailureLog(f, 1) == [entry, LogEntry(Warning, AttemptFailed(1, e))];
    assert FailureLog(f, 2) == FailureLog(f, 1) + [entry, LogEntry(Warning, AttemptFailed(2, e))];
    assert FailureLog(f, 3) == FailureLog(f, 2) + [entry, LogEntry(Warning, AttemptFailed(3, e))];
  }

  /** A service that errs on each of the three prompts makes the endpoint fall back. */
  lemma ServiceDownExhaustsRetries(query: string, apiKey: Option<string>, service: (string, nat) -> Reply)
    requires forall k: nat :: k < 3 ==> service(Prompt(query), k).ServiceError?
    ensures FailedUpTo(GeminiAttempts(query, apiKey, service), 3)
  {
    forall k: nat | k < 3
      ensures GeminiAttempts(query, apiKey, service)(k).outcome.Failure?
    {
      GeminiCallOutcome(apiKey, service(Prompt(query), k));
    }
  }
}
