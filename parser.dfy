/**
 * app/parser.py: the heuristic field extractor `extract_query_data`, the
 * model-backed extractor `parse_query_with_gemini` (with the service itself
 * as an opaque reply per attempt) and the endpoint `parse_query` that falls
 * back from the second to the first.
 */
module Parser {
  import opened Wrappers
  import opened Text
  import opened Regex
  import opened Utils

  /** The four fields of the response: destination, passport_country, travel_date, purpose. */
  datatype QueryFields = QueryFields(
    destination: string,
    passportCountry: string,
    travelDate: string,
    purpose: string)

  // ---------------------------------------------------------------------------
  // The pattern tables, in the order the source lists them
  // ---------------------------------------------------------------------------

  const DestinationPatterns: seq<Pattern> := [
    Capture(["going to "], []),                    // going to (\w+)
    Capture(["traveling to ", "travel to "], []),  // travel(?:ing)? to (\w+)
    Capture(["traveling to "], []),                // traveling to (\w+)
    LazyCapture("visa requirements", "to "),       // visa requirements.*?to (\w+)
    Capture(["going to "], []),                    // going to (\w+)
    Capture(["visit to "], []),                    // visit to (\w+)
    Capture(["holder traveling to "], []),         // holder traveling to (\w+)
    Capture(["going to "], []),                    // going to (\w+)
    Capture(["to "], [])                           // to (\w+)
  ]

  /** The destination patterns with the ones that can never be the first to match removed. */
  const DistinctDestinationPatterns: seq<Pattern> := [
    DestinationPatterns[0], DestinationPatterns[1], DestinationPatterns[3],
    DestinationPatterns[5], DestinationPatterns[8]
  ]

  /** ` passport`, character by character. */
  const PassportTail: seq<Atom> :=
    [Lit(' '), Lit('p'), Lit('a'), Lit('s'), Lit('s'), Lit('p'), Lit('o'), Lit('r'), Lit('t')]

  /** ` passport holder`, character by character. */
  const HolderTail: seq<Atom> := PassportTail +
    [Lit(' '), Lit('h'), Lit('o'), Lit('l'), Lit('d'), Lit('e'), Lit('r')]

  const PassportPatterns: seq<Pattern> := [
    Capture(["on an ", "on a "], PassportTail),           // on an? (\w+) passport
    Capture(["with an ", "with a "], PassportTail),       // with an? (\w+) passport
    Capture(["for an ", "for a "], HolderTail),           // for an? (\w+) passport holder
    Capture(["for an ", "for a "], HolderTail),           // for a[n]? (\w+) passport holder
    Capture(["on a "], PassportTail),                     // on a (\w+) passport
    Capture([""], HolderTail)                             // (\w+) passport holder
  ]

  const MonthNames: seq<string> := [
    "january", "february", "march", "april", "may", "june",
    "july", "august", "september", "october", "november", "december"
  ]

  const DatePatterns: seq<Pattern> := [
    Capture(["next "], []),                                  // next (\w+)
    Capture(["in "], []),                                    // in (\w+)
    Capture(["in the month of "], []),                       // in the month of (\w+)
    Capture(["for "], [Lit(' '), Digit, Digit, Digit, Digit]) // for (\w+) (\d{4})
  ]

  const PurposeKeywords: seq<string> := [
    "tourism", "business", "vacation", "study", "family visit", "visit", "work", "conference"
  ]

  /** `for (a |an )?<keyword>\b`. */
  function KeywordPattern(keyword: string): Pattern {
    Phrase(["for a " + keyword, "for an " + keyword, "for " + keyword], true)
  }

  /** A month name searched for as a plain pattern: any occurrence, any case. */
  function MonthPattern(month: string): Pattern {
    Phrase([month], false)
  }

  const FamilyVisitPattern: Pattern := Phrase(["family visit"], false)

  /** The alias table for passport tokens, keyed by the lower-cased token. */
  const CountryAliases: map<string, string> := map[
    "us" := "US", "uk" := "UK", "british" := "UK", "american" := "US",
    "canadian" := "Canada", "indian" := "India", "australian" := "Australia"
  ]

  /** Python truthiness of a variable that is `None` or a string. */
  predicate Truthy(v: Option<string>) {
    v.Some? && v.value != ""
  }

  // ---------------------------------------------------------------------------
  // What the extractor computes, field by field
  // ---------------------------------------------------------------------------

  /** The capture of the first pattern, in list order, that matches anywhere. */
  function FirstCapture(q: string, ps: seq<Pattern>): Option<string>
    decreases ps
  {
    if ps == [] then None
    else
      var m := Search(q, ps[0]);
      if m.Some? then m else FirstCapture(q, ps[1..])
  }

  /** The passport token mapped through the alias chain, compared case-insensitively. */
  function NormalizeCountry(token: string): (r: string)
    ensures r == if Lower(token) in CountryAliases then CountryAliases[Lower(token)] else token
  {
    var t := Lower(token);
    if t == "us" then "US"
    else if t == "uk" || t == "british" then "UK"
    else if t == "american" then "US"
    else if t == "canadian" then "Canada"
    else if t == "indian" then "India"
    else if t == "australian" then "Australia"
    else token
  }

  /** The first match, over the patterns in order, whose lower-cased capture is a month name. */
  function FirstMonthCapture(q: string, ps: seq<Pattern>): Option<string>
    decreases ps
  {
    if ps == [] then None
    else
      var m := Search(q, ps[0]);
      if m.Some? && Lower(m.value) in MonthNames then m else FirstMonthCapture(q, ps[1..])
  }

  /** The capitalised form of the first month, in list order, that occurs anywhere in `q`. */
  function MentionedMonth(q: string, months: seq<string>): Option<string>
    decreases months
  {
    if months == [] then None
    else if Search(q, MonthPattern(months[0])).Some? then Some(Capitalize(months[0]))
    else MentionedMonth(q, months[1..])
  }

  /** The first keyword, in list order, that `for (a |an )?<keyword>\b` finds; "visit" yields to "family visit". */
  function PurposeFrom(q: string, keywords: seq<string>): Option<string>
    decreases keywords
  {
    if keywords == [] then None
    else if Search(q, KeywordPattern(keywords[0])).Some? then
      if keywords[0] == "visit" && Search(q, FamilyVisitPattern).Some? then Some("family visit")
      else Some(keywords[0])
    else PurposeFrom(q, keywords[1..])
  }

  /** The canonical spelling of a purpose; anything outside the five listed spellings is kept. */
  function NormalizePurpose(p: string): string {
    var l := Lower(p);
    if l == "vacation" then "vacation"
    else if l == "family visit" then "family visit"
    else if l == "study" then "study"
    else if l == "tourism" then "tourism"
    else if l == "business" then "business"
    else p
  }

  function Destination(q: string): Option<string> {
    FirstCapture(q, DestinationPatterns)
  }

  function PassportCountry(q: string): Option<string> {
    var t := FirstCapture(q, PassportPatterns);
    if t.Some? then Some(NormalizeCountry(t.value)) else None
  }

  function TravelDate(q: string): Option<string> {
    var d := FirstMonthCapture(q, DatePatterns);
    if Truthy(d) then d
    else
      var f := MentionedMonth(q, MonthNames);
      if f.Some? then f else d
  }

  function Purpose(q: string): Option<string> {
    var p := PurposeFrom(q, PurposeKeywords);
    if Truthy(p) then Some(NormalizePurpose(p.value)) else p
  }

  const InvalidFormat: Exception := HttpException(400, "Invalid query format")

  /** The result of `extract_query_data(q)`: all four fields, or the 400 error. */
  function Extract(q: string): Result<QueryFields, Exception> {
    var d, c, t, p := Destination(q), PassportCountry(q), TravelDate(q), Purpose(q);
    if Truthy(d) && Truthy(c) && Truthy(t) && Truthy(p) then
      Success(QueryFields(d.value, c.value, t.value, p.value))
    else Failure(InvalidFormat)
  }

  // ---------------------------------------------------------------------------
  // extract_query_data
  // ---------------------------------------------------------------------------

  /** The destination loop of `extract_query_data`: the first pattern that matches wins. */
  method ScanDestination(query: string) returns (destination: Option<string>)
    ensures destination == Destination(query)
  {
    destination := None;
    var i := 0;
    while i < |DestinationPatterns|
      invariant i <= |DestinationPatterns| && destination == None
      invariant Destination(query) == FirstCapture(query, DestinationPatterns[i..])
    {
      var m := Search(query, DestinationPatterns[i]);
      if m.Some? {
        destination := m;
        break;
      }
      i := i + 1;
    }
  }

  /** The passport loop: the first pattern that matches wins, and its token goes through the alias chain. */
  method ScanPassportCountry(query: string) returns (passportCountry: Option<string>)
    ensures passportCountry == PassportCountry(query)
  {
    passportCountry := None;
    var i := 0;
    while i < |PassportPatterns|
      invariant i <= |PassportPatterns| && passportCountry == None
      invariant FirstCapture(query, PassportPatterns) == FirstCapture(query, PassportPatterns[i..])
    {
      var m := Search(query, PassportPatterns[i]);
      if m.Some? {
        passportCountry := Some(NormalizeCountry(m.value));
        break;
      }
      i := i + 1;
    }
  }

  /** The date loops: a pattern's capture counts only if it is a month name; otherwise the month list is scanned. */
  method ScanTravelDate(query: string) returns (travelDate: Option<string>)
    ensures travelDate == TravelDate(query)
  {
    travelDate := None;
    var i := 0;
    while i < |DatePatterns|
      invariant i <= |DatePatterns| && travelDate == None
      invariant FirstMonthCapture(query, DatePatterns) == FirstMonthCapture(query, DatePatterns[i..])
    {
      var m := Search(query, DatePatterns[i]);
      if m.Some? {
        var candidate := m.value;
        if Lower(candidate) in MonthNames {
          travelDate := Some(candidate);
          break;
        }
      }
      i := i + 1;
    }
    if !Truthy(travelDate) {
      var mentioned := ScanMonthNames(query);
      if mentioned.Some? {
        travelDate := mentioned;
      }
    }
  }

  /** The fallback loop of the date scan: the first month name, in list order, found anywhere. */
  method ScanMonthNames(query: string) returns (month: Option<string>)
    ensures month == MentionedMonth(query, MonthNames)
  {
    month := None;
    var k := 0;
    while k < |MonthNames|
      invariant k <= |MonthNames| && month == None
      invariant MentionedMonth(query, MonthNames) == MentionedMonth(query, MonthNames[k..])
    {
      if Search(query, MonthPattern(MonthNames[k])).Some? {
        month := Some(Capitalize(MonthNames[k]));
        break;
      }
      k := k + 1;
    }
  }

  /** The purpose loop and the normalisation after it. */
  method ScanPurpose(query: string) returns (purpose: Option<string>)
    ensures purpose == Purpose(query)
  {
    purpose := None;
    var i := 0;
    while i < |PurposeKeywords|
      invariant i <= |PurposeKeywords| && purpose == None
      invariant PurposeFrom(query, PurposeKeywords) == PurposeFrom(query, PurposeKeywords[i..])
    {
      var keyword := PurposeKeywords[i];
      if Search(query, KeywordPattern(keyword)).Some? {
        if keyword == "visit" && Search(query, FamilyVisitPattern).Some? {
          purpose := Some("family visit");
        } else {
          purpose := Some(keyword);
        }
        break;
      }
      i := i + 1;
    }
    if Truthy(purpose) {
      purpose := Some(NormalizePurpose(purpose.value));
    }
  }

  /** `extract_query_data(query)`: the four scans, then the all-fields check. */
  method ExtractQueryData(query: string) returns (r: Result<QueryFields, Exception>)
    ensures r == Extract(query)
  {
    var destination := ScanDestination(query);
    var passportCountry := ScanPassportCountry(query);
    var travelDate := ScanTravelDate(query);
    var purpose := ScanPurpose(query);
    if !(Truthy(destination) && Truthy(passportCountry) && Truthy(travelDate) && Truthy(purpose)) {
      return Failure(InvalidFormat);
    }
    r := Success(QueryFields(destination.value, passportCountry.value, travelDate.value, purpose.value));
  }

  // ---------------------------------------------------------------------------
  // call_gemini_api and parse_query_with_gemini
  // ---------------------------------------------------------------------------

  /**
   * What one request to the generative model comes back with:
   *   SetupError   `genai.configure` or the model construction raised `error`;
   *                this happens before the `try`, so it escapes unchanged;
   *   ServiceError generating the content, reading the reply text or `json.loads`
   *                raised, with that message; the `try` turns it into a 500;
   *   JsonReply    the decoded JSON object, with string values.
   */
  datatype Reply =
    | SetupError(error: Exception)
    | ServiceError(reason: string)
    | JsonReply(result: map<string, string>)

  /** The JSON keys read from the model's reply, in the order they are checked. */
  const ResponseFields: seq<string> := ["destination", "passport_country", "travel_date", "purpose"]

  /** The instruction sent to the model, with the query quoted at its end. */
  function Prompt(query: string): (r: string)
    ensures |r| == |PromptPrefix| + |query| + 1
    ensures r[..|PromptPrefix|] == PromptPrefix
    ensures r[|PromptPrefix|..|r| - 1] == query && r[|r| - 1] == '\''
  {
    PromptPrefix + query + "'"
  }

  const PromptPrefix: string :=
    "Extract the following fields from this visa query: "
    + "destination, passport_country, travel_date, purpose. "
    + "Return as JSON. Query: '"

  /** The keys of `fields`, in order, that the reply lacks or leaves empty. */
  function MissingFields(result: map<string, string>, fields: seq<string>): seq<string>
    decreases fields
  {
    if fields == [] then []
    else
      var rest := MissingFields(result, fields[1..]);
      if fields[0] !in result || result[fields[0]] == "" then [fields[0]] + rest else rest
  }

  /**
   * The warnings logged for a reply: one per missing field, in order, each the
   * record `log_message(..., level="warning")` keeps (LogMessageByName).
   */
  function HallucinationLog(result: map<string, string>, fields: seq<string>): (r: seq<LogEntry>)
    ensures |r| == |MissingFields(result, fields)|
    ensures forall i :: 0 <= i < |r| ==>
      r[i] == LogEntry(Warning, Text("Possible hallucination: missing " + MissingFields(result, fields)[i]))
    decreases fields
  {
    if fields == [] then []
    else
      var here :=
        if fields[0] !in result || result[fields[0]] == "" then
          [LogEntry(Warning, Text("Possible hallucination: missing " + fields[0]))]
        else [];
      here + HallucinationLog(result, fields[1..])
  }

  /** `result.get(field, "")` for a key of the reply. */
  function Field(result: map<string, string>, key: string): string {
    if key in result then result[key] else ""
  }

  /** The response built from a reply; an absent field becomes the empty string. */
  function ShapeResponse(result: map<string, string>): QueryFields {
    QueryFields(
      Field(result, "destination"), Field(result, "passport_country"),
      Field(result, "travel_date"), Field(result, "purpose"))
  }

  /** Whether the API key read from the environment is usable: set and not empty. */
  predicate KeyConfigured(apiKey: Option<string>) {
    Truthy(apiKey)
  }

  /**
   * One call of the retried closure of `parse_query_with_gemini`: `call_gemini_api`
   * (key check, then the request), the hallucination warnings, then the response.
   * Each `log_message(..., level="error")` keeps one error record (LogMessageByName).
   */
  function GeminiCall(apiKey: Option<string>, reply: Reply): Attempt<QueryFields> {
    if !KeyConfigured(apiKey) then
      Attempt(Failure(HttpException(500, "Gemini API key not configured")),
              [LogEntry(Error, Text("Gemini API key not set"))])
    else match reply
      case SetupError(error) => Attempt(Failure(error), [])
      case ServiceError(reason) =>
        Attempt(Failure(HttpException(500, "Gemini API call failed")),
                [LogEntry(Error, Text("Gemini API call failed: " + reason))])
      case JsonReply(result) =>
        Attempt(Success(ShapeResponse(result)), HallucinationLog(result, ResponseFields))
  }

  /** The retried closure, for a service that answers prompt `p` on call `k` with `service(p, k)`. */
  function GeminiAttempts(query: string, apiKey: Option<string>, service: (string, nat) -> Reply): nat -> Attempt<QueryFields> {
    (k: nat) => GeminiCall(apiKey, service(Prompt(query), k))
  }

  /**
   * `parse_query_with_gemini(query)`: the call retried three times, two seconds
   * apart. `apiKey` is the environment's `API_KEY`.
   */
  method ParseQueryWithGemini(query: string, apiKey: Option<string>, service: (string, nat) -> Reply)
    returns (r: Result<QueryFields, Exception>, calls: nat, sleeps: seq<nat>, log: seq<LogEntry>)
    ensures 1 <= calls <= 3
    ensures |sleeps| == calls - 1 && forall s :: 0 <= s < |sleeps| ==> sleeps[s] == 2
    ensures FailedUpTo(GeminiAttempts(query, apiKey, service), calls - 1)
    ensures r.Success? ==> r == GeminiAttempts(query, apiKey, service)(calls - 1).outcome
    ensures r.Failure? ==> calls == 3 && FailedUpTo(GeminiAttempts(query, apiKey, service), 3)
    ensures r.Failure? ==> r.error == GeminiAttempts(query, apiKey, service)(2).outcome.error
    ensures r.Success? ==>
      log == FailureLog(GeminiAttempts(query, apiKey, service), calls - 1)
             + GeminiAttempts(query, apiKey, service)(calls - 1).log
    ensures r.Failure? ==>
      log == FailureLog(GeminiAttempts(query, apiKey, service), 3)
             + [LogEntry(Error, Text("All retry attempts failed"))]
  {
    r, calls, sleeps, log := Retry(GeminiAttempts(query, apiKey, service), 3, 2);
    LogMessageByName(Text("All retry attempts failed"), Error);
  }

  // ---------------------------------------------------------------------------
  // parse_query
  // ---------------------------------------------------------------------------

  const QueryTooShort: Exception :=
    HttpException(400, "Query must be a non-empty string with sufficient detail.")

  /**
   * The `/parse-query` endpoint: a query shorter than ten characters is refused;
   * otherwise the model path is tried and, if it raises, the heuristic extractor
   * answers instead. `fellBack` says whether the extractor ran.
   */
  method ParseQuery(query: string, apiKey: Option<string>, service: (string, nat) -> Reply)
    returns (r: Result<QueryFields, Exception>, modelCalls: nat, sleeps: seq<nat>, fellBack: bool,
             log: seq<LogEntry>)
    ensures |query| < 10 ==>
      r == Failure(QueryTooShort) && modelCalls == 0 && sleeps == [] && !fellBack && log == []
    ensures |query| >= 10 ==> 1 <= modelCalls <= 3 && |sleeps| == modelCalls - 1
    ensures forall s :: 0 <= s < |sleeps| ==> sleeps[s] == 2
    // the attempts before the last one made all failed
    ensures |query| >= 10 ==> FailedUpTo(GeminiAttempts(query, apiKey, service), modelCalls - 1)
    ensures |query| >= 10 ==> log != [] && log[0] == LogEntry(Info, Text("Received query: " + query))
    ensures |query| >= 10 ==>
      (fellBack <==> FailedUpTo(GeminiAttempts(query, apiKey, service), 3))
    ensures |query| >= 10 && !fellBack ==>
      r == GeminiAttempts(query, apiKey, service)(modelCalls - 1).outcome && r.Success?
    ensures fellBack ==> modelCalls == 3 && r == Extract(query)
    // the only errors the endpoint raises are the two 400s
    ensures r.Failure? ==> r.error == QueryTooShort || (fellBack && r.error == InvalidFormat)
    ensures fellBack ==> log[|log| - 1] == LogEntry(Warning, Text("Falling back to regex extraction."))
    // the whole log: the request, the model path's records, then the fallback notice
    ensures |query| >= 10 && !fellBack ==>
      log == [LogEntry(Info, Text("Received query: " + query))]
             + FailureLog(GeminiAttempts(query, apiKey, service), modelCalls - 1)
             + GeminiAttempts(query, apiKey, service)(modelCalls - 1).log
    ensures fellBack ==>
      log == [LogEntry(Info, Text("Received query: " + query))]
             + FailureLog(GeminiAttempts(query, apiKey, service), 3)
             + [LogEntry(Error, Text("All retry attempts failed")),
                LogEntry(Warning, Text("Falling back to regex extraction."))]
  {
    if |query| < 10 {
      return Failure(QueryTooShort), 0, [], false, [];
    }
    var received := Text("Received query: " + query);
    log := LogMessage(received, "info");
    LogMessageByName(received, Info);
    ghost var attempts := GeminiAttempts(query, apiKey, service);
    var modelLog;
    r, modelCalls, sleeps, modelLog := ParseQueryWithGemini(query, apiKey, service);
    log := log + modelLog;
    fellBack := r.Failure?;
    if fellBack {
      var notice := Text("Falling back to regex extraction.");
      var warning := LogMessage(notice, "warning");
      LogMessageByName(notice, Warning);
      ghost var failures := FailureLog(attempts, 3);
      assert modelLog == failures + [LogEntry(Error, Text("All retry attempts failed"))];
      assert log + warning == [LogEntry(Info, received)] + failures
        + [LogEntry(Error, Text("All retry attempts failed")), LogEntry(Warning, notice)];
      log := log + warning;
      r := ExtractQueryData(query);
    }
  }
}
