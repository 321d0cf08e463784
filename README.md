# Visa query field extraction, modelled in Dafny

This project models the query parser of the visa assistant. It reads
free-text travel queries and returns four fields: destination, passport
country, travel date and purpose. The model covers these parts of the
source:

- `extract_query_data`, the heuristic extractor in `app/parser.py`. It runs
  ordered lists of case-insensitive regular expressions, one list per field.
  The first pattern that matches decides the field. A passport token goes
  through an alias table. A captured month only counts if it is a month
  name; otherwise the first month mentioned anywhere is used. In the purpose
  scan, "visit" gives way to "family visit". All four fields are required.
  Otherwise the call fails with HTTP 400 "Invalid query format".
- `parse_query_with_gemini`, the model-backed extractor, with the
  generative-model service as an opaque reply per attempt. It checks the
  API key, shapes the JSON reply into the response, and logs a "possible
  hallucination" warning for each missing field. All of it is wrapped in
  `retry(…, retries=3, delay=2)`.
- `parse_query`, the `/parse-query` endpoint. It refuses queries shorter
  than ten characters. It tries the model path first and falls back to the
  heuristic extractor if that raises.
- `log_message` and `retry` from `saathi-genai-query-parser/app/utils.py`.
  The logger is set to INFO, so debug records are dropped. Logs are returned
  as a sequence of records. `time.sleep` is recorded as the list of delays
  it was given.

The files:

- `text.dfy`: the ASCII string operations (`\w`, `\d`, `lower`, `capitalize`).
- `regex.dfy`: `re.search` for the three pattern shapes the extractor uses.
  These are `(h1|h2…)(\w+)tail`, `head.*?mid(\w+)` and a phrase with an
  optional trailing `\b`. The search returns the match at the earliest
  start position. At one position the alternatives are tried in the greedy
  order of a backtracking engine.
- `utils.dfy`: `log_message` and `retry`.
- `parser.dfy`: the pattern tables, each field's scan as a specification
  function plus the loop method proved against it, and the model path and
  the endpoint.
- `extractor_properties.dfy` and `model_path_properties.dfy`: the lemmas
  about the two paths.
- `parser_tests.dfy`: each of the five queries of `tests/test_parser.py`,
  proved to give exactly the record the test expects.

Facts about the code that the model makes explicit:

- A missing API key raises inside the retried closure: `call_gemini_api`
  raises the 500 error (`app/parser.py:125-128`), `_call` calls it
  (`app/parser.py:147-148`), and `_call` is what `retry` repeats
  (`app/parser.py:158`). So a missing key is retried three times, two
  seconds apart, before the endpoint falls back
  (`ModelPathProperties.MissingKeyExhaustsRetries`).
- The purpose normalisation (`app/parser.py:102-112`) maps every keyword the
  scan can return to itself (`ExtractorProperties.NormalizePurposeKeepsKeywords`).
- The first query of `tests/test_parser.py` is used exactly as the test
  writes it, including its trailing sentence and its non-ASCII characters.
- An exception from `genai.configure` or `genai.GenerativeModel`
  (`app/parser.py:130-131`) is raised outside the `try`, so it reaches
  `retry` unchanged and with no "Gemini API call failed" record
  (`ModelPathProperties.GeminiCallOutcome`).
- Four of the nine destination patterns never decide the result: two repeat
  `going to`, and two can only match where `travel(?:ing)? to` already
  matched (`ExtractorProperties.DestinationDuplicatesNeverWin`).

## Model

| member | source | states |
|---|---|---|
| Regex.SearchEarliest | app/parser.py:34 | `re.search` returns the match at the earliest position where the pattern matches |
| Regex.SearchNone | app/parser.py:34-35 | a search finds nothing exactly when the pattern matches at no position |
| Regex.SearchFinds | app/parser.py:34-35 | a match at any position makes the search succeed |
| Regex.SearchCapturesWord | app/parser.py:36 | group 1 of a capture pattern is always a non-empty run of word characters |
| Regex.ArmAtIsBacktracking | app/parser.py:41-47 | for a tail that is empty or starts with a non-word literal, taking the longest run of `\w` gives what a backtracking engine gives |
| Text.LowerOfCapitalize | app/parser.py:84-88 | `capitalize()` never changes a string's lower-case form |
| Text.LowerIdempotent | saathi-genai-query-parser/app/utils.py:17 | lower-casing twice is lower-casing once |
| Utils.LogMessage | saathi-genai-query-parser/app/utils.py:13-25 | one record at the level named case-insensitively; nothing for an unknown name, which falls to debug and is dropped at INFO |
| Utils.LevelForCases | saathi-genai-query-parser/app/utils.py:17-25 | the level depends only on the lower-cased name: info, warning and error each exactly for their own name, debug for everything else |
| Utils.LogMessageByName | saathi-genai-query-parser/app/utils.py:17-25 | asking for a level by its own name logs one record at that level, none for debug |
| Utils.Retry | saathi-genai-query-parser/app/utils.py:27-41 | at most `retries` calls, every call before the last one failed; success returns the first successful value; failure means every allowed call failed and re-raises the last exception, or the generic one when no call was made; one sleep of `delay` between calls; the exact log: each call's records, its "attempt failed" warning, and the final error |
| Utils.FailureLogOfSilentCalls | saathi-genai-query-parser/app/utils.py:32-39 | when the failing calls log nothing, the log holds exactly one warning per call, numbered from 1 |
| Parser.NormalizeCountry | app/parser.py:52-63 | the token maps through the alias table, keyed by its lower-case form; other tokens pass through unchanged |
| Parser.ScanDestination | app/parser.py:21-37 | the loop yields the capture of the first destination pattern that matches |
| Parser.ScanPassportCountry | app/parser.py:39-64 | the loop yields the first passport pattern's capture, mapped through the alias table |
| Parser.ScanTravelDate | app/parser.py:66-88 | the loops yield the first pattern capture that is a month name, or else the first month mentioned |
| Parser.ScanMonthNames | app/parser.py:84-88 | the fallback loop yields the capitalised first month, in list order, that occurs anywhere |
| Parser.ScanPurpose | app/parser.py:90-112 | the loop and the normalisation yield the purpose the specification function defines |
| Parser.ExtractQueryData | app/parser.py:20-122 | the method returns exactly `Extract(query)`: the four fields, or the 400 error |
| Parser.Prompt | app/parser.py:132-136 | the prompt is the fixed instruction followed by the query in single quotes |
| Parser.HallucinationLog | app/parser.py:149-151 | one warning per missing or empty field, in field order, naming the field |
| Parser.ParseQueryWithGemini | app/parser.py:146-158 | one to three attempts two seconds apart; success is the first successful attempt's response; failure means all three failed and carries the third error; the exact log |
| Parser.ParseQuery | app/parser.py:160-172 | a query under ten characters gets the 400 "sufficient detail" error with no call and no log; otherwise "Received query" is logged first; one to three model attempts, each sleep two seconds, every attempt before the last one failed; the heuristic path runs exactly when all three model attempts failed, after the fallback warning; the only errors are the two 400s; the whole log: the request, the model path's records, then the error and fallback notice when it fell back |
| ExtractorProperties.FirstCaptureNone | app/parser.py:33-37 | a pattern list yields nothing exactly when none of its patterns matches |
| ExtractorProperties.FirstCaptureAt | app/parser.py:33-37 | the first matching pattern in list order decides the capture |
| ExtractorProperties.FirstCaptureAppend | app/parser.py:33-37 | the second part of a list is consulted only when the first part yields nothing |
| ExtractorProperties.RemoveSubsumed | app/parser.py:33-37 | a pattern that can match only where an earlier one does never decides the result |
| ExtractorProperties.FirstHeadSubsumes | app/parser.py:24-25 | `traveling to (\w+)` matches only where `travel(?:ing)? to (\w+)` does |
| ExtractorProperties.LongerHeadSubsumed | app/parser.py:24-29 | `holder traveling to (\w+)` matches only where `travel(?:ing)? to (\w+)` does |
| ExtractorProperties.DestinationDuplicatesNeverWin | app/parser.py:22-37 | the destination is decided by the five distinct patterns alone |
| ExtractorProperties.DestinationIsFirstMatch | app/parser.py:22-37 | the destination is the word captured by the first destination pattern that matches |
| ExtractorProperties.TablesMatchBacktracking | app/parser.py:22-76 | every capture pattern of the destination, passport and date tables matches as a backtracking engine would |
| ExtractorProperties.DestinationNonEmpty | app/parser.py:33-37 | a determined destination is never empty |
| ExtractorProperties.PassportCountryFromToken | app/parser.py:48-64 | the passport country is the first matching pattern's token, mapped by its lower-case form through the alias table |
| ExtractorProperties.PassportCountryNone | app/parser.py:48-64 | no passport pattern matching leaves the passport country undetermined, and only then |
| ExtractorProperties.PassportCountryNonEmpty | app/parser.py:48-64 | a determined passport country is never empty |
| ExtractorProperties.FirstMonthCaptureIsFirstMonth | app/parser.py:77-83 | the date patterns yield the first match that is a month name, and nothing exactly when no pattern yields one |
| ExtractorProperties.FirstMonthCaptureAt | app/parser.py:77-83 | the first pattern whose capture is a month name decides the date |
| ExtractorProperties.MentionedMonthIsFirstMention | app/parser.py:84-88 | the fallback yields the capitalised first month, in list order, that occurs |
| ExtractorProperties.MentionedMonthNone | app/parser.py:84-88 | the fallback yields nothing exactly when no month name occurs |
| ExtractorProperties.MentionedMonthIsCapitalized | app/parser.py:84-88 | a fallback date is the capitalised form of a listed month |
| ExtractorProperties.TravelDateIsMonth | app/parser.py:66-88 | a travel date, however it was found, lower-cases to a month name |
| ExtractorProperties.TravelDateFallback | app/parser.py:84-88 | when no date pattern yields a month, the date is the first month mentioned |
| ExtractorProperties.PurposeFromIsFirstKeyword | app/parser.py:94-100 | the first keyword whose phrase matches decides the purpose, "visit" giving way to "family visit" |
| ExtractorProperties.PurposeFromNone | app/parser.py:94-100 | no purpose exactly when no keyword phrase matches |
| ExtractorProperties.PurposeFromInList | app/parser.py:94-100 | the scan returns a listed keyword or "family visit", and "visit" only when "family visit" does not occur |
| ExtractorProperties.NormalizePurposeKeepsKeywords | app/parser.py:102-112 | the normalisation maps every keyword to itself |
| ExtractorProperties.PurposeInVocabulary | app/parser.py:90-112 | the purpose is always one of the eight keywords, and never "visit" when "family visit" occurs |
| ExtractorProperties.TravelDateNonEmpty | app/parser.py:66-88 | a determined travel date is never empty |
| ExtractorProperties.PurposeNonEmpty | app/parser.py:90-112 | a determined purpose is never empty |
| ExtractorProperties.ExtractOutcome | app/parser.py:114-122 | success exactly when all four fields are determined; the record is those fields, none empty; otherwise the 400 "Invalid query format" error |
| ModelPathProperties.MissingFieldsSpec | app/parser.py:149-150 | a key is reported missing exactly when it is checked and the reply lacks it or leaves it empty |
| ModelPathProperties.NoWarningsIffComplete | app/parser.py:149-157 | no hallucination warning exactly when all four response fields are non-empty |
| ModelPathProperties.GeminiCallOutcome | app/parser.py:124-157 | an attempt fails exactly when the key is missing, the client setup raises or the service errs; a missing key or a service error gives the matching 500 error and one error record; a setup exception escapes unchanged with no record; otherwise the response carries the reply's fields, "" for an absent one |
| ModelPathProperties.MissingKeyExhaustsRetries | app/parser.py:125-158 | without a key all three attempts fail, and the exact six-record log |
| ModelPathProperties.ThreeFailuresLog | saathi-genai-query-parser/app/utils.py:32-39 | three calls that each fail after one record leave that record and a numbered warning, three times |
| ModelPathProperties.ServiceDownExhaustsRetries | app/parser.py:137-158 | a service that errs on every attempt exhausts the three attempts |
| ParserTests.Query1Extract | tests/test_parser.py:10-18 | the first test query yields France, India, July, tourism |
| ParserTests.Query2Extract | tests/test_parser.py:19-27 | the second test query yields Germany, US, September, business |
| ParserTests.Query3Extract | tests/test_parser.py:28-36 | the third test query yields Japan, Australia, December, vacation |
| ParserTests.Query4Extract | tests/test_parser.py:37-45 | the fourth test query yields Italy, Canada, August, study |
| ParserTests.Query5Extract | tests/test_parser.py:46-54 | the fifth test query yields Spain, UK, March, family visit |

## Left out

- Unicode: `\w`, `\d`, `\b`, `lower()` and `capitalize()` are modelled on ASCII only. A non-ASCII letter is not a word character here. The non-ASCII characters of the first test query fall outside every captured word, so its result is unaffected.
- The regular-expression engine: only the three pattern shapes the extractor uses are modelled, not regular expressions in general.
- The generative-model client: `genai.configure`, the model name, `generate_content`, reading `response.text` and `json.loads` are one opaque reply per attempt. An exception from the setup calls is a setup error that escapes unchanged; one from the three calls inside the `try` becomes a service error with its message.
- A reply that decodes to something other than an object with string values (a list, numbers, nested objects) is not modelled. Neither is the pydantic validation that would reject non-string fields.
- FastAPI routing, request validation of `QueryRequest`, `async`, and the HTTP status mapping beyond the exception values themselves.
- The logger's handler, its formatter and timestamps. A record is kept as its level and its message.
- The "attempt failed" message is kept as the attempt number and the exception value, not as Python's formatted text.
- `time.sleep` blocks for real in the source. The model only records the delays in order.
- Utils.Retry: `delay` is a natural number, so the `ValueError` that `time.sleep` raises for a negative delay is not modelled.
- The environment variable `API_KEY` is a parameter of the model path, not read from a process environment.
- `app/schemas.py`, `create_tables.py`, `saathi-genai-query-parser/app/main.py` and `saathi-genai-query-parser/app/visa_requirements.py` are not part of this model.
