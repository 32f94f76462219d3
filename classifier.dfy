/** `LLMClassifier.classify_text`: turns the reply of a language model into a
    record with the two keys "category" and "metadata", degrading through a
    structured attempt, a raw re-fetch with span extraction, and failure
    records whose "category" is a sentinel.

    The two backend invocations (the chain ending in the JSON output parser and
    the chain ending in the string output parser) are the fields of a
    `Backend`, each a function from the request to the value it returns or the
    text of the exception it raises; `json.loads` is the parameter `loads`.
    `Classify` reports, beside the record, the backend invocations it made. */
module Classifier {
  import opened JsonValue
  import opened Whitespace
  import opened BraceSpan

  // ----- The request, fixed at construction -----

  /** The system message, as the prompt template renders it (its doubled
      braces stand for single ones). */
  const SystemPrompt: string :=
    "You are an expert document classification assistant. "
    + "Your task is to categorize the provided text and extract relevant metadata. "
    + "The categories could include, but are not limited to: "
    + "'contractor_invoice', 'health_prescription', 'health_insurance', 'receipt', 'letter', 'utility_bill', 'other'. "
    + "Based on the text, determine the most appropriate category. "
    + "Also, extract key pieces of information like dates, names, amounts, invoice numbers, or a brief summary. "
    + "VERY IMPORTANT: Respond *ONLY* with a single, valid JSON object. Do not include any other text, explanations, or conversational elements before or after the JSON object. "
    + "The JSON object must contain two keys: 'category' (a string) and 'metadata' (an object with extracted details or a summary string). "
    + "Example of the exact output format: { \"category\": \"invoice\", \"metadata\": { \"invoice_number\": \"INV123\", \"date\": \"2024-01-15\", \"total_amount\": \"$500\", \"summary\": \"Invoice for services rendered\" } } "
    + "If the document is multi-page, the metadata should reflect that this is part of a larger document if discernible. Ensure your output is a single, complete JSON object and nothing else."

  /** The human message before the document text. The source escapes its
      backslashes, so the separator is the four characters `\n\n`, not two
      line breaks. */
  const HumanPrefix: string := "Please classify the following document text:\\n\\n"

  datatype Request = Request(system: string, human: string)

  /** The request both backend invocations receive for `text`. */
  function RequestFor(text: string): (req: Request)
    ensures req.system == SystemPrompt
    ensures |req.human| == |HumanPrefix| + |text|
    ensures req.human[..|HumanPrefix|] == HumanPrefix && req.human[|HumanPrefix|..] == text
  {
    Request(SystemPrompt, HumanPrefix + text)
  }

  /** Different texts yield different requests: the request carries the
      document text verbatim. */
  lemma RequestForInjective(a: string, b: string)
    requires RequestFor(a) == RequestFor(b)
    ensures a == b
  {
  }

  // ----- The backend -----

  /** Structured: prompt, model, JSON output parser. Raw: prompt, model,
      string output parser. */
  datatype Mode = Structured | Raw

  datatype Call = Call(mode: Mode, request: Request)

  datatype Backend = Backend(structured: Request -> Outcome<Json>, raw: Request -> Outcome<string>)

  datatype Reply = Reply(record: Json, calls: seq<Call>)

  // ----- Failure records -----

  const EmptyTextCategory: string := "unknown_empty_text"
  const SevereErrorCategory: string := "unknown_severe_error"
  const AllAttemptsFailedCategory: string := "unknown_parsing_failure_all_attempts"

  /** The message of the ValueError raised when stage 1 parses but has the
      wrong shape. */
  const ShapeErrorMessage: string := "Initial JSON parsing did not yield expected dictionary structure."

  predicate IsSentinel(category: string) {
    category == EmptyTextCategory || category == SevereErrorCategory || category == AllAttemptsFailedCategory
  }

  /** A failure record: the two keys, a sentinel category and a mapping of
      diagnostics. */
  predicate IsFailureRecord(r: Json) {
    IsRecord(r)
    && r.fields[CategoryKey].JString? && IsSentinel(r.fields[CategoryKey].s)
    && r.fields[MetadataKey].JObject?
  }

  function FailureRecord(category: string, metadata: map<string, string>): (r: Json)
    requires IsSentinel(category)
    ensures IsFailureRecord(r)
    ensures r.fields.Keys == {CategoryKey, MetadataKey}
    ensures r.fields[CategoryKey] == JString(category)
    ensures r.fields[MetadataKey].fields.Keys == metadata.Keys
    ensures forall k :: k in metadata ==> r.fields[MetadataKey].fields[k] == JString(metadata[k])
  {
    JObject(map[CategoryKey := JString(category), MetadataKey := StringObject(metadata)])
  }

  /** `{"category": "unknown_empty_text", "metadata": {"error": "Input text was empty"}}` */
  function EmptyTextRecord(): (r: Json)
    ensures IsFailureRecord(r)
    ensures r.fields.Keys == {CategoryKey, MetadataKey}
    ensures r.fields[CategoryKey] == JString(EmptyTextCategory)
    ensures r.fields[MetadataKey] == JObject(map["error" := JString("Input text was empty")])
  {
    var r := FailureRecord(EmptyTextCategory, map["error" := "Input text was empty"]);
    assert r.fields[MetadataKey].fields == map["error" := JString("Input text was empty")];
    r
  }

  /** The record for a raw re-fetch that raised: a summary and both error
      texts. */
  function SevereErrorRecord(primaryError: string, fetchError: string): (r: Json)
    ensures IsFailureRecord(r)
    ensures r.fields.Keys == {CategoryKey, MetadataKey}
    ensures r.fields[CategoryKey] == JString(SevereErrorCategory)
    ensures r.fields[MetadataKey].fields.Keys == {"summary", "primary_error", "fetch_error"}
    ensures r.fields[MetadataKey].fields["summary"] == JString("Failed to fetch raw output from LLM.")
    ensures r.fields[MetadataKey].fields["primary_error"] == JString(primaryError)
    ensures r.fields[MetadataKey].fields["fetch_error"] == JString(fetchError)
  {
    FailureRecord(SevereErrorCategory, map[
      "summary" := "Failed to fetch raw output from LLM.",
      "primary_error" := primaryError,
      "fetch_error" := fetchError])
  }

  /** The record for raw output from which nothing was recovered: a summary,
      the stage-1 error text and the raw output verbatim. */
  function AllAttemptsFailedRecord(primaryError: string, rawOutput: string): (r: Json)
    ensures IsFailureRecord(r)
    ensures r.fields.Keys == {CategoryKey, MetadataKey}
    ensures r.fields[CategoryKey] == JString(AllAttemptsFailedCategory)
    ensures r.fields[MetadataKey].fields.Keys == {"summary", "primary_error_message", "raw_llm_output"}
    ensures r.fields[MetadataKey].fields["summary"]
            == JString("Could not parse LLM response as JSON despite multiple attempts.")
    ensures r.fields[MetadataKey].fields["primary_error_message"] == JString(primaryError)
    ensures r.fields[MetadataKey].fields["raw_llm_output"] == JString(rawOutput)
  {
    FailureRecord(AllAttemptsFailedCategory, map[
      "summary" := "Could not parse LLM response as JSON despite multiple attempts.",
      "primary_error_message" := primaryError,
      "raw_llm_output" := rawOutput])
  }

  // ----- The stages -----

  /** Stage 1's error text `str(e)`: none when the structured attempt produced
      a record; the fixed ValueError message when it produced a value of the
      wrong shape; the exception's own text when it raised. */
  function PrimaryError(stage1: Outcome<Json>): (e: Option<string>)
    ensures e.None? <==> stage1.Ok? && IsRecord(stage1.value)
    ensures e.Some? && stage1.Ok? ==> e.value == ShapeErrorMessage
    ensures e.Some? && stage1.Err? ==> e.value == stage1.msg
  {
    match stage1
    case Ok(v) => if IsRecord(v) then None else Some(ShapeErrorMessage)
    case Err(msg) => Some(msg)
  }

  /** The last stage, once the raw output is in hand: search it for
      `\{.*\}`, parse the match, and keep it if it is a record; in every other
      case (no match, a parse error, the wrong shape) return the failure
      record that carries the raw output verbatim. */
  function Recover(rawOutput: string, primaryError: string, loads: string -> Outcome<Json>): (r: Json)
    ensures IsRecord(r)
    ensures var span := ExtractSpan(rawOutput);
            span.Some? && loads(span.value).Ok? && IsRecord(loads(span.value).value) ==> r == loads(span.value).value
    ensures var span := ExtractSpan(rawOutput);
            !(span.Some? && loads(span.value).Ok? && IsRecord(loads(span.value).value)) ==>
              r == AllAttemptsFailedRecord(primaryError, rawOutput)
  {
    ReSearchIsBraceSpan(rawOutput);
    match ReSearch(rawOutput)
    case None => AllAttemptsFailedRecord(primaryError, rawOutput)
    case Some(jsonText) =>
      match loads(jsonText)
      case Ok(parsed) =>
        if IsRecord(parsed) then parsed else AllAttemptsFailedRecord(primaryError, rawOutput)
      case Err(_) => AllAttemptsFailedRecord(primaryError, rawOutput)
  }

  /** `classify_text(text)`. Whatever the backend and the parser do, the
      result is a record with both keys; blank text makes no backend call;
      otherwise the structured attempt is made first, and the raw re-fetch,
      with the same request, follows exactly when the structured attempt
      failed. A record that is not a failure record was produced, unchanged,
      by the structured attempt or by parsing the span of the raw output. */
  function Classify(text: string, backend: Backend, loads: string -> Outcome<Json>): (reply: Reply)
    ensures IsRecord(reply.record)
    ensures |reply.calls| <= 2
    ensures reply.calls == [] <==> IsBlank(text)
    ensures forall k :: 0 <= k < |reply.calls| ==> reply.calls[k].request == RequestFor(text)
    ensures forall k :: 0 <= k < |reply.calls| ==> reply.calls[k].mode == (if k == 0 then Structured else Raw)
    ensures |reply.calls| == 2 <==> !IsBlank(text) && PrimaryError(backend.structured(RequestFor(text))).Some?
    ensures IsFailureRecord(reply.record)
            || (|reply.calls| == 1 && backend.structured(RequestFor(text)) == Ok(reply.record))
            || (|reply.calls| == 2 && backend.raw(RequestFor(text)).Ok?
                && ExtractSpan(backend.raw(RequestFor(text)).value).Some?
                && loads(ExtractSpan(backend.raw(RequestFor(text)).value).value) == Ok(reply.record))
  {
    if IsBlank(text) then Reply(EmptyTextRecord(), [])
    else
      var request := RequestFor(text);
      var stage1 := backend.structured(request);
      match PrimaryError(stage1)
      case None => Reply(stage1.value, [Call(Structured, request)])
      case Some(primaryError) =>
        var calls := [Call(Structured, request), Call(Raw, request)];
        match backend.raw(request)
        case Err(fetchError) => Reply(SevereErrorRecord(primaryError, fetchError), calls)
        case Ok(rawOutput) => Reply(Recover(rawOutput, primaryError, loads), calls)
  }

  // ----- The exits -----

  /** Blank text: the empty-text failure record, no backend call, whatever
      the backend would have done. */
  lemma BlankTextExit(text: string, backend: Backend, loads: string -> Outcome<Json>)
    requires AllSpace(text)
    ensures Classify(text, backend, loads) == Reply(EmptyTextRecord(), [])
  {
  }

  /** Stage 1 yields a record: it is returned unchanged, extra keys included,
      after one call; neither the raw chain nor the parser plays a part. */
  lemma StructuredSuccessExit(text: string, backend: Backend, loads: string -> Outcome<Json>, v: Json)
    requires !AllSpace(text)
    requires backend.structured(RequestFor(text)) == Ok(v) && IsRecord(v)
    ensures Classify(text, backend, loads) == Reply(v, [Call(Structured, RequestFor(text))])
  {
  }

  /** Stage 1 fails and the raw re-fetch raises: the severe-error record
      carrying both error texts; the parser plays no part. */
  lemma SevereErrorExit(text: string, backend: Backend, loads: string -> Outcome<Json>, fetchError: string)
    requires !AllSpace(text)
    requires PrimaryError(backend.structured(RequestFor(text))).Some?
    requires backend.raw(RequestFor(text)) == Err(fetchError)
    ensures var primaryError := PrimaryError(backend.structured(RequestFor(text))).value;
            Classify(text, backend, loads)
            == Reply(SevereErrorRecord(primaryError, fetchError), [Call(Structured, RequestFor(text)), Call(Raw, RequestFor(text))])
  {
  }

  /** Stage 1 fails, the raw re-fetch succeeds, and the text from its first
      `{` to its last `}` parses to a record: that record is returned as it
      was parsed, after two calls. */
  lemma SpanRecordExit(text: string, backend: Backend, loads: string -> Outcome<Json>, rawOutput: string, v: Json)
    requires !AllSpace(text)
    requires PrimaryError(backend.structured(RequestFor(text))).Some?
    requires backend.raw(RequestFor(text)) == Ok(rawOutput)
    requires ExtractSpan(rawOutput).Some? && loads(ExtractSpan(rawOutput).value) == Ok(v) && IsRecord(v)
    ensures Classify(text, backend, loads)
            == Reply(v, [Call(Structured, RequestFor(text)), Call(Raw, RequestFor(text))])
  {
  }

  /** Stage 1 fails and the raw output wraps a text that parses to a record
      in prose with no `{` before it and no `}` after it: that record is
      returned as it was parsed, after two calls. */
  lemma {:induction false} WrappedRecordExit(text: string, backend: Backend, loads: string -> Outcome<Json>,
                                             prefix: string, body: string, suffix: string, v: Json)
    requires !AllSpace(text)
    requires PrimaryError(backend.structured(RequestFor(text))).Some?
    requires backend.raw(RequestFor(text)) == Ok(prefix + body + suffix)
    requires '{' !in prefix && '}' !in suffix
    requires |body| >= 2 && body[0] == '{' && body[|body| - 1] == '}'
    requires loads(body) == Ok(v) && IsRecord(v)
    ensures Classify(text, backend, loads)
            == Reply(v, [Call(Structured, RequestFor(text)), Call(Raw, RequestFor(text))])
  {
    SpanOfWrapped(prefix, body, suffix);
    SpanRecordExit(text, backend, loads, prefix + body + suffix, v);
  }

  /** Stage 1 fails, the raw re-fetch succeeds, and no record is recovered
      from it: the all-attempts failure record, whose metadata carries the
      stage-1 error text and the raw output verbatim. */
  lemma AllAttemptsFailedExit(text: string, backend: Backend, loads: string -> Outcome<Json>, rawOutput: string)
    requires !AllSpace(text)
    requires PrimaryError(backend.structured(RequestFor(text))).Some?
    requires backend.raw(RequestFor(text)) == Ok(rawOutput)
    requires var span := ExtractSpan(rawOutput);
             span.None? || loads(span.value).Err? || !IsRecord(loads(span.value).value)
    ensures var primaryError := PrimaryError(backend.structured(RequestFor(text))).value;
            Classify(text, backend, loads)
            == Reply(AllAttemptsFailedRecord(primaryError, rawOutput), [Call(Structured, RequestFor(text)), Call(Raw, RequestFor(text))])
  {
  }

  /** Raw output in which no `{` precedes a `}` never reaches the parser. */
  lemma NoSpanNeverParses(text: string, backend: Backend, loads: string -> Outcome<Json>,
                          loads': string -> Outcome<Json>, rawOutput: string)
    requires backend.raw(RequestFor(text)) == Ok(rawOutput)
    requires !HasBracePair(rawOutput)
    ensures Classify(text, backend, loads) == Classify(text, backend, loads')
  {
  }
}
