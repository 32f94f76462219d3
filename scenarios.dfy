/** Concrete runs of the classifier against scripted backends: the empty
    input, the happy path, recovery from prose around the JSON, the terminal
    and the severe failure, and the greedy span swallowing two objects. */
module ClassifierScenarios {
  import opened JsonValue
  import opened Whitespace
  import opened BraceSpan
  import opened Classifier

  const ReceiptRecord: Json :=
    JObject(map["category" := JString("receipt"), "metadata" := JObject(map["amount" := JString("$12.00")])])

  /** `{"category":"letter","metadata":{"summary":"hi"}}` */
  const LetterJson: string := "{" + "\"category\":\"letter\",\"metadata\":{\"summary\":\"hi\"}" + "}"

  const LetterRecord: Json :=
    JObject(map["category" := JString("letter"), "metadata" := JObject(map["summary" := JString("hi")])])

  const ParseFailure: string := "Invalid json output"

  /** A backend that answers every structured call with `structured` and
      every raw call with `raw`. */
  function Scripted(structured: Outcome<Json>, raw: Outcome<string>): Backend {
    Backend(_ => structured, _ => raw)
  }

  function Unreachable(): Backend {
    Scripted(Err("connection refused"), Err("connection refused"))
  }

  /** The empty text and a text of three spaces are rejected before any call. */
  lemma EmptyInputMakesNoCall(loads: string -> Outcome<Json>)
    ensures Classify("", Unreachable(), loads) == Reply(EmptyTextRecord(), [])
    ensures Classify("   ", Unreachable(), loads) == Reply(EmptyTextRecord(), [])
  {
  }

  /** A structured reply of the right shape is returned after one call. */
  lemma HappyPath(text: string, loads: string -> Outcome<Json>)
    requires !AllSpace(text)
    ensures Classify(text, Scripted(Ok(ReceiptRecord), Err("unused")), loads)
            == Reply(ReceiptRecord, [Call(Structured, RequestFor(text))])
  {
  }

  /** The structured attempt raises; the raw reply wraps the JSON in prose;
      the JSON is recovered after two calls. */
  lemma RecoversFromProse(text: string, loads: string -> Outcome<Json>)
    requires !AllSpace(text)
    requires loads(LetterJson) == Ok(LetterRecord)
    ensures var backend := Scripted(Err(ParseFailure), Ok("Sure! Here you go: " + LetterJson + " Hope that helps."));
            Classify(text, backend, loads)
            == Reply(LetterRecord, [Call(Structured, RequestFor(text)), Call(Raw, RequestFor(text))])
  {
    var backend := Scripted(Err(ParseFailure), Ok("Sure! Here you go: " + LetterJson + " Hope that helps."));
    assert '{' !in "Sure! Here you go: " && '}' !in " Hope that helps.";
    assert LetterJson[0] == '{' && LetterJson[|LetterJson| - 1] == '}';
    WrappedRecordExit(text, backend, loads, "Sure! Here you go: ", LetterJson, " Hope that helps.", LetterRecord);
  }

  /** The structured attempt raises and the raw reply holds no braces: the
      all-attempts failure record keeps the raw reply verbatim, whatever the
      parser would have said. */
  lemma TerminalFailure(text: string, loads: string -> Outcome<Json>)
    requires !AllSpace(text)
    ensures var backend := Scripted(Err(ParseFailure), Ok("I cannot classify this document."));
            Classify(text, backend, loads).record == AllAttemptsFailedRecord(ParseFailure, "I cannot classify this document.")
  {
    var rawOutput := "I cannot classify this document.";
    assert !HasBracePair(rawOutput) by {
      assert '{' !in rawOutput;
    }
    AllAttemptsFailedExit(text, Scripted(Err(ParseFailure), Ok(rawOutput)), loads, rawOutput);
  }

  /** Both calls raise: the severe-error record carries both messages. */
  lemma SevereFailure(text: string, loads: string -> Outcome<Json>)
    requires !AllSpace(text)
    ensures var backend := Scripted(Err(ParseFailure), Err("connection refused"));
            Classify(text, backend, loads).record == SevereErrorRecord(ParseFailure, "connection refused")
  {
  }

  /** The known fragility of the greedy pattern: when the raw reply holds an
      example object before the real answer, the extracted text runs from the
      first object's `{` to the answer's `}`, taking in both and the prose
      between them. */
  lemma {:induction false} GreedySpanJoinsTwoObjects(prefix: string, first: string, between: string,
                                                      second: string, suffix: string)
    requires '{' !in prefix && '}' !in suffix
    requires |first| >= 1 && first[0] == '{'
    requires |second| >= 1 && second[|second| - 1] == '}'
    ensures ExtractSpan(prefix + first + between + second + suffix) == Some(first + between + second)
  {
    var body := first + between + second;
    assert body[0] == first[0];
    assert body[|body| - 1] == second[|second| - 1];
    assert prefix + first + between + second + suffix == prefix + body + suffix;
    SpanOfWrapped(prefix, body, suffix);
  }
}
