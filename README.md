# document_archiver classifier — a Dafny model

This project models the one component of the document-archiving pipeline with
logic of its own: `LLMClassifier.classify_text`. It sends the OCR text of a
document to a language model and turns the model's free-text reply into a record
with the two keys `category` and `metadata`. It degrades in stages:

1. Blank text (empty, or only whitespace) is rejected before any backend call.
2. Structured attempt: the model's reply goes through a JSON output parser. A
   dict holding both keys is returned unchanged.
3. Raw re-fetch: otherwise the same request is sent again, this time for plain
   text. If that call raises, the `unknown_severe_error` record is returned.
4. Span extraction: `re.search(r'\{.*\}', raw, re.DOTALL)` takes the text from
   the first `{` to the last `}`. That text is parsed with `json.loads`, and a
   dict holding both keys is returned as parsed.
5. Everything else ends in the `unknown_parsing_failure_all_attempts` record,
   which carries the raw output verbatim.

The model is pure, as the source is. `classify_text` updates no fields and has
no loops. The two backend invocations are the fields of a `Backend` value. Each
is a function from the request to the value the chain returns, or to the text
`str(e)` of the exception it raises. `json.loads` is the function parameter
`loads`. `Classify` returns the record together with the trace of backend
calls it made (mode and request). That lets the model state how many calls
happen, in what order, and that both calls carry the same request.

Files:

- `json.dfy` (module `JsonValue`): JSON values, the `Outcome` of a call that
  may raise, and the shape test `IsRecord`.
- `whitespace.dfy` (module `Whitespace`): Python's `str.isspace` character
  set, `str.strip()`, and the blank-input test.
- `brace_span.dfy` (module `BraceSpan`): the regular-expression search, seen
  two ways. One is the engine's leftmost-start, greedy-backtracking search. The
  other is the first-`{`/last-`}` index search. A lemma proves them equal.
- `classifier.dfy` (module `Classifier`): the fixed prompt, the failure
  records, `Classify`, and one lemma per exit.
- `scenarios.dfy` (module `ClassifierScenarios`): concrete runs against
  scripted backends.

Points where the code does less, or other, than its comments and messages
suggest; the model follows the code:

- The shape tests at `llm_classifier.py:70` and `:110` check only that both
  keys are present; the value under `metadata` is never checked to be a
  mapping, and `category` is never checked to be a string. So `IsRecord` does
  not look at those values, and a success may carry any JSON value there. Only
  the three failure records are guaranteed a string category and a mapping.
- The comment at `llm_classifier.py:103` calls the search non-greedy. The
  pattern `\{.*\}` is greedy, so the match runs to the LAST `}`.
  `GreedySpanJoinsTwoObjects` shows what that means: an example object followed
  by the real answer is extracted as one span that covers both.
- The human message template at `llm_classifier.py:39` escapes its
  backslashes. The separator before the document text is therefore the four
  characters `\n\n`, not two line breaks, and `HumanPrefix` keeps it that way.

## Model

| member | source | states |
|---|---|---|
| `Whitespace.Strip` | src/document_archiver/llm_classifier.py:57 | `text.strip()` is the slice of `text` from its first to its last non-whitespace character; everything outside the slice is whitespace |
| `Whitespace.IsBlank` | src/document_archiver/llm_classifier.py:57 | `not text or not text.strip()`; its `not text` half is subsumed, so the text is blank exactly when stripping leaves nothing |
| `Whitespace.BlankIffAllSpace` | src/document_archiver/llm_classifier.py:57 | `not text or not text.strip()` holds exactly when every character is whitespace, so the empty text is blank |
| `BraceSpan.BraceSpan` | src/document_archiver/llm_classifier.py:105-107 | a match exists exactly when some `{` precedes some `}`; it starts at a `{` with no `{` before it and ends at a `}` with no `}` after it |
| `BraceSpan.ExtractSpan` | src/document_archiver/llm_classifier.py:105-107 | `match.group(0)` exists exactly when some `{` precedes some `}`, and then it starts with `{` and ends with `}` |
| `BraceSpan.ReSearch` | src/document_archiver/llm_classifier.py:105-107 | `re.search(r'\{.*\}', raw, re.DOTALL).group(0)`, modelled as the engine runs it (leftmost start, greedy `.*` backing off to a `}`); any match begins with `{` and ends with `}` |
| `BraceSpan.ReSearchIsBraceSpan` | src/document_archiver/llm_classifier.py:105 | the regex engine's leftmost-start, greedy-backtracking search for `\{.*\}` under DOTALL gives the same result as the first-`{`/last-`}` span on every input |
| `BraceSpan.SpanOfWrapped` | src/document_archiver/llm_classifier.py:100-107 | prose with no `{` before a brace-delimited text and no `}` after it yields exactly that text |
| `BraceSpan.WrappedOfSpan` | src/document_archiver/llm_classifier.py:105-107 | the extracted text is a contiguous substring of the raw output, preceded by no `{` and followed by no `}` |
| `JsonValue.IsRecord` | src/document_archiver/llm_classifier.py:70 | `isinstance(v, dict) and "category" in v and "metadata" in v`: a JSON object whose keys include both; extra keys and the values under them are not inspected (the same test recurs at line 110) |
| `Classifier.RequestFor` | src/document_archiver/llm_classifier.py:24-41 | the request carries the fixed system prompt, and its human message is the prefix `Please classify the following document text:\n\n` followed by the document text verbatim |
| `Classifier.RequestForInjective` | src/document_archiver/llm_classifier.py:39 | different document texts give different requests |
| `Classifier.EmptyTextRecord` | src/document_archiver/llm_classifier.py:59 | exactly the two keys `category` and `metadata`; category `unknown_empty_text`; metadata is exactly `{"error": "Input text was empty"}` |
| `Classifier.SevereErrorRecord` | src/document_archiver/llm_classifier.py:97-98 | exactly the two keys `category` and `metadata`; category `unknown_severe_error`; metadata holds exactly `summary` ("Failed to fetch raw output from LLM."), `primary_error` (the stage-1 error text) and `fetch_error` (the fetch error text) |
| `Classifier.AllAttemptsFailedRecord` | src/document_archiver/llm_classifier.py:124-127 | exactly the two keys `category` and `metadata`; category `unknown_parsing_failure_all_attempts`; metadata holds exactly `summary` ("Could not parse LLM response as JSON despite multiple attempts."), `primary_error_message` (the stage-1 error text) and `raw_llm_output` (the raw output verbatim) |
| `Classifier.PrimaryError` | src/document_archiver/llm_classifier.py:65-82 | stage 1 fails exactly when its outcome is not a dict with both keys; the carried error text is the fixed ValueError message for a wrong shape and the exception's text otherwise |
| `Classifier.Recover` | src/document_archiver/llm_classifier.py:100-127 | the result is always a record; it is the parsed span when that parses to a record, and otherwise the all-attempts failure record for this raw output |
| `Classifier.Classify` | src/document_archiver/llm_classifier.py:46-127 | total: every result has both keys; at most two backend calls, none exactly for blank text; the first call is structured, the second raw, both with the request for this text; the raw call happens exactly when stage 1 failed; a result that is not a failure record came unchanged from stage 1 (one call) or from parsing the extracted span (two calls) |
| `Classifier.BlankTextExit` | src/document_archiver/llm_classifier.py:57-59 | all-whitespace text gives the empty-text record and no calls, whatever the backend |
| `Classifier.StructuredSuccessExit` | src/document_archiver/llm_classifier.py:68-72 | a stage-1 dict with both keys is returned unchanged, extra keys included, after exactly one structured call |
| `Classifier.SevereErrorExit` | src/document_archiver/llm_classifier.py:90-98 | a failed stage 1 followed by a raising re-fetch gives the severe-error record with both error texts, after two calls, with no parsing |
| `Classifier.SpanRecordExit` | src/document_archiver/llm_classifier.py:105-112 | when the extracted span parses to a dict with both keys, that dict is returned as parsed, after two calls |
| `Classifier.WrappedRecordExit` | src/document_archiver/llm_classifier.py:84-112 | a raw reply that wraps a record's JSON in prose without braces is recovered to that record |
| `Classifier.AllAttemptsFailedExit` | src/document_archiver/llm_classifier.py:113-127 | no span, a parse error or a wrong shape gives the all-attempts record with the stage-1 error text and the raw output verbatim |
| `Classifier.NoSpanNeverParses` | src/document_archiver/llm_classifier.py:105-116 | raw output without a `{` before a `}` never reaches the parser: the result does not depend on it |
| `ClassifierScenarios.EmptyInputMakesNoCall` | src/document_archiver/llm_classifier.py:165-167 | `""` and `"   "` give the empty-text record without a backend call |
| `ClassifierScenarios.HappyPath` | src/document_archiver/llm_classifier.py:68-72 | a structured reply `{"category":"receipt","metadata":{"amount":"$12.00"}}` is returned as is, after one call |
| `ClassifierScenarios.RecoversFromProse` | src/document_archiver/llm_classifier.py:90-112 | "Sure! Here you go: {...} Hope that helps." after a failed structured call yields the letter record, after two calls |
| `ClassifierScenarios.TerminalFailure` | src/document_archiver/llm_classifier.py:113-127 | a raw reply without braces gives the all-attempts record carrying that reply |
| `ClassifierScenarios.SevereFailure` | src/document_archiver/llm_classifier.py:95-98 | when both calls raise, the severe-error record carries both messages |
| `ClassifierScenarios.GreedySpanJoinsTwoObjects` | src/document_archiver/llm_classifier.py:103-107 | with an example object before the answer, the span runs from the first object's `{` to the answer's `}` |

## Left out

- `src/document_archiver/ocr_processor.py`, `src/document_archiver/graph_setup.py` and `src/document_archiver/file_organizer.py` are not part of this model. They are a one-call OCR wrapper, commented-out graph scaffolding, and directory creation through the OS library.
- The language-model backend is not modelled. Ollama, the prompt template's rendering, the JSON output parser and the string output parser are represented by the two `Backend` functions. Their outcomes are inputs, so whatever leniency the JSON output parser has is also an input.
- `json.loads` is the parameter `loads`, not a JSON grammar. Only its value-or-error outcome and the shape test on its result matter to the logic.
- JSON numbers are integers only (`JNumber`). Floating point is left out, since no branch looks at numbers.
- Python dicts keep key order; `JObject` is an unordered map. Key order is never inspected by the classifier.
- All `print` diagnostics and their truncations (`[:100]`, `[:300]`) are left out. So are the `__main__` demo block and the model name and base URL given at construction, which only address the backend.
- The assignment `raw_llm_output_for_fallback = str(response)` at line 77 is not modelled. Its value is overwritten at line 93 before any use, or is unused on the path that returns at line 97.
- Exceptions that are not `Exception` subclasses (such as `KeyboardInterrupt`) pass through `classify_text` in the source. The model is total and has none.
- No separate lemma states that parsing is deterministic. In the model, `loads` and the backend are mathematical functions, so re-parsing the same text gives the same value by construction.
