/** The multi-model lab: a validator model asks a question, several models answer it, and the
    validator ranks the answers. */
module MultiModelLab {
  import opened Wrappers
  import opened Text
  import opened Messages
  import opened Ranking
  import opened FString

  /** `Model.generate`: one user message sent to the model `modelName`; the answer is the reply's
      content, or "" when there is none or the call raised. It never raises itself. */
  function Generate(modelName: string, backend: CompletionBackend, prompt: string): (r: LLMResult)
    ensures r.model == modelName
    ensures var reply := backend(modelName, [Wire(UserMessage(prompt))]);
      && (reply.Returned? && reply.value.Some? ==> r.answer == reply.value.value)
      && (reply.Raised? || reply.value.None? ==> r.answer == "")
    ensures r.answer != "" ==> backend(modelName, [Wire(UserMessage(prompt))]) == Returned(Some(r.answer))
  {
    match backend(modelName, [Wire(UserMessage(prompt))])
    case Raised(_) => LLMResult(modelName, "")
    case Returned(content) => LLMResult(modelName, if content.Some? then content.value else "")
  }

  /** `get_last_question`'s answer: the content of the last user message scanning back from the
      end, or "" when there is none. */
  function LastUserContent(h: seq<Message>): string
  {
    if h == [] then ""
    else if h[|h| - 1].role == UserRole then h[|h| - 1].content
    else LastUserContent(h[..|h| - 1])
  }

  /** Without a user message the scan finds nothing. */
  lemma {:induction false} LastUserContentNone(h: seq<Message>)
    requires forall i :: 0 <= i < |h| ==> h[i].role != UserRole
    ensures LastUserContent(h) == ""
  {
    if h != [] {
      var front := h[..|h| - 1];
      assert forall j :: 0 <= j < |front| ==> front[j] == h[j];
      LastUserContentNone(front);
    }
  }

  /** With a user message the scan finds the most recent one: the content of the user message at
      `i`, which no later user message follows. */
  lemma {:induction false} LastUserContentFound(h: seq<Message>, k: nat) returns (i: nat)
    requires k < |h| && h[k].role == UserRole
    ensures i < |h| && h[i].role == UserRole && LastUserContent(h) == h[i].content
    ensures forall j :: i < j < |h| ==> h[j].role != UserRole
  {
    var n := |h| - 1;
    if h[n].role == UserRole {
      i := n;
    } else {
      var front := h[..n];
      assert front[k] == h[k];
      i := LastUserContentFound(front, k);
      assert h[i] == front[i];
      forall j | i < j < |h| ensures h[j].role != UserRole {
        if j < n {
          assert front[j] == h[j];
        }
      }
    }
  }

  /** Scanning one message back from position `i`: a user message there is the answer, any other
      message is skipped. */
  lemma LastUserStep(h: seq<Message>, i: nat)
    requires 0 < i <= |h|
    ensures h[i - 1].role == UserRole ==> LastUserContent(h[..i]) == h[i - 1].content
    ensures h[i - 1].role != UserRole ==> LastUserContent(h[..i]) == LastUserContent(h[..i - 1])
  {
    assert h[..i][..i - 1] == h[..i - 1];
  }

  /** After a user message and then an assistant message, the last user message is the first one. */
  lemma LastUserAfterExchange(h: seq<Message>, prompt: string, answer: string)
    ensures LastUserContent(h + [UserMessage(prompt), AssistantMessage(answer)]) == prompt
  {
    var g := h + [UserMessage(prompt), AssistantMessage(answer)];
    assert g[|g| - 1].role == AssistantRole != UserRole;
    assert g[..|g| - 1] == h + [UserMessage(prompt)];
  }

  /** The question-generation prompt (2-lab-py.py:78-80), an opaque literal here. */
  const QuestionPrompt: string

  /** The fixed text of the review prompt (2-lab-py.py:90-115) between its replacement fields,
      opaque literals here. */
  const ReviewOpening: string
  const ReviewRankLine: string
  const ReviewQuestionHeading: string
  const ReviewResponsesHeading: string
  const ReviewFormatInstructions: string
  const ReviewClosing: string
  /** The JSON example the review prompt is meant to show, from its opening to its closing brace. */
  const ReviewJsonExample: string

  function ResultLine(r: LLMResult): string
  {
    r.model + ": " + r.answer
  }

  /** `models_str`: one `"<model>: <answer>"` line per result, joined by newlines. */
  function ModelsStr(results: seq<LLMResult>): string
  {
    Join("\n", seq(|results|, i requires 0 <= i < |results| => ResultLine(results[i])))
  }

  /** When no model name or answer holds a newline, `models_str` splits back into exactly one line
      per result, in results order. */
  lemma ModelsStrLines(results: seq<LLMResult>)
    requires |results| > 0
    requires forall i :: 0 <= i < |results| ==> '\n' !in results[i].model && '\n' !in results[i].answer
    ensures var lines := Split(ModelsStr(results), '\n');
      |lines| == |results| && forall i :: 0 <= i < |results| ==> lines[i] == results[i].model + ": " + results[i].answer
  {
    var lines := seq(|results|, i requires 0 <= i < |results| => ResultLine(results[i]));
    forall i | 0 <= i < |lines| ensures '\n' !in lines[i] {
      assert lines[i] == results[i].model + ": " + results[i].answer;
    }
    SplitJoin('\n', lines);
  }

  /** The review prompt's JSON example as the source writes it: single braces in an f-string, so the
      outer pair is a replacement field for the expression `"results"` whose format spec runs to the
      closing brace and holds three nested fields `{"model": ...}`. */
  const JsonExampleAsWritten: Piece :=
    Field("results", [
      Lit(" [\n                "), Field("model", [Lit(BadModelSpec)]),
      Lit(",\n                "), Field("model", [Lit(" \"model2\", \"rank\": \"2\"")]),
      Lit(",\n                "), Field("model", [Lit(" \"model3\", \"rank\": \"3\"")]),
      Lit(",\n                ...\n            ]\n        ")])

  /** The review f-string as written, for `count` results, the last question and `models_str`. */
  function ReviewTemplateAsWritten(count: nat, question: string, models: string): seq<Piece>
  {
    [Lit(ReviewOpening), Field(IntToString(count), []), Lit(ReviewRankLine), Field(IntToString(count), []),
     Lit(ReviewQuestionHeading), Field(question, []), Lit(ReviewResponsesHeading), Field(models, []),
     Lit(ReviewFormatInstructions), JsonExampleAsWritten, Lit(ReviewClosing)]
  }

  /** The review f-string with the JSON example's braces doubled, so the example is literal text. */
  function ReviewTemplate(count: nat, question: string, models: string): seq<Piece>
  {
    [Lit(ReviewOpening), Field(IntToString(count), []), Lit(ReviewRankLine), Field(IntToString(count), []),
     Lit(ReviewQuestionHeading), Field(question, []), Lit(ReviewResponsesHeading), Field(models, []),
     Lit(ReviewFormatInstructions), Lit(ReviewJsonExample), Lit(ReviewClosing)]
  }

  /** The text the corrected review f-string evaluates to. */
  function ReviewPrompt(count: nat, question: string, models: string): string
  {
    Concat([ReviewOpening, IntToString(count), ReviewRankLine, IntToString(count), ReviewQuestionHeading,
            question, ReviewResponsesHeading, models, ReviewFormatInstructions, ReviewJsonExample, ReviewClosing])
  }

  /** The format spec of the first nested field of the JSON example as written. */
  const BadModelSpec: string := " \"model1\", \"rank\": \"1\""

  /** A spec that starts with a space and then a quote is not a valid spec for a string: no
      alignment, width or precision can begin that way. */
  lemma QuotedSpecRejected(spec: string)
    requires |spec| >= 2 && spec[0] == ' ' && spec[1] == '"'
    ensures ParseStrSpec(spec).None?
  {
  }

  /** A nested field `{v:spec}` with such a spec raises. */
  lemma NestedFieldRaises(v: string, spec: string)
    requires |spec| >= 2 && spec[0] == ' ' && spec[1] == '"'
    ensures RenderPiece(Field(v, [Lit(spec)])) == Raised(FormatError(spec))
  {
    QuotedSpecRejected(spec);
    assert Render([Lit(spec)]) == Returned(spec) by {
      assert [Lit(spec)][1..] == [];
      assert spec + "" == spec;
    }
  }

  lemma JsonExampleAsWrittenRaises()
    ensures RenderPiece(JsonExampleAsWritten) == Raised(FormatError(BadModelSpec))
  {
    NestedFieldRaises("model", BadModelSpec);
    var spec := JsonExampleAsWritten.spec;
    assert spec[1] == Field("model", [Lit(BadModelSpec)]);
    assert RenderPiece(spec[0]) == Returned(" [\n                ");
    RenderRaisesAt(spec, 1, FormatError(BadModelSpec));
  }

  /** The first nested field of the JSON example has a format spec that is not valid for a string:
      the review prompt as written raises on every call, whatever the question, the answers and
      their number. */
  lemma ReviewPromptAsWrittenRaises(count: nat, question: string, models: string)
    ensures Render(ReviewTemplateAsWritten(count, question, models)) == Raised(FormatError(BadModelSpec))
  {
    JsonExampleAsWrittenRaises();
    var ps := ReviewTemplateAsWritten(count, question, models);
    assert Render([]) == Returned("");
    assert forall i :: 0 <= i < 9 ==> ps[i].Lit? || ps[i].spec == [];
    RenderRaisesAt(ps, 9, FormatError(BadModelSpec));
  }

  /** The corrected review f-string never raises and evaluates to `ReviewPrompt`. */
  lemma ReviewTemplateRenders(count: nat, question: string, models: string)
    ensures Render(ReviewTemplate(count, question, models)) == Returned(ReviewPrompt(count, question, models))
  {
    var ps := ReviewTemplate(count, question, models);
    RenderPlain(ps);
    assert seq(|ps|, i requires 0 <= i < |ps| => PlainText(ps[i]))
        == [ReviewOpening, IntToString(count), ReviewRankLine, IntToString(count), ReviewQuestionHeading,
            question, ReviewResponsesHeading, models, ReviewFormatInstructions, ReviewJsonExample, ReviewClosing];
  }

  /** The judge's reply after `json.loads`: a JSON object whose "results" entry, when present, is a
      list of objects; or the decoding error. */
  type RankResponse = map<string, seq<Record>>

  const ResultsKey: string := "results"
  const ModelKey: string := "model"

  /** An entry the printing loop can print. */
  predicate Printable(x: Record)
  {
    RankKey in x && ModelKey in x
  }

  /** `f"{model_rank} : {model_name}\n"` for one ranking entry. */
  function RankLine(x: Record): string
    requires Printable(x)
  {
    Show(x[RankKey]) + " : " + Show(x[ModelKey]) + "\n"
  }

  /** One printed line per entry, in the given order. */
  function RankLines(xs: seq<Keyed<Record>>): seq<string>
    requires forall i :: 0 <= i < |xs| ==> Printable(xs[i].item)
  {
    seq(|xs|, i requires 0 <= i < |xs| => RankLine(xs[i].item))
  }

  /** The rankings sorted by `int(rank)`, when every rank converts. */
  function SortedRankings(records: seq<Record>, keys: seq<int>): (sorted: seq<Keyed<Record>>)
    requires RankKeys(records) == Success(keys)
    ensures |sorted| == |records| && forall i :: 0 <= i < |sorted| ==> RankKey in sorted[i].item
  {
    var sorted := SortByKey(Tag(keys, records));
    forall i | 0 <= i < |sorted| ensures RankKey in sorted[i].item {
      SortedFrom(Tag(keys, records), i);
      var j :| 0 <= j < |records| && Tag(keys, records)[j] == sorted[i];
      assert RankOf(records[j]).Success?;
    }
    sorted
  }

  /** The lines `output_rank` prints, or the exception its `try` block raises: a decoding error, a
      missing "results", the first rank that is missing or not an integer (the sort keys are all
      computed before sorting), then the first entry in sorted order without a "model". */
  function RankOutcome(decoded: Call<RankResponse>): Result<seq<string>, PyException>
  {
    match decoded
    case Raised(e) => Failure(e)
    case Returned(response) =>
      if ResultsKey !in response then Failure(KeyError(ResultsKey))
      else
        var records := response[ResultsKey];
        match RankKeys(records)
        case Failure(e) => Failure(e)
        case Success(keys) =>
          var sorted := SortedRankings(records, keys);
          if exists i :: 0 <= i < |sorted| && ModelKey !in sorted[i].item then Failure(KeyError(ModelKey))
          else Success(RankLines(sorted))
  }

  /** What `output_rank` returns: the lines joined, or `f"Error: {e}"`. */
  function RankReport(decoded: Call<RankResponse>): string
  {
    match RankOutcome(decoded)
    case Success(lines) => Concat(lines)
    case Failure(e) => ErrorPrefix + Describe(e)
  }

  lemma {:induction false} ConcatFirst(lines: seq<string>)
    requires |lines| > 0 && |lines[0]| > 0
    ensures |Concat(lines)| > 0 && Concat(lines)[0] == lines[0][0]
  {
    ConcatAppend([lines[0]], lines[1..]);
    assert [lines[0]] + lines[1..] == lines;
    assert [lines[0]][..0] == [];
    assert Concat([lines[0]]) == "" + lines[0];
  }

  /** A printed rank never looks like the error prefix: it is the string form of an integer or a
      string `int()` accepts. */
  lemma RankShownStart(v: Field)
    requires ToInt(v).Success?
    ensures |Show(v)| > 0 && Show(v)[0] != 'E'
  {
    if v.JString? {
      ParsedTextStart(v.s);
    }
  }

  /** `output_rank` reports an error exactly when its `try` block raises, and then the report
      begins with "Error: ". */
  lemma RankReportError(decoded: Call<RankResponse>)
    ensures StartsWith(RankReport(decoded), ErrorPrefix) <==> RankOutcome(decoded).Failure?
  {
    match RankOutcome(decoded)
    case Failure(e) =>
      StartsWithAppend(ErrorPrefix, Describe(e));
    case Success(lines) =>
      RankReportSuccessStart(decoded);
  }

  lemma RankReportSuccessStart(decoded: Call<RankResponse>)
    requires RankOutcome(decoded).Success?
    ensures !StartsWith(RankReport(decoded), ErrorPrefix)
  {
    var lines := RankOutcome(decoded).value;
    if |lines| > 0 {
      var records := decoded.value[ResultsKey];
      var keys := RankKeys(records).value;
      var sorted := SortedRankings(records, keys);
      var x := sorted[0].item;
      assert lines[0] == RankLine(x);
      SortedFrom(Tag(keys, records), 0);
      var j :| 0 <= j < |records| && Tag(keys, records)[j] == sorted[0];
      assert RankOf(records[j]).Success?;
      RankShownStart(x[RankKey]);
      assert lines[0][0] == Show(x[RankKey])[0];
      ConcatFirst(lines);
      assert ErrorPrefix[0] == 'E';
    }
  }

  /** On success there is one line per ranking entry, in ascending `int(rank)` order with ties in
      input order, each printing that entry's original rank value and model. */
  lemma RankReportLines(response: RankResponse)
    requires RankOutcome(Returned(response)).Success?
    ensures ResultsKey in response
    ensures var records := response[ResultsKey];
      RankKeys(records).Success? &&
      var keys := RankKeys(records).value;
      var sorted := SortByKey(Tag(keys, records));
      var lines := RankOutcome(Returned(response)).value;
      && |lines| == |records| == |sorted|
      && multiset(sorted) == multiset(Tag(keys, records))
      && StableOrder(sorted)
      && (forall i :: 0 <= i < |sorted| ==>
            RankKey in sorted[i].item && ModelKey in sorted[i].item
            && RankOf(sorted[i].item) == Success(sorted[i].key)
            && lines[i] == Show(sorted[i].item[RankKey]) + " : " + Show(sorted[i].item[ModelKey]) + "\n")
      && RankReport(Returned(response)) == Concat(lines)
  {
    var records := response[ResultsKey];
    var keys := RankKeys(records).value;
    var tagged := Tag(keys, records);
    var sorted := SortedRankings(records, keys);
    TagIncreasing(keys, records);
    SortByKeyStable(tagged);
    forall i | 0 <= i < |sorted| ensures RankOf(sorted[i].item) == Success(sorted[i].key) {
      SortedFrom(tagged, i);
    }
  }

  /** The printing loop of `output_rank`: one line per entry in the given order, or the KeyError
      raised at the first entry without a "model". */
  method PrintRankings(sorted: seq<Keyed<Record>>) returns (r: Result<string, PyException>)
    requires forall i :: 0 <= i < |sorted| ==> RankKey in sorted[i].item
    ensures (forall i :: 0 <= i < |sorted| ==> ModelKey in sorted[i].item) ==> r == Success(Concat(RankLines(sorted)))
    ensures (exists i :: 0 <= i < |sorted| && ModelKey !in sorted[i].item) ==> r == Failure(KeyError(ModelKey))
  {
    var output := "";
    for i := 0 to |sorted|
      invariant forall j :: 0 <= j < i ==> Printable(sorted[j].item)
      invariant output == Concat(RankLines(sorted[..i]))
    {
      var rank := sorted[i].item;
      if ModelKey !in rank {
        return Failure(KeyError(ModelKey));
      }
      RankLinesStep(sorted, i);
      output := output + RankLine(rank);
    }
    assert sorted[..|sorted|] == sorted;
    return Success(output);
  }

  /** Printing one more entry appends its line. */
  lemma RankLinesStep(xs: seq<Keyed<Record>>, i: nat)
    requires i < |xs| && forall j :: 0 <= j <= i ==> Printable(xs[j].item)
    ensures Concat(RankLines(xs[..i + 1])) == Concat(RankLines(xs[..i])) + RankLine(xs[i].item)
  {
    var lines, front := RankLines(xs[..i + 1]), RankLines(xs[..i]);
    forall j | 0 <= j < i ensures lines[j] == front[j] {
      assert xs[..i + 1][j] == xs[..i][j];
    }
    assert lines[..i] == front;
  }

  /** `Validator`: the model that asks the question and judges the answers, with a conversation
      history it appends to. */
  class Validator {
    const modelName: string
    const apiKey: string
    var history: seq<Message>

    constructor (apiKey: string)
      ensures modelName == "gpt-4o-mini" && this.apiKey == apiKey
      ensures history == []
    {
      modelName := "gpt-4o-mini";
      this.apiKey := apiKey;
      history := [];
    }

    method AddUserHistory(prompt: string)
      modifies this
      ensures history == old(history) + [UserMessage(prompt)]
    {
      history := history + [UserMessage(prompt)];
    }

    method AddAssistantHistory(prompt: string)
      modifies this
      ensures history == old(history) + [AssistantMessage(prompt)]
    {
      history := history + [AssistantMessage(prompt)];
    }

    /** `get_last_question`: scans the history from the end for a user message. */
    method GetLastQuestion() returns (q: string)
      ensures q == LastUserContent(history)
    {
      var i := |history|;
      assert history[..i] == history;
      while i > 0
        invariant 0 <= i <= |history|
        invariant LastUserContent(history[..i]) == LastUserContent(history)
      {
        LastUserStep(history, i);
        if history[i - 1].role == UserRole {
          return history[i - 1].content;
        }
        i := i - 1;
      }
      return "";
    }

    /** `generate_question`: the generation prompt, then the generated question, join the history. */
    method GenerateQuestion(backend: CompletionBackend)
      modifies this
      ensures history == old(history)
        + [UserMessage(QuestionPrompt), AssistantMessage(Generate(modelName, backend, QuestionPrompt).answer)]
      ensures LastUserContent(history) == QuestionPrompt
    {
      AddUserHistory(QuestionPrompt);
      var answer := Generate(modelName, backend, QuestionPrompt);
      AddAssistantHistory(answer.answer);
      LastUserAfterExchange(old(history), QuestionPrompt, answer.answer);
    }

    /** `generate_review` as written: evaluating the prompt raises, so nothing is sent and nothing
        is added to the history. */
    method GenerateReviewAsWritten(results: seq<LLMResult>) returns (r: Call<string>)
      ensures r == Raised(FormatError(BadModelSpec))
    {
      var question := GetLastQuestion();
      var prompt := Render(ReviewTemplateAsWritten(|results|, question, ModelsStr(results)));
      ReviewPromptAsWrittenRaises(|results|, question, ModelsStr(results));
      r := Raised(prompt.error);
    }

    /** `generate_review` with the JSON example's braces doubled: the prompt embeds the last user
        message from before the call, then the prompt and the judge's answer join the history. */
    method GenerateReview(results: seq<LLMResult>, backend: CompletionBackend) returns (answer: string)
      modifies this
      ensures var prompt := ReviewPrompt(|results|, LastUserContent(old(history)), ModelsStr(results));
        && answer == Generate(modelName, backend, prompt).answer
        && history == old(history) + [UserMessage(prompt), AssistantMessage(answer)]
        && LastUserContent(history) == prompt
    {
      var question := GetLastQuestion();
      var models := ModelsStr(results);
      var evaluated := Render(ReviewTemplate(|results|, question, models));
      ReviewTemplateRenders(|results|, question, models);
      var prompt := evaluated.value;
      AddUserHistory(prompt);
      var reply := Generate(modelName, backend, prompt);
      answer := reply.answer;
      AddAssistantHistory(answer);
      LastUserAfterExchange(old(history), prompt, answer);
    }

    /** `output_rank`: sort the decoded rankings by `int(rank)` and print one line per entry; any
        exception becomes the returned text `"Error: ..."`. */
    method OutputRank(decoded: Call<RankResponse>) returns (output: string)
      ensures output == RankReport(decoded)
    {
      if decoded.Raised? {
        return ErrorPrefix + Describe(decoded.error);
      }
      var response := decoded.value;
      if ResultsKey !in response {
        return ErrorPrefix + Describe(KeyError(ResultsKey));
      }
      var rankings := response[ResultsKey];
      var keys := RankKeys(rankings);
      if keys.Failure? {
        return ErrorPrefix + Describe(keys.error);
      }
      var sorted := SortedRankings(rankings, keys.value);
      var printed := PrintRankings(sorted);
      output := if printed.Success? then printed.value else ErrorPrefix + Describe(printed.error);
    }
  }
}
