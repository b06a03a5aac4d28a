/** The orchestrator-worker exercise: one model writes a question, three models answer it, and a
    judge ranks the answers; the ranking is sorted and displayed, with the raw reply as a fallback. */
module ModelJudging {
  import opened Wrappers
  import opened Text
  import opened Messages
  import opened Ranking
  import opened FString

  const OpenAIModel: string := "gpt-4o-mini"
  const GeminiModel: string := "gemini-2.5-flash-lite"
  const OllamaModel: string := "gemma3:12b"

  /** The one user message a prompt is sent as. */
  function Ask(prompt: string): Request
  {
    [Wire(UserMessage(prompt))]
  }

  /** `generator`: the prompt to "gpt-4o-mini" on the default OpenAI client; the content, or ""
      when there is none. Nothing is caught, so a failed call raises out of it. */
  function Generator(openai: CompletionBackend, prompt: string): (r: Call<string>)
    ensures r.Raised? <==> openai(OpenAIModel, Ask(prompt)).Raised?
    ensures r.Raised? ==> r.error == openai(OpenAIModel, Ask(prompt)).error
    ensures r.Returned? ==> r.value == ContentOrEmpty(openai(OpenAIModel, Ask(prompt)).value)
  {
    match openai(OpenAIModel, Ask(prompt))
    case Raised(e) => Raised(e)
    case Returned(content) => Returned(ContentOrEmpty(content))
  }

  /** The question-generation prompt (2-exercise.py:51-52), an opaque literal here. */
  const GeneratorPrompt: string

  /** What one `*_answer` function adds to the results: the model's answer when the call returns,
      nothing when it raises (the exception is printed and dropped). */
  function Answered(backend: CompletionBackend, model: string, messages: Request): (added: seq<LLMResult>)
    ensures |added| <= 1
    ensures added != [] <==> backend(model, messages).Returned?
    ensures added != [] ==> added[0] == LLMResult(model, ContentOrEmpty(backend(model, messages).value))
  {
    match backend(model, messages)
    case Raised(_) => []
    case Returned(content) => [LLMResult(model, ContentOrEmpty(content))]
  }

  /** `results` after `openai_answer()`, `gemini_answer()` and `ollama_answer()`, in that order. */
  function Gathered(openai: CompletionBackend, gemini: CompletionBackend, ollama: CompletionBackend,
                    messages: Request): seq<LLMResult>
  {
    Answered(openai, OpenAIModel, messages) + Answered(gemini, GeminiModel, messages)
    + Answered(ollama, OllamaModel, messages)
  }

  /** The position of a worker model in the call order. */
  function CallOrder(model: string): nat
  {
    if model == OpenAIModel then 0 else if model == GeminiModel then 1 else 2
  }

  /** The results gathered by the calls in their order: at most one per model, each model present
      exactly when its call returned, and the models in call order. */
  lemma GatheredInCallOrder(openai: CompletionBackend, gemini: CompletionBackend, ollama: CompletionBackend,
                            messages: Request)
    ensures var rs := Gathered(openai, gemini, ollama, messages);
      && |rs| <= 3
      && ((exists i :: 0 <= i < |rs| && rs[i].model == OpenAIModel) <==> openai(OpenAIModel, messages).Returned?)
      && ((exists i :: 0 <= i < |rs| && rs[i].model == GeminiModel) <==> gemini(GeminiModel, messages).Returned?)
      && ((exists i :: 0 <= i < |rs| && rs[i].model == OllamaModel) <==> ollama(OllamaModel, messages).Returned?)
      && forall i, j :: 0 <= i < j < |rs| ==> CallOrder(rs[i].model) < CallOrder(rs[j].model)
  {
    assert |OpenAIModel| == 11 && |GeminiModel| == 21 && |OllamaModel| == 10;
    var a := Answered(openai, OpenAIModel, messages);
    var b := Answered(gemini, GeminiModel, messages);
    var c := Answered(ollama, OllamaModel, messages);
    var rs := a + b + c;
    forall i | 0 <= i < |rs|
      ensures (rs[i].model == OpenAIModel <==> i < |a|) && (rs[i].model == GeminiModel <==> |a| <= i < |a| + |b|)
        && (rs[i].model == OllamaModel <==> |a| + |b| <= i)
      ensures CallOrder(rs[i].model) == (if i < |a| then 0 else if i < |a| + |b| then 1 else 2)
    {
      if i < |a| {
        assert rs[i] == a[0];
      } else if i < |a| + |b| {
        assert rs[i] == b[0];
      } else {
        assert rs[i] == c[0];
      }
    }
    if a != [] {
      assert rs[0].model == OpenAIModel;
    }
    if b != [] {
      assert rs[|a|].model == GeminiModel;
    }
    if c != [] {
      assert rs[|a| + |b|].model == OllamaModel;
    }
  }

  /** The script's module-level state: the generated question and the `results` list the answer
      functions append to. */
  class Session {
    const question: string
    var results: seq<LLMResult>

    constructor (question: string)
      ensures this.question == question && results == []
    {
      this.question := question;
      results := [];
    }

    /** `messages`: the question as the only user message. */
    function Messages(): Request
    {
      Ask(question)
    }

    /** The body shared by `openai_answer`, `gemini_answer` and `ollama_answer`. */
    method CollectAnswer(backend: CompletionBackend, model: string)
      modifies this
      ensures results == old(results) + Answered(backend, model, Messages())
    {
      var response := backend(model, Messages());
      match response
      case Raised(_) =>
      case Returned(content) =>
        var answer := if content.Some? then content.value else "";
        results := results + [LLMResult(model, answer)];
    }

    method OpenAIAnswer(openai: CompletionBackend)
      modifies this
      ensures results == old(results) + Answered(openai, OpenAIModel, Messages())
    {
      CollectAnswer(openai, OpenAIModel);
    }

    method GeminiAnswer(gemini: CompletionBackend)
      modifies this
      ensures results == old(results) + Answered(gemini, GeminiModel, Messages())
    {
      CollectAnswer(gemini, GeminiModel);
    }

    method OllamaAnswer(ollama: CompletionBackend)
      modifies this
      ensures results == old(results) + Answered(ollama, OllamaModel, Messages())
    {
      CollectAnswer(ollama, OllamaModel);
    }

    /** The three calls in the script's order: OpenAI, then Gemini, then Ollama. */
    method GatherAnswers(openai: CompletionBackend, gemini: CompletionBackend, ollama: CompletionBackend)
      modifies this
      ensures results == old(results) + Gathered(openai, gemini, ollama, Messages())
    {
      OpenAIAnswer(openai);
      GeminiAnswer(gemini);
      OllamaAnswer(ollama);
    }
  }

  const ResponseOpening: string := "## Response "
  const ResponseFrom: string := " from "
  const ResponseHeadingEnd: string := ":\n"
  const BlockEnd: string := "\n\n"

  /** The block of the `number`-th result in `together`. */
  function ResponseBlock(number: nat, r: LLMResult): string
  {
    ResponseOpening + IntToString(number) + ResponseFrom + r.model + ResponseHeadingEnd + r.answer + BlockEnd
  }

  /** `together` after the loop has seen `results`. */
  function Together(results: seq<LLMResult>): string
  {
    if results == [] then "" else Together(results[..|results| - 1]) + ResponseBlock(|results|, results[|results| - 1])
  }

  /** `together` holds one block per result, numbered from 1 in results order, and nothing else. */
  lemma {:induction false} TogetherBlocks(results: seq<LLMResult>)
    ensures Together(results) == Concat(seq(|results|, i requires 0 <= i < |results| => ResponseBlock(i + 1, results[i])))
  {
    var blocks := seq(|results|, i requires 0 <= i < |results| => ResponseBlock(i + 1, results[i]));
    if results != [] {
      var front := results[..|results| - 1];
      TogetherBlocks(front);
      assert blocks[..|blocks| - 1] == seq(|front|, i requires 0 <= i < |front| => ResponseBlock(i + 1, front[i]));
    }
  }

  lemma TogetherStep(results: seq<LLMResult>, i: nat)
    requires i < |results|
    ensures Together(results[..i + 1]) == Together(results[..i]) + ResponseBlock(i + 1, results[i])
  {
    assert results[..i + 1][..i] == results[..i];
  }

  /** The loop that builds `together`, two additions per result. */
  method FormatResponses(results: seq<LLMResult>) returns (together: string)
    ensures together == Together(results)
  {
    together := "";
    for i := 0 to |results|
      invariant together == Together(results[..i])
    {
      TogetherStep(results, i);
      var res := results[i];
      together := together + (ResponseOpening + IntToString(i + 1) + ResponseFrom + res.model + ResponseHeadingEnd);
      together := together + (res.answer + BlockEnd);
    }
    assert results[..|results|] == results;
  }

  /** The fixed text of the comparison prompt (2-exercise.py:125-144) between its replacement
      fields, opaque literals here. The format example's braces are doubled in the source, so it is
      literal text and sits inside `CompareFormat`. */
  const CompareOpening: string
  const CompareQuestionIntro: string
  const CompareRankIntro: string
  const CompareBestWorst: string
  const CompareFormat: string
  const CompareClosing: string := "\n"

  /** The comparison f-string, for `count` results, the question and `together`. */
  function CompareTemplate(count: nat, question: string, together: string): seq<Piece>
  {
    [Lit(CompareOpening), Field(IntToString(count), []), Lit(CompareQuestionIntro), Field(question, []),
     Lit(CompareRankIntro), Field(IntToString(count), []), Lit(CompareBestWorst), Field(IntToString(count), []),
     Lit(CompareFormat), Field(together, []), Lit(CompareClosing)]
  }

  /** The text the comparison f-string evaluates to. */
  function ComparePrompt(count: nat, question: string, together: string): string
  {
    Concat([CompareOpening, IntToString(count), CompareQuestionIntro, question, CompareRankIntro,
            IntToString(count), CompareBestWorst, IntToString(count), CompareFormat, together, CompareClosing])
  }

  /** With its braces doubled the comparison f-string never raises: it evaluates to the prompt. */
  lemma CompareTemplateRenders(count: nat, question: string, together: string)
    ensures Render(CompareTemplate(count, question, together)) == Returned(ComparePrompt(count, question, together))
  {
    var ps := CompareTemplate(count, question, together);
    RenderPlain(ps);
    assert seq(|ps|, i requires 0 <= i < |ps| => PlainText(ps[i]))
        == [CompareOpening, IntToString(count), CompareQuestionIntro, question, CompareRankIntro,
            IntToString(count), CompareBestWorst, IntToString(count), CompareFormat, together, CompareClosing];
  }

  /** The judge's reply after `json.loads`: a JSON object whose "result" entry, when present, is an
      object from model names to ranking objects, kept as its items in reading order. */
  type JudgeResponse = map<string, seq<(string, Record)>>

  const ResultKey: string := "result"
  const ReasonKey: string := "reason"

  /** The ranking objects of the items, in order: what the sort key reads. */
  function RankingData(items: seq<(string, Record)>): (records: seq<Record>)
    ensures |records| == |items| && forall i :: 0 <= i < |items| ==> records[i] == items[i].1
  {
    seq(|items|, i requires 0 <= i < |items| => items[i].1)
  }

  /** `sorted(rankings.items(), key=lambda x: int(x[1]["rank"]))`, when every rank converts. */
  function SortedItems(items: seq<(string, Record)>, keys: seq<int>): (sorted: seq<Keyed<(string, Record)>>)
    requires RankKeys(RankingData(items)) == Success(keys)
    ensures |sorted| == |items|
    ensures forall i :: 0 <= i < |sorted| ==> RankKey in sorted[i].item.1 && RankOf(sorted[i].item.1) == Success(sorted[i].key)
  {
    var sorted := SortByKey(Tag(keys, items));
    forall i | 0 <= i < |sorted| ensures RankKey in sorted[i].item.1 && RankOf(sorted[i].item.1) == Success(sorted[i].key) {
      SortedFrom(Tag(keys, items), i);
      var j :| 0 <= j < |items| && Tag(keys, items)[j] == sorted[i];
      assert RankOf(RankingData(items)[j]) == Success(keys[j]);
    }
    sorted
  }

  /** An entry the display loop can show. */
  predicate Showable(entry: (string, Record))
  {
    RankKey in entry.1 && ReasonKey in entry.1
  }

  const RankOpening: string := "**Rank "
  const RankNameSeparator: string := ": "
  const RankHeadingEnd: string := "**\n"
  const ReasonOpening: string := "*Reason:* "

  /** `f"**Rank {rank}: {model_name}**\n"`. */
  function RankHeading(rank: Field, modelName: string): string
  {
    RankOpening + Show(rank) + RankNameSeparator + modelName + RankHeadingEnd
  }

  /** `f"*Reason:* {reason}\n\n"`. */
  function ReasonLine(reason: Field): string
  {
    ReasonOpening + Show(reason) + BlockEnd
  }

  /** The display loop's output for the entries, in the given order: per entry its rank heading,
      then its reason line. */
  function RankingOutput(sorted: seq<Keyed<(string, Record)>>): string
    requires forall i :: 0 <= i < |sorted| ==> Showable(sorted[i].item)
  {
    if sorted == [] then ""
    else
      var entry := sorted[|sorted| - 1].item;
      assert Showable(entry);
      RankingOutput(sorted[..|sorted| - 1]) + RankHeading(entry.1[RankKey], entry.0) + ReasonLine(entry.1[ReasonKey])
  }

  /** Showing entry `i` after the first `i` appends its heading and then its reason line. */
  lemma RankingOutputStep(sorted: seq<Keyed<(string, Record)>>, i: nat)
    requires i < |sorted| && forall j :: 0 <= j <= i ==> Showable(sorted[j].item)
    ensures RankingOutput(sorted[..i + 1])
      == RankingOutput(sorted[..i]) + RankHeading(sorted[i].item.1[RankKey], sorted[i].item.0)
         + ReasonLine(sorted[i].item.1[ReasonKey])
  {
    assert sorted[..i + 1][..i] == sorted[..i];
  }

  /** The display loop: one block per entry in the given order, or the KeyError raised at the first
      entry without a "reason". */
  method FormatRankings(sorted: seq<Keyed<(string, Record)>>) returns (r: Result<string, PyException>)
    requires forall i :: 0 <= i < |sorted| ==> RankKey in sorted[i].item.1
    ensures (forall i :: 0 <= i < |sorted| ==> ReasonKey in sorted[i].item.1) ==> r == Success(RankingOutput(sorted))
    ensures (exists i :: 0 <= i < |sorted| && ReasonKey !in sorted[i].item.1) ==> r == Failure(KeyError(ReasonKey))
  {
    var output := "";
    var i := 0;
    while i < |sorted|
      invariant 0 <= i <= |sorted|
      invariant forall j :: 0 <= j < i ==> Showable(sorted[j].item)
      invariant output == RankingOutput(sorted[..i])
    {
      var entry := sorted[i].item;
      var modelName, rankingData := entry.0, entry.1;
      var rank := rankingData[RankKey];
      if ReasonKey !in rankingData {
        return Failure(KeyError(ReasonKey));
      }
      var reason := rankingData[ReasonKey];
      RankingOutputStep(sorted, i);
      output := output + RankHeading(rank, modelName);
      output := output + ReasonLine(reason);
      i := i + 1;
    }
    assert sorted[..i] == sorted;
    return Success(output);
  }

  const SummaryQuestionHeading: string := "\n## Original Question\n"
  const SummaryCountLine: string := "\n\n## Summary\n- **Total Models Evaluated:** "
  const SummaryWinnerLine: string := "\n- **Winner:** "
  const SummaryCriteriaLine: string := " \n- **Evaluation Criteria:** Intelligence, reasoning, and response quality\n"

  /** `summary_output`: the question, the number of results and the winner's name. */
  function SummaryText(question: string, count: nat, winner: string): string
  {
    SummaryQuestionHeading + question + SummaryCountLine + IntToString(count) + SummaryWinnerLine + winner
    + SummaryCriteriaLine
  }

  const FallbackHeading: string := "**Error in ranking - showing raw response:**\n\n"

  /** The fallback display: the heading, then the judge's reply verbatim. */
  function FallbackText(raw: string): string
  {
    FallbackHeading + raw
  }

  /** What the ranking block leaves behind: the markdown texts it displayed, in order, and the
      exception that escaped it, if any. */
  datatype Shown = Shown(displayed: seq<string>, escaped: Option<PyException>)

  /** The ranking block for the judge's reply `raw`, decoded as `decoded` (None when it is not
      JSON). A decoding error, a missing "result", a missing "rank" met while computing the sort
      keys, and a missing "reason" met by the display loop are caught and show the raw reply; a rank
      `int()` rejects escapes before anything is displayed; an empty ranking displays its empty
      output and then fails at `sorted_rankings[0]`. */
  function RankingDisplay(decoded: Option<JudgeResponse>, raw: string, question: string, count: nat): Shown
  {
    if decoded.None? || ResultKey !in decoded.value then Shown([FallbackText(raw)], None)
    else
      var items := decoded.value[ResultKey];
      match RankKeys(RankingData(items))
      case Failure(e) => if e.KeyError? then Shown([FallbackText(raw)], None) else Shown([], Some(e))
      case Success(keys) =>
        var sorted := SortedItems(items, keys);
        if exists i :: 0 <= i < |sorted| && ReasonKey !in sorted[i].item.1 then Shown([FallbackText(raw)], None)
        else
          var output := RankingOutput(sorted);
          if sorted == [] then Shown([output], Some(IndexError))
          else Shown([output, SummaryText(question, count, sorted[0].item.0)], None)
  }

  /** The ranking block as the script runs it. */
  method ShowRankings(decoded: Option<JudgeResponse>, raw: string, question: string, count: nat) returns (shown: Shown)
    ensures shown == RankingDisplay(decoded, raw, question, count)
  {
    if decoded.None? {
      return Shown([FallbackText(raw)], None);
    }
    var jsonRanking := decoded.value;
    if ResultKey !in jsonRanking {
      return Shown([FallbackText(raw)], None);
    }
    var rankings := jsonRanking[ResultKey];
    var keys := RankKeys(RankingData(rankings));
    if keys.Failure? {
      if keys.error.KeyError? {
        return Shown([FallbackText(raw)], None);
      }
      return Shown([], Some(keys.error));
    }
    var sortedRankings := SortedItems(rankings, keys.value);
    var output := FormatRankings(sortedRankings);
    if output.Failure? {
      return Shown([FallbackText(raw)], None);
    }
    if |sortedRankings| == 0 {
      return Shown([output.value], Some(IndexError));
    }
    var summaryOutput := SummaryText(question, count, sortedRankings[0].item.0);
    return Shown([output.value, summaryOutput], None);
  }

  /** The fallback is the only display that starts with its heading, and it ends with the raw reply
      unchanged. */
  lemma FallbackShowsRaw(raw: string)
    ensures StartsWith(FallbackText(raw), FallbackHeading)
    ensures FallbackText(raw)[|FallbackHeading|..] == raw
  {
    StartsWithAppend(FallbackHeading, raw);
  }

  /** A reply that is not JSON, or has no "result", is shown raw and nothing escapes. */
  lemma UndecodableShowsRaw(decoded: Option<JudgeResponse>, raw: string, question: string, count: nat)
    requires decoded.None? || ResultKey !in decoded.value
    ensures RankingDisplay(decoded, raw, question, count) == Shown([FallbackText(raw)], None)
  {
  }

  /** The two exceptions the block does not catch: a rank `int()` rejects, reached before any
      missing "rank", escapes with nothing displayed; and an empty ranking escapes with IndexError
      after its empty output is displayed. */
  lemma RankingEscapes(items: seq<(string, Record)>, raw: string, question: string, count: nat)
    ensures var shown := RankingDisplay(Some(map[ResultKey := items]), raw, question, count);
      && (RankKeys(RankingData(items)).Failure? && RankKeys(RankingData(items)).error.ValueError? ==>
            shown == Shown([], Some(RankKeys(RankingData(items)).error)))
      && (items == [] ==> shown == Shown([""], Some(IndexError)))
      && (shown.escaped.Some? ==>
            ((items == [] && shown.escaped == Some(IndexError)) || shown.escaped.value.ValueError?))
  {
    var resp := map[ResultKey := items];
    assert ResultKey in resp && resp[ResultKey] == items;
    match RankKeys(RankingData(items))
    case Failure(e) =>
      if !e.KeyError? {
        var i :| 0 <= i < |items| && RankOf(RankingData(items)[i]) == Failure(e);
        assert ToInt(RankingData(items)[i][RankKey]) == Failure(e);
      }
    case Success(keys) =>
  }

  /** When the rankings are displayed, there is one block per entry, in ascending `int(rank)`
      order with ties in the judge's order, each showing the entry's rank value as written, its
      name and its reason; the winner named next is the first sorted entry, whose rank is the
      smallest and which comes first among the entries sharing it. */
  lemma RankingDisplayed(items: seq<(string, Record)>, raw: string, question: string, count: nat)
    requires RankingDisplay(Some(map[ResultKey := items]), raw, question, count).escaped.None?
    requires RankingDisplay(Some(map[ResultKey := items]), raw, question, count).displayed != [FallbackText(raw)]
    ensures RankKeys(RankingData(items)).Success? && items != []
    ensures var keys := RankKeys(RankingData(items)).value;
      var sorted := SortByKey(Tag(keys, items));
      var shown := RankingDisplay(Some(map[ResultKey := items]), raw, question, count);
      && multiset(sorted) == multiset(Tag(keys, items))
      && StableOrder(sorted)
      && (forall i :: 0 <= i < |sorted| ==>
            (Showable(sorted[i].item) && RankOf(sorted[i].item.1) == Success(sorted[i].key)))
      && shown.displayed == [RankingOutput(sorted), SummaryText(question, count, sorted[0].item.0)]
      && (forall x :: x in Tag(keys, items) ==> sorted[0].key <= x.key)
      && (forall x :: x in Tag(keys, items) && x.key == sorted[0].key ==> sorted[0].pos <= x.pos)
  {
    var resp := map[ResultKey := items];
    assert ResultKey in resp && resp[ResultKey] == items;
    var keys := RankKeys(RankingData(items)).value;
    TagIncreasing(keys, items);
    SortByKeyStable(Tag(keys, items));
    SortedFirstIsMinimal(Tag(keys, items));
  }

  /** The whole script once the three clients are given: `decode` stands for `json.loads`. The
      question and the ranking come from `generator`, whose failures escape; the answers are gathered
      in call order, formatted, and sent in the comparison prompt; the ranking block ends the run. */
  method RunJudging(openai: CompletionBackend, gemini: CompletionBackend, ollama: CompletionBackend,
                    decode: string -> Option<JudgeResponse>)
    returns (r: Call<Shown>)
    ensures Generator(openai, GeneratorPrompt).Raised? ==> r == Raised(Generator(openai, GeneratorPrompt).error)
    ensures Generator(openai, GeneratorPrompt).Returned? ==>
      var question := Generator(openai, GeneratorPrompt).value;
      var results := Gathered(openai, gemini, ollama, Ask(question));
      var ranking := Generator(openai, ComparePrompt(|results|, question, Together(results)));
      && (ranking.Raised? ==> r == Raised(ranking.error))
      && (ranking.Returned? ==>
            r == Returned(RankingDisplay(decode(ranking.value), ranking.value, question, |results|)))
  {
    var question := Generator(openai, GeneratorPrompt);
    if question.Raised? {
      return Raised(question.error);
    }
    var session := new Session(question.value);
    session.GatherAnswers(openai, gemini, ollama);
    ghost var results := Gathered(openai, gemini, ollama, Ask(question.value));
    assert session.results == [] + results == results;
    var together := FormatResponses(session.results);
    var compare := Render(CompareTemplate(|session.results|, session.question, together));
    CompareTemplateRenders(|session.results|, session.question, together);
    assert compare == Returned(ComparePrompt(|results|, question.value, Together(results)));
    var rankingResponse := Generator(openai, compare.value);
    if rankingResponse.Raised? {
      return Raised(rankingResponse.error);
    }
    var shown := ShowRankings(decode(rankingResponse.value), rankingResponse.value, session.question,
                              |session.results|);
    return Returned(shown);
  }
}
