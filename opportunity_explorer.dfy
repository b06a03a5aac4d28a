/** The business-opportunity explorer: three prompts asked in one growing conversation, the three
    answers collected under their step names, and an exit code for the whole run. */
module OpportunityExplorer {
  import opened Wrappers
  import opened Messages
  import opened Conversation

  /** The call `get_llm_response` makes with client `config`: the content or "", or the exception,
      re-raised. */
  function AskWith(config: ClientConfig, backend: CompletionBackend): Ask
  {
    request =>
      match backend(config.Model(), request)
      case Raised(e) => Raised(e)
      case Returned(content) => Returned(ContentOrEmpty(content))
  }

  const BusinessAreaKey: string := "business_area"
  const PainPointKey: string := "pain_point"
  const SolutionKey: string := "solution"

  /** The step names, in the order of the prompts dictionary. */
  const StepKeys: seq<string> := [BusinessAreaKey, PainPointKey, SolutionKey]

  /** The results dictionary after the first `|keys|` steps of the conversation `h`: each step's
      name mapped to the answer that step received. */
  function StepResults(keys: seq<string>, h: seq<Message>): map<string, string>
    requires 2 * |keys| <= |h|
  {
    if keys == [] then map[]
    else
      var n := |keys| - 1;
      StepResults(keys[..n], h)[keys[n] := h[2 * n + 1].content]
  }

  lemma StepResultsStep(keys: seq<string>, h: seq<Message>, i: nat)
    requires i < |keys| && 2 * (i + 1) <= |h|
    ensures StepResults(keys[..i + 1], h) == StepResults(keys[..i], h)[keys[i] := h[2 * i + 1].content]
  {
    assert keys[..i + 1][..i] == keys[..i];
  }

  /** After the three steps, each step name holds the answer of its own step. */
  lemma StepResultsOfSteps(h: seq<Message>)
    requires 6 <= |h|
    ensures StepResults(StepKeys, h)
      == map[BusinessAreaKey := h[1].content, PainPointKey := h[3].content, SolutionKey := h[5].content]
  {
    assert StepKeys[..2] == [BusinessAreaKey, PainPointKey];
    assert StepKeys[..2][..1] == [BusinessAreaKey];
    assert StepKeys[..2][..1][..0] == [];
    assert StepResults([BusinessAreaKey], h) == map[BusinessAreaKey := h[1].content];
  }

  /** The three step names differ, so the results hold exactly three entries and each step's
      answer can be read back under its own name. */
  lemma StepNamesDistinct(businessArea: string, painPoint: string, solution: string)
    ensures var m := map[BusinessAreaKey := businessArea, PainPointKey := painPoint, SolutionKey := solution];
      && m.Keys == {BusinessAreaKey, PainPointKey, SolutionKey} && |m.Keys| == 3
      && m[BusinessAreaKey] == businessArea && m[PainPointKey] == painPoint && m[SolutionKey] == solution
  {
    assert |BusinessAreaKey| == 13 && |PainPointKey| == 10 && |SolutionKey| == 8;
  }

  /** `AgenticAIExplorer`, holding the client chosen at start-up. */
  class AgenticAIExplorer {
    var config: ClientConfig

    /** `__init__`: the client from OLLAMA_BASE_URL and OLLAMA_API_KEY (their values are parameters
        here). */
    constructor (ollamaBaseUrl: Option<string>, ollamaApiKey: Option<string>)
      ensures config == SelectClient(ollamaBaseUrl, ollamaApiKey)
    {
      config := OpenAIDefault;
      new;
      SetupClient(ollamaBaseUrl, ollamaApiKey);
    }

    /** `setup_client`. */
    method SetupClient(ollamaBaseUrl: Option<string>, ollamaApiKey: Option<string>)
      modifies this
      ensures config == SelectClient(ollamaBaseUrl, ollamaApiKey)
    {
      config := SelectClient(ollamaBaseUrl, ollamaApiKey);
    }

    /** `get_llm_response`: the reply's content, "" when there is none, or the call's exception. */
    method GetLlmResponse(messages: Request, backend: CompletionBackend) returns (r: Call<string>)
      ensures r.Raised? <==> backend(config.Model(), messages).Raised?
      ensures r.Raised? ==> r.error == backend(config.Model(), messages).error
      ensures r.Returned? ==> r.value == ContentOrEmpty(backend(config.Model(), messages).value)
      ensures r == AskWith(config, backend)(messages)
    {
      var response := backend(config.Model(), messages);
      match response
      case Raised(e) =>
        return Raised(e);
      case Returned(content) =>
        return Returned(if content.Some? then content.value else "");
    }

    /** `explore_business_opportunity`: every prompt joins the conversation as a user message, the
        whole conversation is sent, and the answer joins it as an assistant message and the results
        under the step's name; the first failure escapes, so no partial results are returned. */
    method ExploreBusinessOpportunity(backend: CompletionBackend) returns (r: Call<map<string, string>>)
      ensures var t := Transcript(AskWith(config, backend), Prompts);
        && (r.Returned? <==> t.Returned?)
        && (r.Raised? ==> r.error == t.error)
        && (r.Returned? ==>
              (|t.value| == 6 && r.value
                == map[BusinessAreaKey := t.value[1].content, PainPointKey := t.value[3].content,
                       SolutionKey := t.value[5].content]))
    {
      ghost var ask := AskWith(config, backend);
      var messages: seq<Message> := [];
      var results: map<string, string> := map[];
      for i := 0 to 3
        invariant Transcript(ask, Prompts[..i]) == Returned(messages)
        invariant |messages| == 2 * i
        invariant results == StepResults(StepKeys[..i], messages)
      {
        TranscriptStep(ask, Prompts, i);
        var step, prompt := StepKeys[i], Prompts[i];
        ghost var before := messages;
        messages := messages + [UserMessage(prompt)];
        var response := GetLlmResponse(WireAll(messages), backend);
        if response.Raised? {
          TranscriptFailurePersists(ask, Prompts, i + 1);
          return Raised(response.error);
        }
        results := results[step := response.value];
        messages := messages + [AssistantMessage(response.value)];
        assert messages == before + [UserMessage(prompt)] + [AssistantMessage(response.value)];
        StepResultsPrefix(StepKeys[..i], before, messages);
        StepResultsStep(StepKeys, messages, i);
      }
      assert Prompts[..3] == Prompts && StepKeys[..3] == StepKeys;
      StepResultsOfSteps(messages);
      r := Returned(results);
    }
  }

  /** The results only read the conversation's first `2 * |keys|` entries: extending it leaves the
      answers of the earlier steps as they were. */
  lemma {:induction false} StepResultsPrefix(keys: seq<string>, h: seq<Message>, g: seq<Message>)
    requires 2 * |keys| <= |h| <= |g| && h == g[..|h|]
    ensures StepResults(keys, h) == StepResults(keys, g)
  {
    if keys != [] {
      var n := |keys| - 1;
      StepResultsPrefix(keys[..n], h, g);
      assert h[2 * n + 1] == g[2 * n + 1];
    }
  }

  /** `main`: explore, print the three answers, and exit with 0; any exception gives exit code 1. */
  method MainExitCode(ollamaBaseUrl: Option<string>, ollamaApiKey: Option<string>, backend: CompletionBackend)
    returns (code: int)
    ensures code == 0 <==> Transcript(AskWith(SelectClient(ollamaBaseUrl, ollamaApiKey), backend), Prompts).Returned?
    ensures code == 1 <==> Transcript(AskWith(SelectClient(ollamaBaseUrl, ollamaApiKey), backend), Prompts).Raised?
  {
    var explorer := new AgenticAIExplorer(ollamaBaseUrl, ollamaApiKey);
    var results := explorer.ExploreBusinessOpportunity(backend);
    if results.Raised? {
      return 1;
    }
    return 0;
  }
}
