/** The conversation-memory demo: a manager object keeps the whole history, sends all of it on every
    call and records each reply, so later prompts can refer to earlier answers. */
module ConversationDemo {
  import opened Wrappers
  import opened Text
  import opened Messages
  import opened Conversation

  /** `chat.completions.create(model=..., messages=...)`: the first choice's content, or the
      exception the client raised. */
  type TextBackend = (string, Request) -> Call<string>

  /** The call a manager with client `config` makes for a message list. */
  function AskWith(config: ClientConfig, backend: TextBackend): Ask
  {
    request => backend(config.Model(), request)
  }

  const DisplayLimit: nat := 100
  const Ellipsis: string := "..."
  const NumberSeparator: string := ". "
  const RoleSeparator: string := ": "

  /** The content as the state dump shows it: cut to its first 100 characters with "..." added
      when it is longer than that, whole otherwise. */
  function Display(content: string): (shown: string)
    ensures |content| <= DisplayLimit ==> shown == content
    ensures |content| > DisplayLimit ==>
      |shown| == DisplayLimit + |Ellipsis| && shown[..DisplayLimit] == content[..DisplayLimit]
      && shown[DisplayLimit..] == Ellipsis
  {
    if |content| > DisplayLimit then content[..DisplayLimit] + Ellipsis else content
  }

  /** The shown content never exceeds 103 characters and always starts with as much of the content
      as fits. */
  lemma DisplayBounded(content: string)
    ensures |Display(content)| <= DisplayLimit + |Ellipsis|
    ensures var kept := if |content| <= DisplayLimit then |content| else DisplayLimit;
      kept <= |Display(content)| && Display(content)[..kept] == content[..kept]
  {
  }

  /** Line `i` (counting from 0) of the state dump: the 1-based number, the role in capitals and the
      shown content. */
  function StateLine(i: nat, m: Message): string
  {
    IntToString(i + 1) + NumberSeparator + Upper(m.role) + RoleSeparator + Display(m.content)
  }

  /** Numbering is 1-based: line `i` starts with the decimal digits of `i + 1`, which read back as
      that number, followed by ". ". */
  lemma StateLineNumber(i: nat, m: Message)
    ensures var number := IntToString(i + 1);
      && StartsWith(StateLine(i, m), number + NumberSeparator)
      && ParseInt(StateLine(i, m)[..|number|]) == Some(i + 1)
  {
    var number := IntToString(i + 1);
    var rest := Upper(m.role) + RoleSeparator + Display(m.content);
    assert StateLine(i, m) == (number + NumberSeparator) + rest;
    StartsWithAppend(number + NumberSeparator, rest);
    assert StateLine(i, m)[..|number|] == number;
    ParseIntOfIntToString(i + 1);
  }

  /** `ConversationManager`: the chosen client and the conversation so far. */
  class ConversationManager {
    var config: ClientConfig
    var history: seq<Message>

    /** `__init__`: the client from OLLAMA_BASE_URL and OLLAMA_API_KEY (their values are parameters
        here), then an empty history. */
    constructor (ollamaBaseUrl: Option<string>, ollamaApiKey: Option<string>)
      ensures config == SelectClient(ollamaBaseUrl, ollamaApiKey)
      ensures history == []
    {
      config := OpenAIDefault;
      history := [];
      new;
      SetupClient(ollamaBaseUrl, ollamaApiKey);
    }

    /** `setup_client`. */
    method SetupClient(ollamaBaseUrl: Option<string>, ollamaApiKey: Option<string>)
      modifies this
      ensures config == SelectClient(ollamaBaseUrl, ollamaApiKey)
      ensures history == old(history)
    {
      config := SelectClient(ollamaBaseUrl, ollamaApiKey);
    }

    /** `add_user_message`. */
    method AddUserMessage(content: string)
      modifies this
      ensures history == old(history) + [UserMessage(content)]
      ensures config == old(config)
    {
      history := history + [UserMessage(content)];
    }

    /** `add_assistant_message`. */
    method AddAssistantMessage(content: string)
      modifies this
      ensures history == old(history) + [AssistantMessage(content)]
      ensures config == old(config)
    {
      history := history + [AssistantMessage(content)];
    }

    /** `get_llm_response`: the whole history is sent; the reply is recorded and returned, and a
        failure is re-raised with the history untouched. */
    method GetLlmResponse(backend: TextBackend) returns (r: Call<string>)
      modifies this
      ensures r == backend(config.Model(), WireAll(old(history)))
      ensures r.Returned? ==> history == old(history) + [AssistantMessage(r.value)]
      ensures r.Raised? ==> history == old(history)
      ensures config == old(config)
    {
      var response := backend(config.Model(), WireAll(history));
      match response
      case Raised(e) =>
        r := Raised(e);
      case Returned(text) =>
        AddAssistantMessage(text);
        r := Returned(text);
    }

    /** The numbered lines `print_conversation_state` shows, one per message in history order (the
        banner lines around them are output only). */
    method StateLines() returns (lines: seq<string>)
      ensures |lines| == |history|
      ensures forall i :: 0 <= i < |history| ==> lines[i] == StateLine(i, history[i])
    {
      lines := [];
      for i := 0 to |history|
        invariant |lines| == i
        invariant forall j :: 0 <= j < i ==> lines[j] == StateLine(j, history[j])
      {
        var message := history[i];
        var role := Upper(message.role);
        var content := if |message.content| > DisplayLimit then message.content[..DisplayLimit] + Ellipsis
                       else message.content;
        lines := lines + [IntToString(i + 1) + NumberSeparator + role + RoleSeparator + content];
      }
    }

    /** One step of the demo: the prompt joins the history, then the model's reply does. */
    method Step(prompt: string, backend: TextBackend) returns (r: Call<string>)
      modifies this
      ensures r == backend(config.Model(), WireAll(old(history) + [UserMessage(prompt)]))
      ensures Exchange(AskWith(config, backend), old(history), prompt)
        == (if r.Returned? then Returned(history) else Raised(r.error))
      ensures r.Raised? ==> history == old(history) + [UserMessage(prompt)]
      ensures config == old(config)
    {
      AddUserMessage(prompt);
      r := GetLlmResponse(backend);
    }
  }

  /** `demonstrate_conversation_flow`: three prompts on one manager, each answer remembered before the
      next prompt; the first failure escapes. On success the manager's history is the transcript of
      the three prompts, and the three answers are its assistant entries. */
  method DemonstrateConversationFlow(ollamaBaseUrl: Option<string>, ollamaApiKey: Option<string>,
                                     backend: TextBackend)
    returns (conv: ConversationManager, r: Call<seq<string>>)
    ensures fresh(conv)
    ensures conv.config == SelectClient(ollamaBaseUrl, ollamaApiKey)
    ensures var t := Transcript(AskWith(conv.config, backend), Prompts);
      && (r.Returned? <==> t.Returned?)
      && (r.Raised? ==> r.error == t.error)
      && (r.Returned? ==>
            (conv.history == t.value && |conv.history| == 6 && |r.value| == 3
             && forall i :: 0 <= i < 3 ==> r.value[i] == conv.history[2 * i + 1].content))
  {
    conv := new ConversationManager(ollamaBaseUrl, ollamaApiKey);
    ghost var ask := AskWith(conv.config, backend);
    var answers: seq<string> := [];
    for i := 0 to 3
      invariant conv.config == SelectClient(ollamaBaseUrl, ollamaApiKey)
      invariant Transcript(ask, Prompts[..i]) == Returned(conv.history)
      invariant |answers| == i && |conv.history| == 2 * i
      invariant forall j :: 0 <= j < i ==> answers[j] == conv.history[2 * j + 1].content
    {
      TranscriptStep(ask, Prompts, i);
      ghost var before := conv.history;
      var answer := conv.Step(Prompts[i], backend);
      if answer.Raised? {
        TranscriptFailurePersists(ask, Prompts, i + 1);
        return conv, Raised(answer.error);
      }
      answers := answers + [answer.value];
      assert conv.history == before + [UserMessage(Prompts[i]), AssistantMessage(answer.value)];
    }
    assert Prompts[..3] == Prompts;
    r := Returned(answers);
  }
}
