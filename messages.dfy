/** Role-tagged chat messages, the dictionaries they travel as, and the client selection shared by
    the conversation scripts. */
module Messages {
  import opened Wrappers

  const UserRole: string := "user"
  const AssistantRole: string := "assistant"
  const SystemRole: string := "system"

  const RoleKey: string := "role"
  const ContentKey: string := "content"

  /** A `{"role": ..., "content": ...}` message as the scripts build it themselves. */
  datatype Message = Message(role: string, content: string)

  function UserMessage(content: string): Message { Message(UserRole, content) }
  function AssistantMessage(content: string): Message { Message(AssistantRole, content) }
  function SystemMessage(content: string): Message { Message(SystemRole, content) }

  /** A message dictionary as it is handed over to a completion endpoint or received from a chat UI;
      it may carry keys besides "role" and "content", or lack them. */
  type Entry = map<string, string>

  /** The message list of one completion request. */
  type Request = seq<Entry>

  function Wire(m: Message): (e: Entry)
    ensures e.Keys == {RoleKey, ContentKey}
    ensures e[RoleKey] == m.role && e[ContentKey] == m.content
  {
    map[RoleKey := m.role, ContentKey := m.content]
  }

  function WireAll(ms: seq<Message>): (r: Request)
    ensures |r| == |ms| && forall i :: 0 <= i < |ms| ==> r[i] == Wire(ms[i])
  {
    seq(|ms|, i requires 0 <= i < |ms| => Wire(ms[i]))
  }

  predicate HasFields(e: Entry)
  {
    RoleKey in e && ContentKey in e
  }

  /** The KeyError that reading `h["role"]`, then `h["content"]`, raises on an entry lacking one. */
  function MissingField(e: Entry): PyException
  {
    if RoleKey !in e then KeyError(RoleKey) else KeyError(ContentKey)
  }

  /** `[{"role": h["role"], "content": h["content"]} for h in history]`: every entry reduced to its
      role and content, or the KeyError raised at the first entry that lacks one of them. */
  function Normalise(history: seq<Entry>): (r: Result<seq<Message>, PyException>)
    ensures r.Success? <==> forall i :: 0 <= i < |history| ==> HasFields(history[i])
    ensures r.Success? ==> |r.value| == |history| && forall i :: 0 <= i < |history| ==>
      r.value[i] == Message(history[i][RoleKey], history[i][ContentKey])
    ensures r.Failure? ==> exists i :: (0 <= i < |history| && !HasFields(history[i])
      && (forall j :: 0 <= j < i ==> HasFields(history[j])) && r.error == MissingField(history[i]))
  {
    if history == [] then Success([])
    else
      var h := history[0];
      if !HasFields(h) then Failure(MissingField(h))
      else
        match Normalise(history[1..])
        case Success(rest) => Success([Message(h[RoleKey], h[ContentKey])] + rest)
        case Failure(e) =>
          ghost var k :| 0 <= k < |history[1..]| && !HasFields(history[1..][k])
            && (forall j :: 0 <= j < k ==> HasFields(history[1..][j])) && e == MissingField(history[1..][k]);
          assert !HasFields(history[k + 1]) && forall j :: 0 <= j < k + 1 ==> HasFields(history[j]);
          Failure(e)
  }

  /** Normalising a list that is already made of role/content dictionaries gives back its messages. */
  lemma NormaliseWired(ms: seq<Message>)
    ensures Normalise(WireAll(ms)) == Success(ms)
  {
    var r := Normalise(WireAll(ms));
    assert r.Success?;
    assert r.value == ms;
  }

  /** The normalised dictionaries keep exactly the keys "role" and "content" of each entry. */
  lemma NormalisedEntries(history: seq<Entry>)
    requires Normalise(history).Success?
    ensures var out := WireAll(Normalise(history).value);
      |out| == |history| && forall i :: 0 <= i < |history| ==>
        out[i].Keys == {RoleKey, ContentKey} && out[i].Keys <= history[i].Keys
        && forall k :: k in out[i] ==> out[i][k] == history[i][k]
  {
  }

  /** `chat.completions.create(model=..., messages=...)`: the first choice's content (None when the
      model sent none), or the exception the client raised. */
  type CompletionBackend = (string, Request) -> Call<Option<string>>

  /** `content or ""`: a missing or empty content both read as "". */
  function ContentOrEmpty(content: Option<string>): (text: string)
    ensures content.Some? && content.value != "" ==> text == content.value
    ensures content.None? || content.value == "" ==> text == ""
  {
    if content.Some? then content.value else ""
  }

  /** One model's answer, as gathered for the judge. */
  datatype LLMResult = LLMResult(model: string, answer: string)

  /** Python truthiness of an optional environment value: set and non-empty. */
  predicate Truthy(v: Option<string>)
  {
    v.Some? && v.value != ""
  }

  /** The client a script talks to: a local Ollama server, or OpenAI with its default settings. */
  datatype ClientConfig = Ollama(baseUrl: string, apiKey: string) | OpenAIDefault
  {
    function Model(): string
    {
      if Ollama? then "gemma3:12b" else "gpt-3.5-turbo"
    }
  }

  /** `setup_client`: Ollama exactly when both OLLAMA_BASE_URL and OLLAMA_API_KEY are set and
      non-empty, otherwise OpenAI's default client with "gpt-3.5-turbo". */
  function SelectClient(ollamaBaseUrl: Option<string>, ollamaApiKey: Option<string>): (c: ClientConfig)
    ensures c.Ollama? <==> Truthy(ollamaBaseUrl) && Truthy(ollamaApiKey)
    ensures c.Ollama? ==> c.baseUrl == ollamaBaseUrl.value && c.apiKey == ollamaApiKey.value
    ensures c.Model() == "gemma3:12b" <==> Truthy(ollamaBaseUrl) && Truthy(ollamaApiKey)
    ensures c.Model() == "gpt-3.5-turbo" <==> !(Truthy(ollamaBaseUrl) && Truthy(ollamaApiKey))
  {
    if Truthy(ollamaBaseUrl) && Truthy(ollamaApiKey) then Ollama(ollamaBaseUrl.value, ollamaApiKey.value)
    else OpenAIDefault
  }
}
