/** The prompts shared by the two résumé chatbot scripts: the persona system prompt, the rejection
    sections a rerun adds to it, and the evaluator's user prompt built from the conversation. */
module ChatPrompts {
  import opened Wrappers
  import opened Text
  import opened Messages

  /** The persona both scripts play, the chatbot's model and the evaluator's model. */
  const Name: string := "Mark Leager"
  const OpenAIModel: string := "gpt-4o-mini"
  const GeminiModel: string := "gemini-2.0-flash"

  /** The evaluator's structured answer. */
  datatype Evaluation = Evaluation(isAcceptable: bool, feedback: string)

  /** `chat.completions.parse(model=..., messages=..., response_format=Evaluation)`: the parsed
      evaluation (None when the model's output did not parse), or the exception the client raised. */
  type EvaluatorBackend = (string, Request) -> Call<Option<Evaluation>>

  /** `responses.create(model=..., input=...)`: the reply's `output_text`, or the exception the client
      raised. */
  type ChatBackend = (string, Request) -> Call<string>

  /** The evaluation that stands in when the evaluator's answer did not parse. */
  const NoEvaluationFeedback: string := "No evaluation provided"

  /** The persona paragraph. Each line of the source literal ends with a backslash, so the line break
      disappears and the next line's leading white space (`indent`) stays inside the string. */
  function Persona(name: string, indent: string): string
  {
    PersonaOpening + name + PersonaWebsite + name + PersonaWebsiteEnd
    + indent + PersonaCareer + name + PersonaCareerEnd
    + indent + PersonaRepresent + name + PersonaRepresentEnd
    + indent + PersonaGiven + name + PersonaGivenEnd
    + indent + PersonaEngaging
    + indent + PersonaUnknown
  }

  const PersonaOpening: string
  const PersonaWebsite: string
  const PersonaWebsiteEnd: string
  const PersonaCareer: string
  const PersonaCareerEnd: string
  const PersonaRepresent: string
  const PersonaRepresentEnd: string
  const PersonaGiven: string
  const PersonaGivenEnd: string
  const PersonaEngaging: string
  const PersonaUnknown: string

  const SummaryHeading: string
  const ProfileHeading: string
  const ParagraphBreak: string := "\n\n"
  const FullStop: string := "."
  const StayInCharacter: string

  /** `r` is `head`, the summary, `middle`, the résumé and `tail`, each starting where the one
      before it ends. */
  predicate MaterialAt(r: string, head: string, summary: string, middle: string, resume: string, tail: string)
  {
    var m := |head| + |summary|;
    var res := m + |middle|;
    var t := res + |resume|;
    && t + |tail| == |r|
    && r[..|head|] == head
    && r[|head|..m] == summary
    && r[m..res] == middle
    && r[res..t] == resume
    && r[t..] == tail
  }

  lemma MaterialAtParts(head: string, summary: string, middle: string, resume: string, tail: string)
    ensures MaterialAt(head + summary + middle + resume + tail, head, summary, middle, resume, tail)
  {
    var r := head + summary + middle + resume + tail;
    var m := |head| + |summary|;
    var res := m + |middle|;
    var t := res + |resume|;
    assert r[..|head|] == head;
    assert r[|head|..m] == summary;
    assert r[m..res] == middle;
    assert r[res..t] == resume;
    assert r[t..] == tail;
  }

  /** Two texts laid out around the same fixed parts, with summaries of one length, are equal
      exactly when their summaries and résumés are. */
  lemma MaterialAtDetermines(r1: string, r2: string, head: string, summary1: string, summary2: string,
                             middle: string, resume1: string, resume2: string, tail: string)
    requires MaterialAt(r1, head, summary1, middle, resume1, tail)
    requires MaterialAt(r2, head, summary2, middle, resume2, tail)
    requires |summary1| == |summary2|
    ensures r1 == r2 <==> summary1 == summary2 && resume1 == resume2
  {
    if summary1 == summary2 && resume1 == resume2 {
      MaterialAtParts(head, summary1, middle, resume1, tail);
      assert r1 == head + summary1 + middle + resume1 + tail by {
        assert forall i :: 0 <= i < |r1| ==> r1[i] == (head + summary1 + middle + resume1 + tail)[i] by {
          forall i | 0 <= i < |r1|
            ensures r1[i] == (head + summary1 + middle + resume1 + tail)[i]
          {
            var m := |head| + |summary1|;
            var res := m + |middle|;
            var t := res + |resume1|;
            if i < |head| {
              assert r1[i] == r1[..|head|][i];
            } else if i < m {
              assert r1[i] == r1[|head|..m][i - |head|];
            } else if i < res {
              assert r1[i] == r1[m..res][i - m];
            } else if i < t {
              assert r1[i] == r1[res..t][i - res];
            } else {
              assert r1[i] == r1[t..][i - t];
            }
          }
        }
      }
    }
  }

  /** `"".join` of fixed parts around the summary, a middle part and the résumé lays them out in that
      order. */
  lemma ConcatMaterialAt(head: seq<string>, summary: string, middle: string, resume: string, tail: seq<string>)
    ensures MaterialAt(Concat(head + [summary, middle, resume] + tail), Concat(head), summary, middle, resume, Concat(tail))
  {
    var material := [summary, middle, resume];
    ConcatAppend(head + material, tail);
    ConcatAppend(head, material);
    ConcatThree(summary, middle, resume);
    var r := Concat(head) + (summary + middle + resume) + Concat(tail);
    assert Concat(head + material + tail) == r;
    assert r == Concat(head) + summary + middle + resume + Concat(tail);
    MaterialAtParts(Concat(head), summary, middle, resume, Concat(tail));
  }

  lemma ConcatThree(a: string, b: string, c: string)
    ensures Concat([a, b, c]) == a + b + c
  {
    assert [a, b, c][..2] == [a, b] && [a, b][..1] == [a] && [a][..0] == [];
    assert Concat([a]) == a;
    assert Concat([a, b]) == a + b;
  }

  /** The chatbot's system prompt: the persona, the summary, the résumé, then the instruction to
      stay in character. */
  function ChatbotSystemPrompt(name: string, resume: string, summary: string, indent: string): (r: string)
    ensures StartsWith(r, Persona(name, indent))
    ensures MaterialAt(r, Persona(name, indent) + SummaryHeading, summary, ProfileHeading, resume,
                       ParagraphBreak + StayInCharacter + name + FullStop)
  {
    var head := Persona(name, indent) + SummaryHeading;
    var tail := ParagraphBreak + StayInCharacter + name + FullStop;
    var r := Persona(name, indent) + SummaryHeading + summary + ProfileHeading + resume + ParagraphBreak + StayInCharacter + name + FullStop;
    assert r == head + summary + ProfileHeading + resume + tail;
    MaterialAtParts(head, summary, ProfileHeading, resume, tail);
    assert r[..|Persona(name, indent)|] == Persona(name, indent);
    r
  }

  /** The same persona, indentation and summary length: the system prompt tells the material apart,
      so a chatbot's prompt changes exactly when its summary or résumé does. */
  lemma SystemPromptDeterminesMaterial(name: string, indent: string, resume1: string, summary1: string,
                                       resume2: string, summary2: string)
    requires |summary1| == |summary2|
    ensures ChatbotSystemPrompt(name, resume1, summary1, indent) == ChatbotSystemPrompt(name, resume2, summary2, indent)
        <==> resume1 == resume2 && summary1 == summary2
  {
    var head := Persona(name, indent) + SummaryHeading;
    var tail := ParagraphBreak + StayInCharacter + name + FullStop;
    MaterialAtDetermines(ChatbotSystemPrompt(name, resume1, summary1, indent), ChatbotSystemPrompt(name, resume2, summary2, indent),
                         head, summary1, summary2, ProfileHeading, resume1, resume2, tail);
  }

  const RejectedHeading: string
  const AttemptHeading: string
  const ReasonHeading: string

  /** What a rerun appends to the system prompt: the rejected reply, then the evaluator's feedback. */
  function RejectionSections(reply: string, feedback: string): string
  {
    RejectedHeading + AttemptHeading + reply + ParagraphBreak + ReasonHeading + feedback + ParagraphBreak
  }

  /** `[{"role": "system", "content": system}] + history + [{"role": "user", "content": message}]`. */
  function FramedRequest(system: string, history: Request, message: string): (r: Request)
    ensures |r| == |history| + 2
    ensures r[0] == Wire(SystemMessage(system))
    ensures r[1..|r| - 1] == history
    ensures r[|r| - 1] == Wire(UserMessage(message))
  {
    var r := [Wire(SystemMessage(system))] + history + [Wire(UserMessage(message))];
    assert r[1..|r| - 1] == history;
    r
  }

  const UserLabel: string := "User"
  const AgentLabel: string := "Agent"

  /** "User" for a user message, "Agent" for every other role. */
  function RoleLabel(role: string): (shown: string)
    ensures shown == UserLabel <==> role == UserRole
    ensures shown == AgentLabel <==> role != UserRole
  {
    if role == UserRole then UserLabel else AgentLabel
  }

  /** `f"{role}: {msg['content']}"` for one message. */
  function Turn(m: Message): string
  {
    RoleLabel(m.role) + ": " + m.content
  }

  /** The conversation as the evaluator reads it: the turns one after another, as the loop
      accumulates them. */
  function HistoryText(h: seq<Message>): string
  {
    if h == [] then "" else HistoryText(h[..|h| - 1]) + Turn(h[|h| - 1])
  }

  /** The turns are concatenated in history order with no separator between them. */
  lemma {:induction false} HistoryTextTurns(h: seq<Message>)
    ensures HistoryText(h) == Concat(seq(|h|, i requires 0 <= i < |h| => Turn(h[i])))
  {
    var turns := seq(|h|, i requires 0 <= i < |h| => Turn(h[i]));
    if h != [] {
      var front := h[..|h| - 1];
      HistoryTextTurns(front);
      assert turns[..|turns| - 1] == seq(|front|, i requires 0 <= i < |front| => Turn(front[i]));
    }
  }

  /** The text of a longer conversation extends the text of its beginning. */
  lemma {:induction false} HistoryTextAppend(a: seq<Message>, b: seq<Message>)
    ensures HistoryText(a + b) == HistoryText(a) + HistoryText(b)
  {
    if b == [] {
      assert a + b == a;
    } else {
      var n := |b| - 1;
      HistoryTextLast(a, b);
      HistoryTextAppend(a, b[..n]);
      AppendAssociative(HistoryText(a), HistoryText(b[..n]), Turn(b[n]));
    }
  }

  lemma HistoryTextLast(a: seq<Message>, b: seq<Message>)
    requires b != []
    ensures HistoryText(a + b) == HistoryText(a + b[..|b| - 1]) + Turn(b[|b| - 1])
  {
    assert (a + b)[..|a + b| - 1] == a + b[..|b| - 1];
  }

  const ConversationHeading: string
  const MessageHeading: string
  const ReplyHeading: string
  const ClosingInstruction: string

  /** The evaluator's user prompt: the conversation, the latest user message, the latest reply and the
      closing instruction, in that order. */
  function UserPrompt(message: string, reply: string, history: seq<Message>): string
  {
    ConversationHeading + HistoryText(history) + ParagraphBreak
    + MessageHeading + message + ParagraphBreak
    + ReplyHeading + reply + ParagraphBreak
    + ClosingInstruction
  }

  lemma HistoryTextStep(h: seq<Message>, i: nat)
    requires i < |h|
    ensures HistoryText(h[..i + 1]) == HistoryText(h[..i]) + Turn(h[i])
  {
    assert h[..i + 1][..i] == h[..i];
  }

  /** `evaluator_user_prompt`: accumulates the turns in a loop, then adds the four sections. */
  method EvaluatorUserPrompt(message: string, reply: string, history: seq<Message>) returns (prompt: string)
    ensures prompt == UserPrompt(message, reply, history)
  {
    var historyText := "";
    var i := 0;
    while i < |history|
      invariant 0 <= i <= |history|
      invariant historyText == HistoryText(history[..i])
    {
      var role := if history[i].role == UserRole then UserLabel else AgentLabel;
      HistoryTextStep(history, i);
      historyText := historyText + (role + ": " + history[i].content);
      i := i + 1;
    }
    assert history[..i] == history;
    prompt := ConversationHeading + historyText + ParagraphBreak;
    prompt := prompt + (MessageHeading + message + ParagraphBreak);
    prompt := prompt + (ReplyHeading + reply + ParagraphBreak);
    prompt := prompt + ClosingInstruction;
  }
}
