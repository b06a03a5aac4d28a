/** The three-step conversation both exploration scripts hold with a model: each prompt joins the
    history as a user message, the whole history is sent, and the reply joins it as an assistant
    message before the next prompt. */
module Conversation {
  import opened Wrappers
  import opened Messages

  /** One completion call with the client and model already chosen: the reply's text, or the
      exception the client raised. */
  type Ask = Request -> Call<string>

  /** The three prompts, in the order they are asked (the same text in
      0-chat-history-class.py:100-120 and 1-exercise.py:58-62), opaque literals here. */
  const BusinessAreaPrompt: string
  const PainPointPrompt: string
  const SolutionPrompt: string

  const Prompts: seq<string> := [BusinessAreaPrompt, PainPointPrompt, SolutionPrompt]

  /** User and assistant messages take turns, starting with the user. */
  ghost predicate Alternates(h: seq<Message>)
  {
    forall i :: 0 <= i < |h| ==> h[i].role == (if i % 2 == 0 then UserRole else AssistantRole)
  }

  /** Ask `prompt` after the history `h`: the history with the prompt and the reply, or the failure. */
  function Exchange(ask: Ask, h: seq<Message>, prompt: string): (r: Call<seq<Message>>)
    ensures var sent := h + [UserMessage(prompt)];
      && (ask(WireAll(sent)).Raised? ==> r == Raised(ask(WireAll(sent)).error))
      && (ask(WireAll(sent)).Returned? ==> r == Returned(sent + [AssistantMessage(ask(WireAll(sent)).value)]))
  {
    var sent := h + [UserMessage(prompt)];
    match ask(WireAll(sent))
    case Raised(e) => Raised(e)
    case Returned(reply) => Returned(sent + [AssistantMessage(reply)])
  }

  /** The history after asking all `prompts` in order from an empty history, or the first failure. */
  function Transcript(ask: Ask, prompts: seq<string>): Call<seq<Message>>
  {
    if prompts == [] then Returned([])
    else
      match Transcript(ask, prompts[..|prompts| - 1])
      case Raised(e) => Raised(e)
      case Returned(h) => Exchange(ask, h, prompts[|prompts| - 1])
  }

  /** What a finished transcript is, independently of how it is built: two entries per prompt;
      entry 2i is the i-th prompt as a user message, and entry 2i+1 is an assistant message holding
      the reply to the history up to and including it. */
  ghost predicate Answers(ask: Ask, prompts: seq<string>, h: seq<Message>)
  {
    |h| == 2 * |prompts| && forall i :: 0 <= i < |prompts| ==> AnsweredAt(ask, prompts, h, i)
  }

  ghost predicate AnsweredAt(ask: Ask, prompts: seq<string>, h: seq<Message>, i: nat)
    requires |h| == 2 * |prompts| && i < |prompts|
  {
    && h[2 * i] == UserMessage(prompts[i])
    && h[2 * i + 1].role == AssistantRole
    && ask(WireAll(h[..2 * i + 1])) == Returned(h[2 * i + 1].content)
  }

  /** Answering one more prompt keeps the earlier answers. */
  lemma AnswersExtend(ask: Ask, prompts: seq<string>, h: seq<Message>, prompt: string, reply: string)
    requires Answers(ask, prompts, h)
    requires ask(WireAll(h + [UserMessage(prompt)])) == Returned(reply)
    ensures Answers(ask, prompts + [prompt], h + [UserMessage(prompt), AssistantMessage(reply)])
  {
    var g := h + [UserMessage(prompt), AssistantMessage(reply)];
    var ps := prompts + [prompt];
    forall i | 0 <= i < |ps| ensures AnsweredAt(ask, ps, g, i) {
      if i < |prompts| {
        assert AnsweredAt(ask, prompts, h, i);
        assert g[..2 * i + 1] == h[..2 * i + 1];
      } else {
        assert g[..2 * i + 1] == h + [UserMessage(prompt)];
      }
    }
  }

  /** The answers to the first prompts are a prefix of the answers to all of them. */
  lemma AnswersPrefix(ask: Ask, prompts: seq<string>, h: seq<Message>)
    requires |prompts| > 0 && Answers(ask, prompts, h)
    ensures Answers(ask, prompts[..|prompts| - 1], h[..2 * |prompts| - 2])
  {
    var g := h[..2 * |prompts| - 2];
    var ps := prompts[..|prompts| - 1];
    forall i | 0 <= i < |ps| ensures AnsweredAt(ask, ps, g, i) {
      assert AnsweredAt(ask, prompts, h, i);
      assert g[..2 * i + 1] == h[..2 * i + 1];
    }
  }

  /** A history that answers prompts alternates user and assistant messages. */
  lemma AnswersAlternate(ask: Ask, prompts: seq<string>, h: seq<Message>)
    requires Answers(ask, prompts, h)
    ensures Alternates(h)
  {
    forall j | 0 <= j < |h| ensures h[j].role == (if j % 2 == 0 then UserRole else AssistantRole) {
      var i := j / 2;
      assert AnsweredAt(ask, prompts, h, i);
      assert j == 2 * i || j == 2 * i + 1;
    }
  }

  /** A successful transcript answers every prompt in order. */
  lemma {:induction false} TranscriptAnswers(ask: Ask, prompts: seq<string>)
    requires Transcript(ask, prompts).Returned?
    ensures Answers(ask, prompts, Transcript(ask, prompts).value)
  {
    if prompts != [] {
      var n := |prompts| - 1;
      TranscriptAnswers(ask, prompts[..n]);
      var h := Transcript(ask, prompts[..n]).value;
      var reply := TranscriptLast(ask, prompts);
      AnswersExtend(ask, prompts[..n], h, prompts[n], reply);
      assert prompts[..n] + [prompts[n]] == prompts;
    }
  }

  /** A successful transcript ends with the exchange for its last prompt. */
  lemma TranscriptLast(ask: Ask, prompts: seq<string>) returns (reply: string)
    requires |prompts| > 0 && Transcript(ask, prompts).Returned?
    ensures var n := |prompts| - 1;
      && Transcript(ask, prompts[..n]).Returned?
      && var h := Transcript(ask, prompts[..n]).value;
      && ask(WireAll(h + [UserMessage(prompts[n])])) == Returned(reply)
      && Transcript(ask, prompts).value == h + [UserMessage(prompts[n]), AssistantMessage(reply)]
  {
    var n := |prompts| - 1;
    var h := Transcript(ask, prompts[..n]).value;
    reply := ask(WireAll(h + [UserMessage(prompts[n])])).value;
  }

  /** Only the transcript answers the prompts: a history that does is the transcript, so
      `Answers` determines it completely. */
  lemma {:induction false} AnswersDetermineTranscript(ask: Ask, prompts: seq<string>, h: seq<Message>)
    requires Answers(ask, prompts, h)
    ensures Transcript(ask, prompts) == Returned(h)
  {
    if prompts != [] {
      var n := |prompts| - 1;
      var g := h[..2 * n];
      AnswersPrefix(ask, prompts, h);
      AnswersDetermineTranscript(ask, prompts[..n], g);
      assert AnsweredAt(ask, prompts, h, n);
      assert h[..2 * n + 1] == g + [UserMessage(prompts[n])];
      assert h[2 * n + 1] == AssistantMessage(h[2 * n + 1].content);
      assert h == g + [UserMessage(prompts[n])] + [h[2 * n + 1]];
    }
  }

  /** A failed transcript failed at some prompt: the prompts before it were answered, and asking
      it raised the transcript's exception. */
  lemma {:induction false} TranscriptFailure(ask: Ask, prompts: seq<string>)
    requires Transcript(ask, prompts).Raised?
    ensures exists k :: (0 <= k < |prompts| && Transcript(ask, prompts[..k]).Returned?
      && ask(WireAll(Transcript(ask, prompts[..k]).value + [UserMessage(prompts[k])]))
         == Raised(Transcript(ask, prompts).error))
  {
    var n := |prompts| - 1;
    var front := prompts[..n];
    if Transcript(ask, front).Raised? {
      TranscriptFailure(ask, front);
      var k :| 0 <= k < |front| && Transcript(ask, front[..k]).Returned?
        && ask(WireAll(Transcript(ask, front[..k]).value + [UserMessage(front[k])]))
           == Raised(Transcript(ask, front).error);
      assert front[..k] == prompts[..k];
    }
  }

  /** Asking one more prompt extends a successful transcript by its exchange. */
  lemma TranscriptStep(ask: Ask, prompts: seq<string>, i: nat)
    requires i < |prompts|
    ensures Transcript(ask, prompts[..i + 1]) ==
      match Transcript(ask, prompts[..i])
      case Raised(e) => Raised(e)
      case Returned(h) => Exchange(ask, h, prompts[i])
  {
    assert prompts[..i + 1][..i] == prompts[..i];
  }

  /** Once a prefix of the prompts has failed, asking the remaining ones changes nothing: the
      transcript fails with the same exception. */
  lemma {:induction false} TranscriptFailurePersists(ask: Ask, prompts: seq<string>, k: nat)
    requires k <= |prompts| && Transcript(ask, prompts[..k]).Raised?
    ensures Transcript(ask, prompts) == Transcript(ask, prompts[..k])
    decreases |prompts| - k
  {
    if k < |prompts| {
      TranscriptStep(ask, prompts, k);
      TranscriptFailurePersists(ask, prompts, k + 1);
    } else {
      assert prompts[..k] == prompts;
    }
  }
}
