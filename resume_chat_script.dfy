/** The script version of the résumé chatbot. Its functions work on module-level prompts and let
    every exception escape: there is no containment around the evaluator or the rerun. */
module ResumeChatScript {
  import opened Wrappers
  import opened Text
  import opened Messages
  import opened ChatPrompts

  /** The persona's continuation lines start in the first column (3-lab.py:28-32). */
  const NoIndent: string := ""

  /** The fixed text of `EVAL_SYSTEM_PROMPT` (3-lab.py:38-61) around its eight replacement fields,
      opaque literals here. */
  const EvalText0: string
  const EvalText1: string
  const EvalText2: string
  const EvalText3: string
  const EvalText4: string
  const EvalText5: string
  const EvalText6: string
  const EvalText7: string
  const EvalText8: string

  /** The script's module-level state: the résumé and summary files it reads at import (their
      contents are parameters here), from which both system prompts are built. */
  datatype Script = Script(resume: string, summary: string)
  {
    /** `SYSTEM_PROMPT`. */
    function SystemPrompt(): (r: string)
      ensures StartsWith(r, Persona(Name, NoIndent))
      ensures MaterialAt(r, Persona(Name, NoIndent) + SummaryHeading, summary, ProfileHeading, resume,
                         ParagraphBreak + StayInCharacter + Name + FullStop)
    {
      ChatbotSystemPrompt(Name, resume, summary, NoIndent)
    }

    /** `EVAL_SYSTEM_PROMPT`. */
    function EvalSystemPrompt(): (r: string)
      ensures MaterialAt(r, Concat([EvalText0, Name, EvalText1, Name, EvalText2, Name, EvalText3, Name, EvalText4]),
                         summary, EvalText5, resume, Concat([EvalText6, Name, EvalText7, Name, EvalText8]))
    {
      var head := [EvalText0, Name, EvalText1, Name, EvalText2, Name, EvalText3, Name, EvalText4];
      var tail := [EvalText6, Name, EvalText7, Name, EvalText8];
      ConcatMaterialAt(head, summary, EvalText5, resume, tail);
      Concat(head + [summary, EvalText5, resume] + tail)
    }

    /** The two messages sent to the evaluator: its system prompt, then the user prompt. */
    function EvaluationRequest(message: string, reply: string, history: seq<Message>): (r: Request)
      ensures |r| == 2
      ensures r[0] == Wire(SystemMessage(EvalSystemPrompt()))
      ensures r[1] == Wire(UserMessage(UserPrompt(message, reply, history)))
    {
      WireAll([SystemMessage(EvalSystemPrompt()), UserMessage(UserPrompt(message, reply, history))])
    }

    /** `evaluate`: the history is reduced to role and content (a malformed entry raises KeyError),
        the evaluator's failure propagates, and only a missing parse is replaced by a rejection. */
    function Evaluate(backend: EvaluatorBackend, message: string, reply: string, history: seq<Entry>): (r: Call<Evaluation>)
      ensures Normalise(history).Failure? ==> r == Raised(Normalise(history).error)
      ensures Normalise(history).Success? ==>
        var answer := backend(GeminiModel, EvaluationRequest(message, reply, Normalise(history).value));
        && (answer.Raised? ==> r == Raised(answer.error))
        && (answer == Returned(None) ==> r == Returned(Evaluation(false, NoEvaluationFeedback)))
        && (answer.Returned? && answer.value.Some? ==> r == Returned(answer.value.value))
    {
      match Normalise(history)
      case Failure(err) => Raised(err)
      case Success(h) =>
        match backend(GeminiModel, EvaluationRequest(message, reply, h))
        case Raised(err) => Raised(err)
        case Returned(parsed) =>
          Returned(if parsed.Some? then parsed.value else Evaluation(false, NoEvaluationFeedback))
    }

    /** The request of a rerun: `SYSTEM_PROMPT` extended with the rejected reply and the feedback,
        then the history as given, then the user's message. */
    function RerunRequest(message: string, reply: string, history: Request, feedback: string): (r: Request)
      ensures |r| == |history| + 2
      ensures r[0] == Wire(SystemMessage(SystemPrompt() + RejectionSections(reply, feedback)))
      ensures r[1..|r| - 1] == history
      ensures r[|r| - 1] == Wire(UserMessage(message))
    {
      FramedRequest(SystemPrompt() + RejectionSections(reply, feedback), history, message)
    }

    /** The first request of a chat turn: `SYSTEM_PROMPT`, the history exactly as the chat UI passed
        it, the message. */
    function ChatRequest(message: string, history: Request): (r: Request)
      ensures |r| == |history| + 2
      ensures r[0] == Wire(SystemMessage(SystemPrompt()))
      ensures r[1..|r| - 1] == history
      ensures r[|r| - 1] == Wire(UserMessage(message))
    {
      FramedRequest(SystemPrompt(), history, message)
    }

    /** `chat`: ask the chatbot, have the reply evaluated, return it when acceptable and otherwise
        the result of one rerun; a failure of any of the three calls, or a malformed history entry
        met by the evaluator, escapes. */
    function Chat(backend: ChatBackend, evaluatorBackend: EvaluatorBackend, message: string, history: Request): (r: Call<string>)
      ensures backend(OpenAIModel, ChatRequest(message, history)).Raised? ==> r == Raised(backend(OpenAIModel, ChatRequest(message, history)).error)
      ensures backend(OpenAIModel, ChatRequest(message, history)).Returned? ==>
        var reply := backend(OpenAIModel, ChatRequest(message, history)).value;
        match Evaluate(evaluatorBackend, message, reply, history)
        case Raised(err) => r == Raised(err)
        case Returned(evaluation) =>
          if evaluation.isAcceptable then r == Returned(reply)
          else r == backend(OpenAIModel, RerunRequest(message, reply, history, evaluation.feedback))
    {
      match backend(OpenAIModel, ChatRequest(message, history))
      case Raised(err) => Raised(err)
      case Returned(reply) =>
        match Evaluate(evaluatorBackend, message, reply, history)
        case Raised(err) => Raised(err)
        case Returned(evaluation) =>
          if evaluation.isAcceptable then Returned(reply)
          else backend(OpenAIModel, RerunRequest(message, reply, history, evaluation.feedback))
    }

    /** The chatbot sees the history the UI passed, extra keys and all, while the evaluator sees its
        normalised copy: as soon as one entry carries a key besides "role" and "content", the two
        requests hold different histories. */
    lemma ChatSendsRawHistory(message: string, history: Request, i: nat)
      requires Normalise(history).Success?
      requires i < |history| && history[i].Keys != {RoleKey, ContentKey}
      ensures ChatRequest(message, history)[i + 1] == history[i]
      ensures ChatRequest(message, history)[i + 1] != WireAll(Normalise(history).value)[i]
    {
      var r := ChatRequest(message, history);
      assert r[1..|r| - 1][i] == r[i + 1];
    }
  }

  /** `EVAL_SYSTEM_PROMPT` tells the files apart: for summaries of one length, two scripts'
      evaluator prompts agree exactly when their summaries and résumés do. */
  lemma EvalPromptDeterminesMaterial(s1: Script, s2: Script)
    requires |s1.summary| == |s2.summary|
    ensures s1.EvalSystemPrompt() == s2.EvalSystemPrompt() <==> s1.summary == s2.summary && s1.resume == s2.resume
  {
    MaterialAtDetermines(s1.EvalSystemPrompt(), s2.EvalSystemPrompt(),
                         Concat([EvalText0, Name, EvalText1, Name, EvalText2, Name, EvalText3, Name, EvalText4]),
                         s1.summary, s2.summary, EvalText5, s1.resume, s2.resume,
                         Concat([EvalText6, Name, EvalText7, Name, EvalText8]));
  }
}
