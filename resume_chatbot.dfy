/** The class-based résumé chatbot: a chatbot answers as the persona, an evaluator model judges
    the reply, and a rejected reply is regenerated once with the evaluator's feedback. Both model
    calls are contained: the evaluator and the rerun turn failures into values. */
module ResumeChatbot {
  import opened Wrappers
  import opened Text
  import opened Messages
  import opened ChatPrompts

  /** The leading white space of the persona's continuation lines (3-lab-classes.py:150-154). */
  const PersonaIndent: string := "    "

  const RerunFailure: string := "Error: Unable to rerun chat"

  /** The fixed text of `evaluator_system_prompt` (3-lab-classes.py:92-115) around its eight
      replacement fields, opaque literals here. */
  const EvalText0: string
  const EvalText1: string
  const EvalText2: string
  const EvalText3: string
  const EvalText4: string
  const EvalText5: string
  const EvalText6: string
  const EvalText7: string
  const EvalText8: string

  /** `EvaluatorModel`, judging replies about the persona `name`. Its `resume` and `summary` are the
      module globals RESUME and SUMMARY that `evaluate` reads, not the chatbot's own material. */
  datatype EvaluatorModel = EvaluatorModel(model: string, name: string, resume: string, summary: string)
  {
    /** `evaluator_system_prompt(NAME, RESUME, SUMMARY)`. */
    function SystemPrompt(): (r: string)
      ensures MaterialAt(r, Concat([EvalText0, name, EvalText1, name, EvalText2, name, EvalText3, name, EvalText4]),
                         summary, EvalText5, resume, Concat([EvalText6, name, EvalText7, name, EvalText8]))
    {
      var head := [EvalText0, name, EvalText1, name, EvalText2, name, EvalText3, name, EvalText4];
      var tail := [EvalText6, name, EvalText7, name, EvalText8];
      ConcatMaterialAt(head, summary, EvalText5, resume, tail);
      Concat(head + [summary, EvalText5, resume] + tail)
    }

    /** The two messages sent to the evaluator: its system prompt, then the user prompt. */
    function EvaluationRequest(message: string, reply: string, history: seq<Message>): (r: Request)
      ensures |r| == 2
      ensures r[0] == Wire(SystemMessage(SystemPrompt()))
      ensures r[1] == Wire(UserMessage(UserPrompt(message, reply, history)))
    {
      WireAll([SystemMessage(SystemPrompt()), UserMessage(UserPrompt(message, reply, history))])
    }

    /** `evaluate`: the history is reduced to role and content; the evaluator's parsed answer is
        returned, "No evaluation provided" stands in for a missing one, and any exception (a history
        entry without "role" or "content", or a failed call) becomes a rejection whose feedback is
        `"Error: " + str(e)`. */
    function Evaluate(backend: EvaluatorBackend, message: string, reply: string, history: seq<Entry>): (e: Evaluation)
      ensures Normalise(history).Failure? ==>
        e == Evaluation(false, ErrorPrefix + Describe(Normalise(history).error))
      ensures Normalise(history).Success? ==>
        var answer := backend(model, EvaluationRequest(message, reply, Normalise(history).value));
        && (answer.Raised? ==> e == Evaluation(false, ErrorPrefix + Describe(answer.error)))
        && (answer == Returned(None) ==> e == Evaluation(false, NoEvaluationFeedback))
        && (answer.Returned? && answer.value.Some? ==> e == answer.value.value)
      ensures e.isAcceptable ==>
        (Normalise(history).Success?
         && backend(model, EvaluationRequest(message, reply, Normalise(history).value)) == Returned(Some(e)))
    {
      match Normalise(history)
      case Failure(err) => Evaluation(false, ErrorPrefix + Describe(err))
      case Success(h) =>
        match backend(model, EvaluationRequest(message, reply, h))
        case Raised(err) => Evaluation(false, ErrorPrefix + Describe(err))
        case Returned(parsed) =>
          if parsed.Some? then parsed.value else Evaluation(false, NoEvaluationFeedback)
    }
  }

  /** `Chatbot`, answering as `name` from its own résumé and summary. */
  datatype Chatbot = Chatbot(name: string, resume: string, summary: string, model: string, evaluator: EvaluatorModel)
  {
    /** `chatbot_system_prompt(NAME, self.resume, self.summary)`; the persona lines are indented by
        four spaces in the source, and the indentation stays in the text. */
    function SystemPrompt(): string
    {
      ChatbotSystemPrompt(name, resume, summary, PersonaIndent)
    }

    /** The request of a rerun: the system prompt extended with the rejected reply and the feedback,
        then the history, then the user's message. */
    function RerunRequest(message: string, reply: string, history: seq<Message>, feedback: string): (r: Request)
      ensures |r| == |history| + 2
      ensures r[0] == Wire(SystemMessage(SystemPrompt() + RejectionSections(reply, feedback)))
      ensures r[1..|r| - 1] == WireAll(history)
      ensures r[|r| - 1] == Wire(UserMessage(message))
    {
      FramedRequest(SystemPrompt() + RejectionSections(reply, feedback), WireAll(history), message)
    }

    /** `rerun`: the regenerated reply, or "Error: Unable to rerun chat" when the call raises. */
    function Rerun(backend: ChatBackend, message: string, reply: string, history: seq<Message>, feedback: string): (r: string)
      ensures backend(model, RerunRequest(message, reply, history, feedback)).Returned? ==>
        r == backend(model, RerunRequest(message, reply, history, feedback)).value
      ensures backend(model, RerunRequest(message, reply, history, feedback)).Raised? ==> r == RerunFailure
    {
      match backend(model, RerunRequest(message, reply, history, feedback))
      case Returned(text) => text
      case Raised(_) => RerunFailure
    }

    /** The first request of a chat turn: the system prompt, the normalised history, the message. */
    function ChatRequest(message: string, history: seq<Message>): (r: Request)
      ensures |r| == |history| + 2
      ensures r[0] == Wire(SystemMessage(SystemPrompt()))
      ensures r[1..|r| - 1] == WireAll(history)
      ensures r[|r| - 1] == Wire(UserMessage(message))
    {
      FramedRequest(SystemPrompt(), WireAll(history), message)
    }

    /** `chat`: normalise the history (a malformed entry raises KeyError out of `chat`), ask the
        chatbot (a failed call raises out of `chat`), have the reply evaluated, and return it when it
        is acceptable; otherwise return the result of one rerun with the evaluator's feedback. */
    function Chat(backend: ChatBackend, evaluatorBackend: EvaluatorBackend, message: string, history: seq<Entry>): (r: Call<string>)
      ensures Normalise(history).Failure? ==> r == Raised(Normalise(history).error)
      ensures Normalise(history).Success? ==>
        var h := Normalise(history).value;
        var first := backend(model, ChatRequest(message, h));
        && (first.Raised? ==> r == Raised(first.error))
        && (first.Returned? && evaluator.Evaluate(evaluatorBackend, message, first.value, WireAll(h)).isAcceptable ==>
              r == Returned(first.value))
        && (first.Returned? && !evaluator.Evaluate(evaluatorBackend, message, first.value, WireAll(h)).isAcceptable ==>
              r == Returned(Rerun(backend, message, first.value, h,
                                  evaluator.Evaluate(evaluatorBackend, message, first.value, WireAll(h)).feedback)))
    {
      match Normalise(history)
      case Failure(err) => Raised(err)
      case Success(h) =>
        match backend(model, ChatRequest(message, h))
        case Raised(err) => Raised(err)
        case Returned(reply) =>
          var evaluation := evaluator.Evaluate(evaluatorBackend, message, reply, WireAll(h));
          if evaluation.isAcceptable then Returned(reply)
          else Returned(Rerun(backend, message, reply, h, evaluation.feedback))
    }

    /** Inside `chat` the evaluator receives an already normalised history, so its own
        normalisation never fails there: it sends the chat's history unchanged, and a rejection
        comes from the evaluator's answer or from a failed evaluator call. */
    lemma ChatEvaluationRequest(evaluatorBackend: EvaluatorBackend, message: string, reply: string, h: seq<Message>)
      ensures var e := evaluator.Evaluate(evaluatorBackend, message, reply, WireAll(h));
        var answer := evaluatorBackend(evaluator.model, evaluator.EvaluationRequest(message, reply, h));
        && (answer.Returned? && answer.value.Some? ==> e == answer.value.value)
        && (answer == Returned(None) ==> e == Evaluation(false, NoEvaluationFeedback))
        && (answer.Raised? ==> e == Evaluation(false, ErrorPrefix + Describe(answer.error)))
    {
      NormaliseWired(h);
    }

    /** Once the history is well formed and the first call returns, `chat` does not raise: the reply
        comes back unchanged when it is accepted, and otherwise exactly one rerun decides the answer,
        an error text included. */
    lemma ChatAnswers(backend: ChatBackend, evaluatorBackend: EvaluatorBackend, message: string, history: seq<Entry>)
      requires Normalise(history).Success?
      requires backend(model, ChatRequest(message, Normalise(history).value)).Returned?
      ensures var h := Normalise(history).value;
        var reply := backend(model, ChatRequest(message, h)).value;
        var r := Chat(backend, evaluatorBackend, message, history);
        && r.Returned?
        && (r.value == reply || r.value == RerunFailure
            || backend(model, RerunRequest(message, reply, h,
                 evaluator.Evaluate(evaluatorBackend, message, reply, WireAll(h)).feedback)) == Returned(r.value))
        && (r.value != reply ==>
              !evaluator.Evaluate(evaluatorBackend, message, reply, WireAll(h)).isAcceptable)
    {
    }
  }

  /** `Chatbot(resume=RESUME, summary=SUMMARY)`: the persona "Mark Leager" on "gpt-4o-mini", with the
      résumé and summary it is given (None for an omitted argument, which defaults to the module
      global), and an `EvaluatorModel()` on "gemini-2.0-flash". The evaluator takes no arguments: it
      always reads the globals RESUME and SUMMARY, which `get_resume_material` read at import (their
      file contents are parameters here). */
  function MakeChatbot(globalResume: string, globalSummary: string, resume: Option<string>, summary: Option<string>): (c: Chatbot)
    ensures c.name == Name && c.model == OpenAIModel
    ensures c.resume == (if resume.Some? then resume.value else globalResume)
    ensures c.summary == (if summary.Some? then summary.value else globalSummary)
    ensures c.evaluator == EvaluatorModel(GeminiModel, Name, globalResume, globalSummary)
  {
    var ownResume := if resume.Some? then resume.value else globalResume;
    var ownSummary := if summary.Some? then summary.value else globalSummary;
    Chatbot(Name, ownResume, ownSummary, OpenAIModel, EvaluatorModel(GeminiModel, Name, globalResume, globalSummary))
  }

  /** An evaluator's system prompt tells its material apart: for the same persona and summaries of
      one length, two evaluators' prompts agree exactly when their summaries and résumés do. */
  lemma EvaluatorPromptDeterminesMaterial(e1: EvaluatorModel, e2: EvaluatorModel)
    requires e1.name == e2.name && |e1.summary| == |e2.summary|
    ensures e1.SystemPrompt() == e2.SystemPrompt() <==> e1.summary == e2.summary && e1.resume == e2.resume
  {
    var name := e1.name;
    MaterialAtDetermines(e1.SystemPrompt(), e2.SystemPrompt(),
                         Concat([EvalText0, name, EvalText1, name, EvalText2, name, EvalText3, name, EvalText4]),
                         e1.summary, e2.summary, EvalText5, e1.resume, e2.resume,
                         Concat([EvalText6, name, EvalText7, name, EvalText8]));
  }

  /** The evaluator does not depend on what the chatbot was given: two chatbots built over the same
      globals judge every reply with the same evaluator system prompt, whatever résumé and summary
      each was constructed with. */
  lemma EvaluatorIgnoresArguments(globalResume: string, globalSummary: string,
                                  resume1: Option<string>, summary1: Option<string>,
                                  resume2: Option<string>, summary2: Option<string>)
    ensures MakeChatbot(globalResume, globalSummary, resume1, summary1).evaluator.SystemPrompt()
         == MakeChatbot(globalResume, globalSummary, resume2, summary2).evaluator.SystemPrompt()
    ensures MakeChatbot(globalResume, globalSummary, resume1, summary1).evaluator.SystemPrompt()
         == MakeChatbot(globalResume, globalSummary, None, None).evaluator.SystemPrompt()
  {
  }

  /** The chatbot and its evaluator work from the same résumé exactly when the chatbot got no résumé
      or the global one, and likewise for the summary; `Chatbot()`, as `main` builds it, is such a
      case. */
  lemma ChatbotSharesMaterial(globalResume: string, globalSummary: string, resume: Option<string>, summary: Option<string>)
    ensures var c := MakeChatbot(globalResume, globalSummary, resume, summary);
      && (c.resume == c.evaluator.resume <==> resume.None? || resume.value == globalResume)
      && (c.summary == c.evaluator.summary <==> summary.None? || summary.value == globalSummary)
  {
  }
}
