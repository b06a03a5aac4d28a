# Agentic AI course scripts, modelled in Dafny

The repository is a set of Python tutorial scripts that talk to chat-completion endpoints. This
project models the deterministic logic around those calls and proves what that logic promises.
Every endpoint becomes a function parameter that either returns a value or raises a `PyException`.
The models cover:

- `1_foundations/my-labs/2-lab-py.py`, the multi-model lab (module `MultiModelLab`):
  - a `Validator` keeps a conversation history;
  - it generates a question, builds a review prompt from the workers' answers, and prints the
    judge's ranking sorted by `int(rank)`.
- `1_foundations/my-labs/labs/3-lab-classes.py` (module `ResumeChatbot`) and
  `1_foundations/my-labs/labs/3-lab.py` (module `ResumeChatScript`), two résumé chatbots:
  - a chatbot answers as a persona and an evaluator model judges the reply;
  - a rejected reply is regenerated once with the evaluator's feedback;
  - the class version contains failures, the script version lets them escape;
  - the prompts they share are in `ChatPrompts`.
- `learning/1-Foundations/Exercises/0-chat-history-class.py`, the conversation-memory demo
  (module `ConversationDemo`): a `ConversationManager` object sends its whole history on every
  call and records each reply.
- `1_foundations/my-labs/exercises/1-exercise.py`, the business-opportunity explorer (module
  `OpportunityExplorer`): three prompts in one conversation, the answers collected under their step
  names, and an exit code.
  - It shares the three-step conversation with the demo, in module `Conversation`.
  - Its reference definition `Answers` says what a finished transcript is, independently of the
    recursive `Transcript`.
- `1_foundations/my-labs/exercises/2-exercise.py`, the orchestrator-worker exercise (module
  `ModelJudging`):
  - three models answer a generated question, and their answers are numbered into one text;
  - a judge ranks them;
  - the ranking is sorted, displayed and summarised, with the raw reply as the fallback.

Shared modules:
- `Messages`: messages and their dictionaries, history normalisation, client selection.
- `Ranking`: `int()` of a rank, and the stable sort by it.
- `Text`: `str(int)`, `int(str)`, `join`, `split`, `upper`.
- `FString`: how an f-string evaluates and when a format spec raises.
- `Wrappers`: `Option`, `Result`, `Call` and the exceptions.

Python objects whose fields the code updates are classes:
- `Validator`, `ConversationManager`, `AgenticAIExplorer`;
- the exercise's module-level `results`, as `Session`.

Their loops are methods with invariants, each proved equal to a specification function. Sorting
is modelled as a functional stable insertion sort, proved to be a sorted, stable permutation.

## Model

| member | source | states |
|---|---|---|
| Messages.Wire | 1_foundations/my-labs/2-lab-py.py:42 | a message is sent as a dictionary with exactly the keys "role" and "content", holding its role and content |
| Messages.Normalise | 1_foundations/my-labs/labs/3-lab-classes.py:72 | succeeds exactly when every entry has "role" and "content"; it then reduces each entry, in order, to those two. Otherwise it fails with the KeyError of the first entry lacking one, "role" read before "content" |
| Messages.NormaliseWired | 1_foundations/my-labs/labs/3-lab-classes.py:179 | normalising a list that is already made of role/content dictionaries gives back its messages unchanged |
| Messages.NormalisedEntries | 1_foundations/my-labs/labs/3-lab-classes.py:179 | each normalised dictionary keeps only "role" and "content", each with the value it had |
| Messages.ContentOrEmpty | 1_foundations/my-labs/exercises/1-exercise.py:51 | `content or ""`: a missing or empty content gives "", any other content is returned itself |
| Messages.SelectClient | learning/1-Foundations/Exercises/0-chat-history-class.py:23-35 | Ollama with the given URL and key exactly when both values are set and non-empty, and then the model is "gemma3:12b"; otherwise the default OpenAI client with "gpt-3.5-turbo" |
| Ranking.ToInt | 1_foundations/my-labs/2-lab-py.py:127 | `int()`: an integer is kept; a string converts exactly when it is a well-formed decimal; otherwise the error is a ValueError naming the string |
| Ranking.RankKeys | 1_foundations/my-labs/2-lab-py.py:127 | every sort key is computed exactly when every entry's rank converts, one key per entry in list order; otherwise the error is that of the first entry whose rank fails |
| Ranking.SortByKey | 1_foundations/my-labs/2-lab-py.py:127 | the sorted list is a permutation of the input (same multiset) in ascending key order |
| Ranking.SortByKeyStable | 1_foundations/my-labs/2-lab-py.py:127 | entries with equal keys keep their input order |
| Ranking.SortedFirstIsMinimal | 1_foundations/my-labs/exercises/2-exercise.py:178 | the first sorted entry comes from the input; its rank is the smallest, and it comes first among the entries sharing that rank |
| FString.FormatStr | 1_foundations/my-labs/2-lab-py.py:106-113 | `format(value, spec)` for a string: an empty spec gives the value unchanged. It raises exactly when the spec is not a valid string spec, and the error names the spec |
| MultiModelLab.Generate | 1_foundations/my-labs/2-lab-py.py:41-54 | one user message goes to the model the object names; never raises; the result carries the model's name. The answer is the returned content, or "" when the content is None or the call raised. A non-empty answer is exactly what the endpoint returned |
| MultiModelLab.LastUserContentNone | 1_foundations/my-labs/2-lab-py.py:70-75 | without any user message the last question is "" |
| MultiModelLab.LastUserContentFound | 1_foundations/my-labs/2-lab-py.py:70-75 | with a user message, the last question is the content of a user message that no later user message follows |
| MultiModelLab.LastUserStep | 1_foundations/my-labs/2-lab-py.py:71-73 | one step of the backwards scan: a user message is the answer, any other message is skipped |
| MultiModelLab.LastUserAfterExchange | 1_foundations/my-labs/2-lab-py.py:82-84 | after a prompt and then an answer join the history, the last question is the prompt, not the answer |
| MultiModelLab.ModelsStrLines | 1_foundations/my-labs/2-lab-py.py:89 | when no name or answer holds a newline, the joined text splits back into exactly one `"<model>: <answer>"` line per result, in results order |
| MultiModelLab.QuotedSpecRejected | 1_foundations/my-labs/2-lab-py.py:108 | a format spec that starts with a space and then a quote is not valid for a string |
| MultiModelLab.NestedFieldRaises | 1_foundations/my-labs/2-lab-py.py:108 | a nested field `{"model": ...}` with such a spec raises, naming the spec |
| MultiModelLab.JsonExampleAsWrittenRaises | 1_foundations/my-labs/2-lab-py.py:106-113 | the single-braced JSON example, read as a replacement field, raises at its first nested field |
| MultiModelLab.ReviewPromptAsWrittenRaises | 1_foundations/my-labs/2-lab-py.py:90-115 | the review f-string as written raises for every count, question and answer text |
| MultiModelLab.ReviewTemplateRenders | 1_foundations/my-labs/2-lab-py.py:90-115 | with the example's braces doubled, the review f-string never raises; it evaluates to its texts around the count, the last question and the answers, in order |
| MultiModelLab.SortedRankings | 1_foundations/my-labs/2-lab-py.py:127 | the sorted rankings are as many as the input and each still holds its "rank" |
| MultiModelLab.RankShownStart | 1_foundations/my-labs/2-lab-py.py:132 | a rank that `int()` accepts prints as non-empty text that does not start with "E" |
| MultiModelLab.RankReportError | 1_foundations/my-labs/2-lab-py.py:122-138 | the report starts with "Error: " exactly when the `try` block raised |
| MultiModelLab.RankReportSuccessStart | 1_foundations/my-labs/2-lab-py.py:129-135 | a successful report never starts with "Error: " |
| MultiModelLab.RankReportLines | 1_foundations/my-labs/2-lab-py.py:127-135 | on success: one line per entry, sorted by `int(rank)` as a stable permutation. Each line is `"<rank> : <model>\n"` with the original rank value, and the report is those lines joined |
| MultiModelLab.PrintRankings | 1_foundations/my-labs/2-lab-py.py:129-135 | the printing loop gives one line per entry in the given order when every entry has a "model", and otherwise KeyError "model" |
| MultiModelLab.Validator.constructor | 1_foundations/my-labs/2-lab-py.py:58-60 | the validator runs "gpt-4o-mini" with the given key and an empty history |
| MultiModelLab.Validator.AddUserHistory | 1_foundations/my-labs/2-lab-py.py:62-64 | the history grows by exactly one user message holding the prompt, and the earlier entries stay as they were |
| MultiModelLab.Validator.AddAssistantHistory | 1_foundations/my-labs/2-lab-py.py:66-68 | the history grows by exactly one assistant message holding the text, and the earlier entries stay as they were |
| MultiModelLab.Validator.GetLastQuestion | 1_foundations/my-labs/2-lab-py.py:70-75 | the backwards loop returns the last user content, "" when there is none |
| MultiModelLab.Validator.GenerateQuestion | 1_foundations/my-labs/2-lab-py.py:77-86 | the history grows by the generation prompt, then the generated answer; the last question is then the prompt |
| MultiModelLab.Validator.GenerateReviewAsWritten | 1_foundations/my-labs/2-lab-py.py:88-120 | as written, `generate_review` raises the format error before anything is sent or recorded |
| MultiModelLab.Validator.GenerateReview | 1_foundations/my-labs/2-lab-py.py:88-120 | corrected: the prompt embeds the last question from before the call. The prompt and the judge's answer join the history, and the prompt becomes the last question |
| MultiModelLab.Validator.OutputRank | 1_foundations/my-labs/2-lab-py.py:122-138 | `output_rank` returns the rank report: the lines on success, `"Error: " + str(e)` for whatever the `try` block raised |
| ChatPrompts.ChatbotSystemPrompt | 1_foundations/my-labs/labs/3-lab-classes.py:148-158 | the prompt opens with the persona paragraph, with the continuation lines' indentation kept; then the summary heading and the summary, the profile heading and the résumé, and the closing stay-in-character sentence naming the persona, each part at its own offset |
| ChatPrompts.SystemPromptDeterminesMaterial | 1_foundations/my-labs/labs/3-lab-classes.py:148-158 | for the same persona and summaries of one length, two system prompts are equal exactly when their summaries and résumés are |
| ChatPrompts.FramedRequest | 1_foundations/my-labs/labs/3-lab-classes.py:170 | the message list is the system message, then the history unchanged, then the user's message |
| ChatPrompts.RoleLabel | 1_foundations/my-labs/labs/3-lab-classes.py:122 | "User" exactly for the role "user", "Agent" for every other role |
| ChatPrompts.HistoryTextTurns | 1_foundations/my-labs/labs/3-lab-classes.py:120-123 | the conversation text is the turns `"<label>: <content>"` concatenated in history order with no separator |
| ChatPrompts.HistoryTextAppend | 1_foundations/my-labs/labs/3-lab-classes.py:120-123 | the text of a longer conversation extends the text of its beginning |
| ChatPrompts.EvaluatorUserPrompt | 1_foundations/my-labs/labs/3-lab-classes.py:119-129 | the accumulating loop builds the four sections in order: the conversation, the latest message, the latest reply, the closing instruction. 3-lab.py:69-79 is the same function |
| ResumeChatbot.EvaluatorModel.SystemPrompt | 1_foundations/my-labs/labs/3-lab-classes.py:91-116 | the fixed evaluator text over the name, then the summary, the profile heading and the résumé, then the closing instructions over the name; the material appears only at those two places |
| ResumeChatbot.EvaluatorPromptDeterminesMaterial | 1_foundations/my-labs/labs/3-lab-classes.py:91-116 | for the same persona and summaries of one length, two evaluator prompts are equal exactly when their summaries and résumés are |
| ResumeChatbot.EvaluatorModel.EvaluationRequest | 1_foundations/my-labs/labs/3-lab-classes.py:73-76 | exactly two messages, the evaluator's system prompt and then the user prompt |
| ResumeChatbot.EvaluatorModel.Evaluate | 1_foundations/my-labs/labs/3-lab-classes.py:69-88 | the request goes to the evaluator's model; never raises. A malformed history or a failed call gives a rejection `"Error: " + str(e)`; a missing parse gives "No evaluation provided"; otherwise the parsed evaluation. Acceptance implies the evaluator itself accepted |
| ResumeChatbot.Chatbot.RerunRequest | 1_foundations/my-labs/labs/3-lab-classes.py:163-170 | the system prompt extended with the rejected reply and then the feedback, then the history, then the message |
| ResumeChatbot.Chatbot.Rerun | 1_foundations/my-labs/labs/3-lab-classes.py:161-175 | the regenerated reply, or "Error: Unable to rerun chat" when the call raises |
| ResumeChatbot.Chatbot.ChatRequest | 1_foundations/my-labs/labs/3-lab-classes.py:179-180 | the system prompt, the normalised history, the user's message |
| ResumeChatbot.Chatbot.Chat | 1_foundations/my-labs/labs/3-lab-classes.py:178-193 | both chatbot calls go to the chatbot's model and the evaluation to the evaluator's. A malformed history or a failed first call raises. An acceptable reply is returned unchanged; otherwise the result of exactly one rerun with the evaluator's feedback |
| ResumeChatbot.Chatbot.ChatEvaluationRequest | 1_foundations/my-labs/labs/3-lab-classes.py:179-184 | inside `chat` the evaluator's own normalisation cannot fail; its verdict comes from its answer or from its failed call |
| ResumeChatbot.Chatbot.ChatAnswers | 1_foundations/my-labs/labs/3-lab-classes.py:184-193 | once the first call returns, `chat` does not raise. A different answer than the first reply comes only from a rejection and one rerun |
| ResumeChatbot.MakeChatbot | 1_foundations/my-labs/labs/3-lab-classes.py:133-138 | `Chatbot(resume=RESUME, summary=SUMMARY)`: "Mark Leager" on "gpt-4o-mini" with the résumé and summary given, or the globals when omitted. Its evaluator runs "gemini-2.0-flash" and always judges from the globals RESUME and SUMMARY (line 74) |
| ResumeChatbot.EvaluatorIgnoresArguments | 1_foundations/my-labs/labs/3-lab-classes.py:74 | the evaluator's system prompt is the same whatever résumé and summary the chatbot was built with |
| ResumeChatbot.ChatbotSharesMaterial | 1_foundations/my-labs/labs/3-lab-classes.py:133-138 | the chatbot and its evaluator share the résumé exactly when none or the global one was given, and likewise the summary; so `Chatbot()` at line 199 shares both |
| ResumeChatScript.Script.SystemPrompt | 1_foundations/my-labs/labs/3-lab.py:27-35 | `SYSTEM_PROMPT` is the same layout for "Mark Leager", with the persona's continuation lines unindented |
| ResumeChatScript.Script.EvalSystemPrompt | 1_foundations/my-labs/labs/3-lab.py:38-61 | `EVAL_SYSTEM_PROMPT` is the fixed evaluator text over the name, the summary, the profile heading, the résumé and the closing instructions, the material only at those two places |
| ResumeChatScript.EvalPromptDeterminesMaterial | 1_foundations/my-labs/labs/3-lab.py:38-61 | two scripts' evaluator prompts, with summaries of one length, are equal exactly when their summaries and résumés are |
| ResumeChatScript.Script.EvaluationRequest | 1_foundations/my-labs/labs/3-lab.py:84 | exactly two messages, `EVAL_SYSTEM_PROMPT` and then the user prompt |
| ResumeChatScript.Script.Evaluate | 1_foundations/my-labs/labs/3-lab.py:82-86 | a malformed history and a failed call both raise; a missing parse gives "No evaluation provided"; otherwise the parsed evaluation |
| ResumeChatScript.Script.RerunRequest | 1_foundations/my-labs/labs/3-lab.py:89-93 | `SYSTEM_PROMPT` extended with the rejected reply and the feedback, then the history as given, then the message |
| ResumeChatScript.Script.ChatRequest | 1_foundations/my-labs/labs/3-lab.py:99 | `SYSTEM_PROMPT`, the history exactly as the chat UI passed it, the message |
| ResumeChatScript.Script.Chat | 1_foundations/my-labs/labs/3-lab.py:98-112 | the chat and rerun calls go to "gpt-4o-mini", the evaluation to "gemini-2.0-flash"; every failure escapes. An acceptable reply is returned unchanged; otherwise exactly one rerun decides the answer |
| ResumeChatScript.Script.ChatSendsRawHistory | 1_foundations/my-labs/labs/3-lab.py:99 | an entry with keys besides "role" and "content" reaches the chatbot as is. The evaluator's normalised copy differs from it (line 83) |
| Conversation.Exchange | 1_foundations/my-labs/exercises/1-exercise.py:69-74 | the history plus the prompt is sent; the reply extends it as an assistant message, or the failure is passed on |
| Conversation.TranscriptAnswers | 1_foundations/my-labs/exercises/1-exercise.py:67-80 | a successful transcript meets the reference definition: entry 2i is prompt i, and entry 2i+1 is an assistant message holding the reply to everything before it |
| Conversation.AnswersDetermineTranscript | 1_foundations/my-labs/exercises/1-exercise.py:67-80 | conversely, a history meeting the reference definition is the transcript |
| Conversation.AnswersAlternate | 1_foundations/my-labs/exercises/1-exercise.py:69-74 | such a history alternates user and assistant messages, starting with the user |
| Conversation.TranscriptFailure | 1_foundations/my-labs/exercises/1-exercise.py:76-78 | a failed transcript failed at some prompt: the earlier prompts were answered, and asking that one raised the transcript's exception |
| Conversation.TranscriptFailurePersists | 1_foundations/my-labs/exercises/1-exercise.py:76-78 | once a step has failed, the remaining steps change nothing: the same exception escapes |
| ConversationDemo.Display | learning/1-Foundations/Exercises/0-chat-history-class.py:86 | content of at most 100 characters is shown whole; longer content as its first 100 characters and "..." |
| ConversationDemo.DisplayBounded | learning/1-Foundations/Exercises/0-chat-history-class.py:86 | the shown text never exceeds 103 characters and starts with as much of the content as fits |
| ConversationDemo.StateLineNumber | learning/1-Foundations/Exercises/0-chat-history-class.py:84-87 | numbering is 1-based: line i starts with the digits of i+1, which read back as that number, and then ". " |
| ConversationDemo.ConversationManager.constructor | learning/1-Foundations/Exercises/0-chat-history-class.py:17-21 | the client is the one selected from the two environment values, and the history starts empty |
| ConversationDemo.ConversationManager.SetupClient | learning/1-Foundations/Exercises/0-chat-history-class.py:23-35 | the client is the selected one and the history is untouched |
| ConversationDemo.ConversationManager.AddUserMessage | learning/1-Foundations/Exercises/0-chat-history-class.py:37-43 | exactly one user entry with the content is appended; the earlier entries and the client stay as they were |
| ConversationDemo.ConversationManager.AddAssistantMessage | learning/1-Foundations/Exercises/0-chat-history-class.py:45-51 | exactly one assistant entry with the content is appended; the earlier entries and the client stay as they were |
| ConversationDemo.ConversationManager.GetLlmResponse | learning/1-Foundations/Exercises/0-chat-history-class.py:53-77 | the whole history is sent. On success exactly one assistant entry with the returned text is appended and that text returned; on failure the exception is re-raised and the history is unchanged |
| ConversationDemo.ConversationManager.StateLines | learning/1-Foundations/Exercises/0-chat-history-class.py:79-88 | one line per message, in order: its 1-based number, the role in capitals and the shown content |
| ConversationDemo.ConversationManager.Step | learning/1-Foundations/Exercises/0-chat-history-class.py:100-102 | a prompt and then the reply join the history, which is the exchange of the shared conversation; on failure only the prompt has joined |
| ConversationDemo.DemonstrateConversationFlow | learning/1-Foundations/Exercises/0-chat-history-class.py:90-133 | the demo succeeds exactly when the three-prompt transcript does, with the same exception otherwise. On success the history is the transcript, six entries long, and the three answers are its assistant entries |
| OpportunityExplorer.StepNamesDistinct | 1_foundations/my-labs/exercises/1-exercise.py:58-62 | the three step names differ, so the results hold exactly three entries, each read back under its own name |
| OpportunityExplorer.StepResultsOfSteps | 1_foundations/my-labs/exercises/1-exercise.py:67-80 | after the three steps each step name maps to the answer of its own step, in the order business_area, pain_point, solution |
| OpportunityExplorer.StepResultsPrefix | 1_foundations/my-labs/exercises/1-exercise.py:73-74 | later messages do not change the results already recorded |
| OpportunityExplorer.AgenticAIExplorer.constructor | 1_foundations/my-labs/exercises/1-exercise.py:21-23 | the client is the one selected from the two environment values |
| OpportunityExplorer.AgenticAIExplorer.SetupClient | 1_foundations/my-labs/exercises/1-exercise.py:25-40 | Ollama with "gemma3:12b" exactly when both values are set and non-empty, otherwise OpenAI with "gpt-3.5-turbo" |
| OpportunityExplorer.AgenticAIExplorer.GetLlmResponse | 1_foundations/my-labs/exercises/1-exercise.py:42-54 | raises exactly when the call raises, with the same exception; otherwise the content, "" when it is None or empty |
| OpportunityExplorer.AgenticAIExplorer.ExploreBusinessOpportunity | 1_foundations/my-labs/exercises/1-exercise.py:56-80 | succeeds exactly when the three-prompt transcript does, so no partial results are returned. On success the three step names map to the answers at history positions 1, 3 and 5 |
| OpportunityExplorer.MainExitCode | 1_foundations/my-labs/exercises/1-exercise.py:82-100 | exit code 0 exactly when the exploration succeeds, 1 exactly when it raises |
| ModelJudging.Generator | 1_foundations/my-labs/exercises/2-exercise.py:41-49 | the prompt goes to "gpt-4o-mini" as one user message. It raises exactly when the call does, with the same exception; otherwise it returns the content, or "" |
| ModelJudging.Answered | 1_foundations/my-labs/exercises/2-exercise.py:68-77 | an answer function adds at most one result, and one exactly when the call returns: the model's name with the content or "" |
| ModelJudging.GatheredInCallOrder | 1_foundations/my-labs/exercises/2-exercise.py:112-116 | at most three results; each model is present exactly when its call returned; the results follow the order openai, gemini, ollama |
| ModelJudging.Session.constructor | 1_foundations/my-labs/exercises/2-exercise.py:54-59 | the question is kept and the results start empty |
| ModelJudging.Session.CollectAnswer | 1_foundations/my-labs/exercises/2-exercise.py:83-92 | the results grow by what the call answered, and by nothing when it raised |
| ModelJudging.Session.OpenAIAnswer | 1_foundations/my-labs/exercises/2-exercise.py:79-92 | the same, for "gpt-4o-mini" |
| ModelJudging.Session.GeminiAnswer | 1_foundations/my-labs/exercises/2-exercise.py:61-77 | the same, for "gemini-2.5-flash-lite" |
| ModelJudging.Session.OllamaAnswer | 1_foundations/my-labs/exercises/2-exercise.py:94-110 | the same, for "gemma3:12b" |
| ModelJudging.Session.GatherAnswers | 1_foundations/my-labs/exercises/2-exercise.py:113-116 | the results grow by the three answers in call order |
| ModelJudging.TogetherBlocks | 1_foundations/my-labs/exercises/2-exercise.py:119-122 | `together` is one `"## Response i from <model>:\n<answer>\n\n"` block per result, numbered from 1 in results order, and nothing else |
| ModelJudging.FormatResponses | 1_foundations/my-labs/exercises/2-exercise.py:119-122 | the loop with two additions per result builds exactly that text |
| ModelJudging.CompareTemplateRenders | 1_foundations/my-labs/exercises/2-exercise.py:125-144 | the comparison f-string, whose braces are doubled, never raises. It evaluates to its texts around the count, the question and `together` |
| ModelJudging.SortedItems | 1_foundations/my-labs/exercises/2-exercise.py:157 | every sorted entry still holds its "rank", whose `int()` is its sort key |
| ModelJudging.FormatRankings | 1_foundations/my-labs/exercises/2-exercise.py:162-167 | the display loop gives one `"**Rank r: name**\n*Reason:* reason\n\n"` block per entry in sorted order; an entry without "reason" raises KeyError "reason" |
| ModelJudging.ShowRankings | 1_foundations/my-labs/exercises/2-exercise.py:152-190 | the `try`/`except` block step by step: not JSON, no "result", a missing "rank" or a missing "reason" show the fallback; a rank `int()` rejects escapes; otherwise the ranking blocks and then the summary are displayed, and an empty ranking fails at its first entry |
| ModelJudging.FallbackShowsRaw | 1_foundations/my-labs/exercises/2-exercise.py:188-190 | the fallback starts with its heading and then shows the judge's reply unchanged |
| ModelJudging.UndecodableShowsRaw | 1_foundations/my-labs/exercises/2-exercise.py:183-190 | a reply that is not JSON, or lacks "result", shows the fallback and nothing escapes |
| ModelJudging.RankingEscapes | 1_foundations/my-labs/exercises/2-exercise.py:157-183 | a rank `int()` rejects escapes with nothing displayed. An empty ranking escapes with IndexError after its empty output. Nothing else escapes |
| ModelJudging.RankingDisplayed | 1_foundations/my-labs/exercises/2-exercise.py:152-181 | when the ranking is displayed: one block per entry, sorted as a stable permutation with each key the entry's `int(rank)`. The summary's winner is the first sorted entry, with the smallest rank and first among ties |
| ModelJudging.RunJudging | 1_foundations/my-labs/exercises/2-exercise.py:54-190 | the question and the ranking come from the generator; either call's failure escapes. The answers are gathered in call order and numbered into the comparison prompt; the judge's reply goes through the ranking display |

## Left out

- Network calls (`chat.completions.create`, `responses.create`, `beta.chat.completions.parse`) are function parameters. The model fixes the request each one receives and the model name it is called with; it does not fix what comes back.
  - In the two conversation scripts a call is an `Ask`, and the model name is bound when it is built: `AskWith` passes the selected client's model.
  - The client's API key and base URL are not passed to the endpoint.
- `get_model_responses` in 2-lab-py.py:141-158 is left out: it is a thread pool with a ten-second wall-clock timeout.
- `json.loads` is a parameter (`decode`) or the input is already decoded (`Call<RankResponse>`). JSON values other than the expected object shapes, and the TypeErrors they would raise, are not modelled.
- Environment variables and the résumé files are parameters. File reading and `setup_logging` in 3-lab-classes.py:23-53 are left out, as are dotenv loading, the gradio `ChatInterface`, and the `main` of the chatbots.
- Logging, `print` and IPython `display` are output only. The model records what is displayed (`Shown`) but not the banners and separator lines.
- The long fixed prompt texts are opaque string constants: the persona's sentences, the section headings, the evaluator and review prompts, and the three conversation prompts. The replacement fields between them are exact, and so is their order.
- ChatPrompts.SystemPromptDeterminesMaterial: like ResumeChatbot.EvaluatorPromptDeterminesMaterial and ResumeChatScript.EvalPromptDeterminesMaterial, it needs summaries of one length. Without that, a summary that itself contains the profile heading could move the boundary between summary and résumé, so the prompt would not tell them apart.
- `temperature` and `max_tokens` are float and integer settings passed through to the endpoint, and are not modelled.
- 1_foundations/my-labs/labs/1-lab.py and learning/1-Foundations/Exercises/0-chat-history-base.py are not part of this model. They are straight-line scripts of endpoint calls.
- Client construction cannot fail anywhere in the model. An `OpenAI(...)` that raises is not covered, including the clients that `gemini_answer` and `ollama_answer` in 1_foundations/my-labs/exercises/2-exercise.py:62-65 and 95-98 build on each call, outside their `try`.
- Ranking.SortByKey: Python sorts `rankings` in place with Timsort. The model is a functional stable insertion sort on a copy, so it captures the resulting order but not the aliasing of the sorted list.
- Text.Upper: maps only ASCII letters. Unicode case mapping is not modelled.
- FString.ParseStrSpec: a `0` before the width makes '0' the fill and keeps the default left alignment, as in Python 3.10 and later. Earlier versions reject it for a string, and that is not modelled. Formatting runs on characters, not on the display width of Unicode text.
- Text.ParseInt: accepts only ASCII digits and strips only ASCII white space. Python's `int()` also accepts other Unicode decimal digits (`int("١٢")` is 12) and strips Unicode white space.
- Wrappers.Describe: the `repr` quoting and escaping in `str(KeyError(...))` and in the `int()` error message is simplified to plain single quotes.
- ConversationDemo.ConversationManager.GetLlmResponse: the endpoint is typed to return text, so a `None` content is not modelled. In the source (learning/1-Foundations/Exercises/0-chat-history-class.py:47-51) such a `None` is appended to the history, and then the log message at line 51 slices it and raises TypeError, which lines 75-77 re-raise. The history grows by one entry and the call fails.

## Findings

| source | as written | input that shows it | evidently intended | confidence | as-written member | corrected member |
|---|---|---|---|---|---|---|
| 1_foundations/my-labs/2-lab-py.py:106-113 | The JSON example inside the f-string uses single braces. The outer brace opens a replacement field whose format spec holds the nested fields `{"model": ...}`. The first of them has the spec ` "model1", "rank": "1"`, which is not valid for a string. So building the review prompt raises ValueError, and `generate_review` never sends it | any call, e.g. `generate_review([])` | braces doubled (`{{`, `}}`) as in 2-exercise.py:132-139, so that the example is literal text | high, not executed | MultiModelLab.Validator.GenerateReviewAsWritten, MultiModelLab.ReviewPromptAsWrittenRaises | MultiModelLab.Validator.GenerateReview, MultiModelLab.ReviewTemplateRenders |
