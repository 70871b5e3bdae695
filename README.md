# Humi conversation pipeline — a Dafny model

This project models the decision logic of Humi's mental-health chat back end.
One user turn goes through three stages:

- **Safety gate** (`safety_check_node`). The input is lower-cased. A phrase
  from the lexicon's `self_harm` list that occurs in it as a substring marks
  the turn as high-risk. An optional step, off by default, asks the
  language model a YES/NO question when no phrase matched.
- **Prompt composer** (`cbt_node`). It builds one prompt from these parts,
  in this order:
  - the coaching persona;
  - up to six retrieved documents that share a lower-case whitespace token
    with the user's text;
  - the relevant lines of the last six session messages;
  - the user's input and a closing directive.

  It then returns the model's answer to that prompt.
- **Orchestrator** (`mental_health_pipeline`). A flagged turn gets a fixed
  helpline text, with no retrieval and no model call. Any other turn
  retrieves documents and asks `cbt_node` for an answer. Either way, the
  turn is appended to the session and one audit summary is saved.

The project has five modules:

- `Wrappers` (`wrappers.dfy`): `Option`.
- `Text` (`text.dfy`): the Python string operations the code relies on, on
  ASCII text. These are `lower`, `isspace`, `strip`, `startswith`, the
  substring test `in`, `split()`, `join` and slicing `[:n]`.
- `Safety` (`safety.dfy`): the gate, as a pure function.
- `Cbt` (`cbt.dfy`): specification functions for each prompt section.
  The method `CbtNode` builds the prompt by `+=` and loops, as the source
  does, and is proved to produce exactly `ComposePrompt`.
- `Pipeline` (`pipeline.dfy`): the session and the audit store are classes
  whose methods append to a sequence. `MentalHealthPipeline` is proved
  against them.

External services are parameters:

- the model, as `generate: string -> string` (and, for the confirmation
  step, a function returning `Answered(content)` or `Raised`);
- retrieval, as `retrieve: (string, string) -> seq<string>` (documents by
  their page content);
- the clock, as the `stamp` prefix of the audit summary;
- the lexicon the gate loaded, as a `map<string, seq<string>>`, with
  `Safety.DefaultLexicon` as the built-in default.

The pipeline also returns a ghost trace of the calls to retrieval and to
the model. Each method writes that trace beside the calls it makes, so the
trace documents the control flow; it is not a log the services keep.

Assistant lines in the session window are rendered even when no human
line matched. Only human messages are gated on keyword overlap
(app/core/cbt.py:56-60).

## Model

| member | source | states |
|---|---|---|
| Text.Lower | app/core/safety.py:13 | lower-casing keeps the length and leaves no upper-case letter, and whitespace stays whitespace |
| Text.Occurs | app/core/safety.py:15 | `p in s` holds exactly when `p` stands in `s` at some offset |
| Text.OccursFrom | app/core/safety.py:15 | the search from offset `i` succeeds exactly when `p` stands in `s` at some offset at or after `i` |
| Text.MissingCharNoOccurrence | app/core/safety.py:15 | a phrase holding a character the text lacks never occurs in it |
| Text.UppercaseNeverOccursInLower | app/core/safety.py:13-15 | a phrase with an upper-case letter never occurs in lower-cased text |
| Text.Strip | app/core/safety.py:23 | `strip()` is the slice of the input between a whitespace-only front and a whitespace-only back. Neither end of the result is whitespace, and the result is empty exactly for all-whitespace text |
| Text.StripKeepsFront | app/core/safety.py:23 | stripping leading whitespace exposes the first non-space characters of the answer |
| Text.Tokens | app/core/cbt.py:37 | every token of `split()` is a non-empty run without whitespace |
| Text.TokensEmptyIff | app/core/cbt.py:37 | `split()` is empty exactly for empty or all-whitespace text |
| Text.TokensAppend | app/core/cbt.py:37 | splitting distributes over a concatenation whose seam is whitespace |
| Text.TokensOfJoin | app/core/cbt.py:37 | splitting a space-joined list of words gives the words back |
| Text.KeywordsOfWhitespace | app/core/cbt.py:37 | empty or whitespace-only text has no keywords |
| Text.Keywords | app/core/cbt.py:37 | `set(s.lower().split())`, the tokens of the lower-cased text; `KeywordsOfWhitespace` gives it for blank text |
| Text.Overlaps | app/core/cbt.py:44-45 | the non-empty intersection of two keyword sets, which `RelevantDocsMembership` and `IncludedMembership` use as the keep condition |
| Text.Join | app/core/cbt.py:48 | `sep.join(xs)`; `TokensOfJoin` shows splitting undoes a join with a space |
| Text.Take | app/core/cbt.py:48 | `xs[:n]` is a prefix of `xs` of length `min(len(xs), n)` |
| Safety.AnyPhraseIn | app/core/safety.py:14-16 | the scan finds a phrase exactly when some listed phrase occurs in the text |
| Safety.Phrases | app/core/safety.py:14 | `lexicon.get("self_harm", [])`; `SafetyCheck` shows no `self_harm` entry means nothing is flagged |
| Safety.LexiconFlags | app/core/safety.py:13-16 | the lexicon half of the gate; `SafetyCheck` shows it flags exactly when a `self_harm` phrase occurs in the lower-cased text, and that a match decides the gate |
| Safety.ConfirmationPrompt | app/core/safety.py:21 | the YES/NO question put to the model, with the user's text appended |
| Safety.Affirmative | app/core/safety.py:22-23 | `ans.strip().lower().startswith("yes")`; `AffirmativeAfterWhitespace` shows any padded "yes" in any case confirms |
| Safety.Confirms | app/core/safety.py:20-25 | a reply's content is read as `Affirmative`, and a raised call confirms nothing; `SafetyCheck` shows this decides the gate when no phrase matched |
| Safety.ModelConfirms | app/core/safety.py:21-23 | asks the model the confirmation question about the text and reads its reply with `Confirms`; `SafetyCheck` shows it decides the gate when confirmation is on and no phrase matched |
| Safety.DefaultLexicon | app/config.py:40-50 | the built-in lexicon with its seven `self_harm` phrases; `DefaultLexiconFlagsKillMyself` and `DefaultLexiconPassesRoughDay` show one sentence it flags and one it passes |
| Safety.SafetyCheck | app/core/safety.py:7-26 | a phrase match flags the text whatever the model would say. With confirmation off, the result is true exactly when a `self_harm` phrase occurs in the lower-cased text, and false when there is no `self_harm` entry. With confirmation on and no match, the result is the model's "yes", and a raised call gives false |
| Safety.UppercasePhrasesNeverMatch | app/core/safety.py:13-15 | a lexicon whose phrases all hold an upper-case letter never flags anything |
| Safety.AffirmativeAfterWhitespace | app/core/safety.py:22-23 | an answer opening with "yes" in any case after leading whitespace counts as confirmation |
| Safety.DefaultLexiconFlagsKillMyself | app/core/safety.py:13-16 | with the default lexicon, "I want to kill myself" is flagged |
| Safety.NoPhraseIn | app/core/safety.py:14-16 | no phrase is found when each phrase holds a character the text lacks |
| Safety.DefaultLexiconPassesRoughDay | app/core/safety.py:13-16 | with the default lexicon, "I had a rough day at work" is not flagged |
| Cbt.RelevantDocsMembership | app/core/cbt.py:39-46 | a document is kept exactly when it shares a keyword with the user's text |
| Cbt.RelevantDocsAppend | app/core/cbt.py:39-46 | filtering distributes over concatenation, so kept documents keep their input order |
| Cbt.RelevantDocs | app/core/cbt.py:39-46 | the kept documents in input order; `RelevantDocsMembership`, `RelevantDocsAppend` and `SelectRelevantDocs` pin it down |
| Cbt.QuotedDocs | app/core/cbt.py:47-48 | at most six documents are quoted. All are kept documents, they form a prefix of the kept list, and there are six of them or all the kept ones |
| Cbt.RagSection | app/core/cbt.py:35-49 | the documents section is present exactly when the context is a list with at least one kept document |
| Cbt.Window | app/core/cbt.py:54 | `messages[-6:]` is the suffix of the history of length `min(len, 6)` |
| Cbt.Included | app/core/cbt.py:56-60 | whether a window message is rendered; `IncludedMembership` and `BlankInputKeepsOnlyAssistantLines` state when |
| Cbt.IncludedMessages | app/core/cbt.py:56-60 | the rendered messages of the window in order; `IncludedMembership` gives its members |
| Cbt.Line | app/core/cbt.py:58-60 | the `User: ` or `AI: ` line of one message |
| Cbt.Lines | app/core/cbt.py:56-60 | the lines of a list of messages, one after the other; `ConversationStep` gives its growth by one message |
| Cbt.Conversation | app/core/cbt.py:53-60 | the `conv` text; `ConversationStep`, `ConversationEmptyIff` and `RenderConversation` pin it down |
| Cbt.IncludedMembership | app/core/cbt.py:56-60 | a window message is rendered exactly when it is an assistant message, or a human message sharing a keyword with the user's text |
| Cbt.ConversationStep | app/core/cbt.py:56-60 | each further message adds its own line, or nothing, at the end of `conv` |
| Cbt.ConversationEmptyIff | app/core/cbt.py:61 | `conv` is empty exactly when no message of the window is rendered |
| Cbt.ConversationSection | app/core/cbt.py:52-62 | the conversation section is present exactly when a session is given and some message of its window is rendered |
| Cbt.PromptFraming | app/core/cbt.py:31-64 | every prompt opens with the persona and a newline, and ends with the user input and the closing directive |
| Cbt.Persona | app/core/cbt.py:6-17 | the coaching persona text of `_build_persona_prompt()`; `PromptFraming` puts it, followed by a newline, at the front of every prompt |
| Cbt.Closing | app/core/cbt.py:64 | the user's input and the closing directive; `PromptFraming` puts it at the end of every prompt |
| Cbt.ComposePrompt | app/core/cbt.py:31-64 | the full prompt; `BuildPrompt` shows the source's step-by-step build produces it, `PromptFraming` gives its ends, and `RagSection` and `ConversationSection` give when its middle sections appear |
| Cbt.BlankInputKeepsOnlyAssistantLines | app/core/cbt.py:37-45 | for blank input no document is quoted, and exactly the assistant messages are rendered |
| Cbt.SelectRelevantDocs | app/core/cbt.py:38-46 | the loop collects exactly the kept documents, in order |
| Cbt.RenderConversation | app/core/cbt.py:53-60 | the loop builds exactly the rendered lines of the window |
| Cbt.AppendRagSection | app/core/cbt.py:35-49 | the documents step appends exactly the documents section |
| Cbt.AppendConversationSection | app/core/cbt.py:52-62 | the session step appends exactly the conversation section |
| Cbt.BuildPrompt | app/core/cbt.py:31-64 | the built prompt is the persona, documents, conversation and closing sections, in that order |
| Cbt.CbtNode | app/core/cbt.py:19-68 | flagged text gets the fixed alert and the model is not asked. Otherwise the model is asked once, with the composed prompt, and its answer is returned |
| Cbt.HelplineAlert | app/core/cbt.py:26-29 | `cbt_node`'s own alert text; `CbtNode` returns it, without asking the model, when its safety check fires |
| Pipeline.Session.AddUserMessage | app/core/pipeline.py:27 | the session gains the human message at its end |
| Pipeline.Session.AddAiMessage | app/core/pipeline.py:28 | the session gains the assistant message at its end |
| Pipeline.AuditSink.SaveUserSummary | app/core/pipeline.py:31 | the store gains one record with the given text and risk tag |
| Pipeline.RiskSummary | app/core/pipeline.py:31 | the audit text of a flagged turn is "RISK_FLAG: " followed by the user's text |
| Pipeline.Helpline | app/core/pipeline.py:21-24 | the pipeline's own helpline text, which is not `cbt_node`'s alert; `MentalHealthPipeline` and `HelplineTurn` return it on the flagged path |
| Pipeline.Placeholder | app/core/llm.py:63 | the reply of the model wrapper when no backend is configured; `UnconfiguredBackend` shows it is what an unflagged turn returns and records |
| Pipeline.TurnSummary | app/core/pipeline.py:49 | the audit text of an answered turn; `TurnSummaryQuotes` and `SummaryQuotesShortTurns` state what it quotes |
| Pipeline.TurnSummaryQuotes | app/core/pipeline.py:48-51 | the summary opens with the stamp, quotes the first 300 characters of the question and of the answer, and is no longer than those and its labels |
| Pipeline.SummaryQuotesShortTurns | app/core/pipeline.py:49 | a question of at most 300 characters is quoted in full whatever the reply's length, and so is such a reply whatever the question's length |
| Pipeline.Appended | app/core/pipeline.py:41-45 | a turn adds the user's text then the reply, or a prefix of that pair when an append raises |
| Pipeline.RecordTurn | app/core/pipeline.py:26-30 | the session gains exactly the appended messages and is otherwise unchanged |
| Pipeline.HelplineTurn | app/core/pipeline.py:20-32 | a flagged turn answers the helpline with no documents. The session gains the turn and one "high" record holding "RISK_FLAG: " and the text is saved |
| Pipeline.AnsweredTurn | app/core/pipeline.py:34-55 | the documents are retrieved and the model is asked once, with the prompt composed from the session before the turn. The session gains the turn and one "none" summary is saved |
| Pipeline.MentalHealthPipeline | app/core/pipeline.py:9-55 | A flagged turn returns the helpline, `[]` and true. It makes no retrieval or model call, and saves one "high" record. Any other turn returns the retrieved documents and false. It retrieves, then asks the model once with the prompt composed from the session as it was before the turn, and saves one "none" summary. Either way the session gains the user's text then the reply, and append failures leave the result unchanged |
| Pipeline.UnconfiguredBackend | app/core/llm.py:61-64 | without a model backend, every unflagged turn returns the placeholder and a false risk flag. The session gains the user's text and the placeholder, and the store gains one "none" summary quoting it |

## Left out

- Model client construction, Chroma and embeddings, and audit storage
  (app/core/llm.py, app/core/rag.py, app/utils/storage.py) are external
  services. They are parameters here: `generate`, `retrieve`, and a sink
  that records every `save_user_summary` call. Whether the store accepts a
  write, and the metadata it adds, are not modelled.
- Loading the lexicon from YAML (app/config.py) is file I/O. The lexicon is
  a parameter, with the built-in default as a constant. Its `self_harm`
  entry is taken to be a list of strings.
- The FastAPI routes, the app setup, the request schemas and the per-user
  session dictionary are transport and concurrency outside one sequential
  turn.
- Safety.SafetyCheck: Python's Unicode-aware `lower()` and `isspace()` are
  modelled on ASCII only (plus the ASCII control characters that Python
  counts as whitespace).
- Text.Tokens: `split()` is modelled with the same ASCII whitespace set.
- Pipeline.TurnSummary: the `datetime.utcnow()` prefix is an opaque `stamp`
  parameter. The `except` that drops it is unreachable, because formatting
  the time does not raise.
- Cbt.CbtNode: the `except` around `getattr(doc, "page_content", "")` is
  unreachable. A document without page content counts as the empty string.
- Cbt.CbtNode: the model's reply is its `content`. Replies without a
  `content` attribute, converted by `str`, are part of `generate`.
- Safety.SafetyCheck: the gate reads its lexicon from a module-level value
  loaded at import time. Here the lexicon is an explicit argument.
- Pipeline.MentalHealthPipeline: the session appends of the real chat
  history never raise. The `fault` argument stands for the exceptions the
  `try` blocks would swallow.
- Pipeline.MentalHealthPipeline: the source returns `retrieved_context or []`
  and the model returns `retrieve(userId, userText)`. `rag_retrieval_node`
  always returns a list (app/core/rag.py:25, 32, 34), so `or []` changes
  nothing, and `retrieve` yields a `seq<string>`.
