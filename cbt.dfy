/**
 * The prompt composer (`cbt_node`). After its own lexical safety check it
 * builds one prompt in a fixed order (the coaching persona, up to six
 * retrieved documents that share a keyword with the user's text, the
 * relevant lines of the last six session messages, the user's text and a
 * closing directive) and returns what the language model answers to it.
 *
 * The specification functions below give each section of the prompt; the
 * method `CbtNode` builds the prompt step by step, as the source does, and is
 * proved to produce exactly `ComposePrompt`.
 */
module Cbt {
  import opened Wrappers
  import opened Text
  import Safety

  /**
   * A message of the session history. The pipeline appends only `Human` and
   * `Ai` messages; `Other` stands for any further kind a history may hold.
   */
  datatype Message = Human(content: string) | Ai(content: string) | Other(content: string)

  /**
   * The `retrieved_context` argument: `None` or another false value, a true
   * value that is not a list, or a list of documents, each given by its page
   * content (the empty string for a document without one).
   */
  datatype RetrievedContext = NoContext | NotAList | DocList(docs: seq<string>)

  /** At most this many relevant documents are quoted. */
  const MaxDocs: nat := 6

  /** Only this many of the latest session messages are considered. */
  const WindowSize: nat := 6

  /** `_build_persona_prompt()`. */
  const Persona: string :=
    "You are a compassionate and non-judgmental CBT (Cognitive Behavioral Therapy) coach, "
    + "focused on delivering brief, empathetic micro-interventions. Adopt a warm, human, and "
    + "supportive tone, using clear, accessible language (avoid clinical jargon). "
    + "Structure responses naturally into four parts:\n"
    + "1. Validation: Empathize with the user's feelings.\n"
    + "2. Gentle Hypothesis: Identify potential thought/behavior pattern.\n"
    + "3. Actionable CBT Tool: Offer one small, practical technique.\n"
    + "4. Invitation: End with an open, collaborative question.\n"
    + "Write naturally and briefly unless the message is high-risk; if user message is neutral keep reply concise."

  /** What `cbt_node` answers, without asking the model, when its safety check fires. */
  const HelplineAlert: string :=
    "\U{26A0}\U{FE0F} HELPLINE ALERT: It seems like you may be thinking about self-harm. "
    + "Please reach out immediately to a trained professional or helpline. You are not alone."

  const RagHeader: string := "\n--- Relevant Past Themes (RAG) ---\n"
  const ConversationHeader: string := "\n--- Recent Conversation ---\n"

  /** The user's text and the directive that end every prompt. */
  function Closing(userText: string): string {
    "\nUser Input:\n" + userText + "\n\nGenerate the assistant response following the structure above:"
  }

  // ---------------------------------------------------------------------------
  // Retrieved documents

  /** The documents that share a keyword with the user's text, in their input order. */
  function RelevantDocs(userKeywords: set<string>, docs: seq<string>): seq<string>
    decreases |docs|
  {
    if docs == [] then []
    else
      var last := docs[|docs| - 1];
      RelevantDocs(userKeywords, docs[..|docs| - 1]) + (if Overlaps(userKeywords, last) then [last] else [])
  }

  /** A document is kept if and only if it shares a keyword with the user's text. */
  lemma {:induction false} RelevantDocsMembership(userKeywords: set<string>, docs: seq<string>)
    ensures forall d :: d in RelevantDocs(userKeywords, docs) <==> d in docs && Overlaps(userKeywords, d)
    decreases |docs|
  {
    if docs != [] {
      var init := docs[..|docs| - 1];
      RelevantDocsMembership(userKeywords, init);
      assert docs == init + [docs[|docs| - 1]];
    }
  }

  /**
   * Filtering distributes over concatenation: kept documents keep their
   * relative order.
   */
  lemma {:induction false} RelevantDocsAppend(userKeywords: set<string>, a: seq<string>, b: seq<string>)
    ensures RelevantDocs(userKeywords, a + b) == RelevantDocs(userKeywords, a) + RelevantDocs(userKeywords, b)
    decreases |b|
  {
    if b == [] {
      assert a + b == a;
    } else {
      var init, last := b[..|b| - 1], b[|b| - 1];
      var kept := if Overlaps(userKeywords, last) then [last] else [];
      RelevantDocsAppend(userKeywords, a, init);
      assert (a + b)[..|a + b| - 1] == a + init && (a + b)[|a + b| - 1] == last;
      assert RelevantDocs(userKeywords, a + b) == RelevantDocs(userKeywords, a + init) + kept;
      assert RelevantDocs(userKeywords, b) == RelevantDocs(userKeywords, init) + kept;
    }
  }

  /** The documents quoted in the prompt: the first `MaxDocs` relevant ones. */
  function QuotedDocs(userText: string, docs: seq<string>): (r: seq<string>)
    ensures |r| <= MaxDocs
    ensures forall d :: d in r ==> d in docs && Overlaps(Keywords(userText), d)
    ensures r <= RelevantDocs(Keywords(userText), docs)
    ensures |r| == MaxDocs || r == RelevantDocs(Keywords(userText), docs)
  {
    var relevant := RelevantDocs(Keywords(userText), docs);
    RelevantDocsMembership(Keywords(userText), docs);
    Take(relevant, MaxDocs)
  }

  /** The "Relevant Past Themes" section; empty when it is left out. */
  function RagSection(userText: string, context: RetrievedContext): (r: string)
    ensures r != "" <==> context.DocList? && RelevantDocs(Keywords(userText), context.docs) != []
  {
    match context
    case DocList(docs) =>
      if RelevantDocs(Keywords(userText), docs) == [] then ""
      else RagHeader + Join(QuotedDocs(userText, docs), "\n") + "\n"
    case _ => ""
  }

  // ---------------------------------------------------------------------------
  // Session history

  /** `messages[-6:]`: the latest `WindowSize` messages in chronological order. */
  function Window(messages: seq<Message>): (w: seq<Message>)
    ensures |w| == if |messages| <= WindowSize then |messages| else WindowSize
    ensures w == messages[|messages| - |w|..]
  {
    if |messages| <= WindowSize then messages else messages[|messages| - WindowSize..]
  }

  /**
   * Whether a message of the window is rendered: a human message when it
   * shares a keyword with the user's text, an assistant message always.
   */
  predicate Included(userKeywords: set<string>, m: Message) {
    match m
    case Human(content) => Overlaps(userKeywords, content)
    case Ai(_) => true
    case Other(_) => false
  }

  /** The messages of `ms` that are rendered, in order. */
  function IncludedMessages(userKeywords: set<string>, ms: seq<Message>): seq<Message>
    decreases |ms|
  {
    if ms == [] then []
    else
      var last := ms[|ms| - 1];
      IncludedMessages(userKeywords, ms[..|ms| - 1]) + (if Included(userKeywords, last) then [last] else [])
  }

  lemma {:induction false} IncludedMembership(userKeywords: set<string>, ms: seq<Message>)
    ensures forall m :: m in IncludedMessages(userKeywords, ms) <==> m in ms && Included(userKeywords, m)
    decreases |ms|
  {
    if ms != [] {
      var init := ms[..|ms| - 1];
      IncludedMembership(userKeywords, init);
      assert ms == init + [ms[|ms| - 1]];
    }
  }

  /** The line a rendered message contributes. */
  function Line(m: Message): string {
    match m
    case Human(content) => "User: " + content + "\n"
    case Ai(content) => "AI: " + content + "\n"
    case Other(_) => ""
  }

  /** The lines of `ms`, one after the other. */
  function Lines(ms: seq<Message>): string
    decreases |ms|
  {
    if ms == [] then "" else Lines(ms[..|ms| - 1]) + Line(ms[|ms| - 1])
  }

  /** The `conv` text built from the window. */
  function Conversation(userKeywords: set<string>, window: seq<Message>): string {
    Lines(IncludedMessages(userKeywords, window))
  }

  /** Extending the window by one message adds that message's line, if it is rendered. */
  lemma ConversationStep(userKeywords: set<string>, ms: seq<Message>, m: Message)
    ensures Conversation(userKeywords, ms + [m])
         == Conversation(userKeywords, ms) + (if Included(userKeywords, m) then Line(m) else "")
  {
    assert (ms + [m])[..|ms|] == ms;
    var before := IncludedMessages(userKeywords, ms);
    if Included(userKeywords, m) {
      assert IncludedMessages(userKeywords, ms + [m]) == before + [m];
      assert (before + [m])[..|before|] == before;
      assert Lines(before + [m]) == Lines(before) + Line(m);
    } else {
      assert IncludedMessages(userKeywords, ms + [m]) == before + [];
      assert before + [] == before;
    }
  }

  lemma {:induction false} LinesEmptyIff(ms: seq<Message>)
    requires forall m :: m in ms ==> !m.Other?
    ensures Lines(ms) == "" <==> ms == []
    decreases |ms|
  {
    if ms != [] {
      var last := ms[|ms| - 1];
      assert |Line(last)| > 0;
      assert |Lines(ms)| >= |Line(last)|;
    }
  }

  /** The conversation text is empty exactly when no message of the window is rendered. */
  lemma ConversationEmptyIff(userKeywords: set<string>, window: seq<Message>)
    ensures Conversation(userKeywords, window) == "" <==> forall m :: m in window ==> !Included(userKeywords, m)
  {
    var included := IncludedMessages(userKeywords, window);
    IncludedMembership(userKeywords, window);
    LinesEmptyIff(included);
    EmptyIffNoElement(included);
  }

  /** The "Recent Conversation" section; empty when it is left out. */
  function ConversationSection(userText: string, history: Option<seq<Message>>): (r: string)
    ensures r != "" <==> history.Some? && exists m :: m in Window(history.value) && Included(Keywords(userText), m)
  {
    match history
    case None => ""
    case Some(messages) =>
      var conv := Conversation(Keywords(userText), Window(messages));
      ConversationEmptyIff(Keywords(userText), Window(messages));
      if conv == "" then "" else ConversationHeader + conv + "\n"
  }

  // ---------------------------------------------------------------------------
  // The prompt

  /** The full prompt: persona, documents, conversation, user input, in that order. */
  function ComposePrompt(userText: string, context: RetrievedContext, history: Option<seq<Message>>): string {
    Persona + "\n" + RagSection(userText, context) + ConversationSection(userText, history) + Closing(userText)
  }

  /**
   * Every prompt opens with the persona and a newline, and closes with the
   * user's text and the directive.
   */
  lemma PromptFraming(userText: string, context: RetrievedContext, history: Option<seq<Message>>)
    ensures StartsWith(ComposePrompt(userText, context, history), Persona + "\n")
    ensures EndsWith(ComposePrompt(userText, context, history), Closing(userText))
  {
    FramedBy(Persona + "\n", RagSection(userText, context), ConversationSection(userText, history), Closing(userText));
  }

  /**
   * For empty or whitespace-only input no document is quoted and no human
   * message is rendered, while every assistant message still is.
   */
  lemma BlankInputKeepsOnlyAssistantLines(userText: string, context: RetrievedContext)
    requires AllSpace(userText)
    ensures RagSection(userText, context) == ""
    ensures forall m :: Included(Keywords(userText), m) <==> m.Ai?
  {
    KeywordsOfWhitespace(userText);
    if context.DocList? {
      RelevantDocsMembership(Keywords(userText), context.docs);
      EmptyIffNoElement(RelevantDocs(Keywords(userText), context.docs));
    }
  }

  // ---------------------------------------------------------------------------
  // cbt_node

  /** The loop that collects `relevant_docs`: the documents sharing a keyword with the user. */
  method SelectRelevantDocs(userKeywords: set<string>, docs: seq<string>) returns (relevantDocs: seq<string>)
    ensures relevantDocs == RelevantDocs(userKeywords, docs)
  {
    relevantDocs := [];
    for i := 0 to |docs|
      invariant relevantDocs == RelevantDocs(userKeywords, docs[..i])
    {
      assert docs[..i + 1][..i] == docs[..i];
      if Overlaps(userKeywords, docs[i]) {
        relevantDocs := relevantDocs + [docs[i]];
      }
    }
    assert docs[..|docs|] == docs;
  }

  /** The loop that accumulates `conv` over the window of recent messages. */
  method RenderConversation(userKeywords: set<string>, recent: seq<Message>) returns (conv: string)
    ensures conv == Conversation(userKeywords, recent)
  {
    conv := "";
    for j := 0 to |recent|
      invariant conv == Conversation(userKeywords, recent[..j])
    {
      var m := recent[j];
      var line := "";
      if m.Human? && Overlaps(userKeywords, m.content) {
        line := "User: " + m.content + "\n";
      } else if m.Ai? {
        line := "AI: " + m.content + "\n";
      }
      assert line == if Included(userKeywords, m) then Line(m) else "";
      PrefixSnoc(recent, j);
      ConversationStep(userKeywords, recent[..j], m);
      conv := conv + line;
    }
    assert recent[..|recent|] == recent;
  }


  /** The step of `cbt_node` that appends the retrieved documents to `full_prompt`. */
  method AppendRagSection(fullPrompt: string, userText: string, context: RetrievedContext)
    returns (extended: string)
    ensures extended == fullPrompt + RagSection(userText, context)
  {
    extended := fullPrompt;
    if context.DocList? && context.docs != [] {
      var relevantDocs := SelectRelevantDocs(Keywords(userText), context.docs);
      if relevantDocs != [] {
        var contextText := Join(Take(relevantDocs, MaxDocs), "\n");
        AppendFour(extended, RagHeader, contextText, "\n");
        extended := extended + RagHeader + contextText + "\n";
      }
    }
  }

  /** The step of `cbt_node` that appends the recent conversation to `full_prompt`. */
  method AppendConversationSection(fullPrompt: string, userText: string, history: Option<seq<Message>>)
    returns (extended: string)
    ensures extended == fullPrompt + ConversationSection(userText, history)
  {
    extended := fullPrompt;
    if history.Some? {
      var conv := RenderConversation(Keywords(userText), Window(history.value));
      if conv != "" {
        AppendFour(extended, ConversationHeader, conv, "\n");
        extended := extended + ConversationHeader + conv + "\n";
      }
    }
  }

  /** The steps of `cbt_node` that build `full_prompt`. */
  method BuildPrompt(userText: string, context: RetrievedContext, history: Option<seq<Message>>)
    returns (fullPrompt: string)
    ensures fullPrompt == ComposePrompt(userText, context, history)
  {
    fullPrompt := Persona + "\n";
    fullPrompt := AppendRagSection(fullPrompt, userText, context);
    fullPrompt := AppendConversationSection(fullPrompt, userText, history);
    fullPrompt := fullPrompt + Closing(userText);
  }

  /**
   * `cbt_node(user_text, retrieved_context, session_history)` with the model
   * call `generate`. `history` is `None` when no session is passed and
   * otherwise the session's messages; `prompt` is the prompt the model was
   * asked, `None` when the helpline branch answered without asking it.
   */
  method CbtNode(userText: string, context: RetrievedContext, history: Option<seq<Message>>,
                 lexicon: Safety.Lexicon, generate: string -> string)
    returns (reply: string, ghost prompt: Option<string>)
    // flagged text gets the alert, and the model is not asked
    ensures Safety.LexiconFlags(lexicon, userText) ==> reply == HelplineAlert
    ensures Safety.LexiconFlags(lexicon, userText) ==> prompt == None
    // any other text gets the model's answer to the composed prompt
    ensures !Safety.LexiconFlags(lexicon, userText) ==> reply == generate(ComposePrompt(userText, context, history))
    ensures !Safety.LexiconFlags(lexicon, userText) ==> prompt == Some(ComposePrompt(userText, context, history))
  {
    if Safety.SafetyCheck(lexicon, userText, None) {
      return HelplineAlert, None;
    }
    var fullPrompt := BuildPrompt(userText, context, history);
    prompt := Some(fullPrompt);
    reply := generate(fullPrompt);
  }
}
