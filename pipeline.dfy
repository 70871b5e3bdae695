/**
 * The orchestrator (`mental_health_pipeline`). One call handles one user
 * turn: the lexical safety gate runs first. Text it flags gets the fixed
 * helpline answer without retrieval or generation. Any other text gets the
 * documents retrieved for the user and the answer `cbt_node` obtains from
 * the model. Either way, the turn is appended to the session (an append
 * that raises is swallowed) and one audit summary is saved.
 *
 * Retrieval, generation and the wall-clock stamp of the summary are
 * parameters. The audit store is a sink that records each
 * `save_user_summary` call.
 *
 * The methods also return a ghost trace of the calls to retrieval and to
 * the model. Each method writes that trace itself, beside the calls, so it
 * documents the control flow rather than logging it. What callers can
 * observe is in the other clauses: on the flagged path the results, the
 * session and the audit store do not mention `retrieve` or `generate`
 * (`HelplineTurn` does not even take them), and on the other path they are
 * given by one `retrieve` result and one `generate` answer.
 */
module Pipeline {
  import opened Text
  import opened Wrappers
  import Safety
  import opened Cbt

  /** The pipeline's own answer to a flagged turn (not `cbt_node`'s alert). */
  const Helpline: string :=
    "It seems you might be at risk. Please contact local helpline immediately.\n"
    + "India: KIRAN 1800-599-0019 | Vandrevala 91-9999-666-555"

  /** What the model wrapper answers when no model backend is configured. */
  const Placeholder: string := "I'm here to help. (LLM not configured; this is placeholder output.)"

  /** The audit summary quotes at most this many characters of each side of a turn. */
  const ExcerptLength: nat := 300

  /** The `risk` tag of an audit record: `"high"` or `"none"`. */
  datatype Risk = High | NoRisk

  /** One `save_user_summary(user_id, text, tags={"risk": ...})` call. */
  datatype AuditRecord = AuditRecord(userId: string, text: string, risk: Risk)

  /**
   * Which of the two session appends raises, if either does. The
   * exception ends the `try` block, so the appends after it do not happen.
   */
  datatype AppendFault = NoFault | UserAppendRaises | AiAppendRaises

  /** A call the pipeline makes to an outside service. */
  datatype Call = Retrieve(userId: string, userText: string) | Generate(prompt: string)

  /** The chat history of one session; messages are only ever appended. */
  class Session {
    var messages: seq<Message>

    constructor ()
      ensures messages == []
    {
      messages := [];
    }

    /** `add_user_message(text)`. */
    method AddUserMessage(text: string)
      modifies this
      ensures messages == old(messages) + [Human(text)]
    {
      messages := messages + [Human(text)];
    }

    /** `add_ai_message(text)`. */
    method AddAiMessage(text: string)
      modifies this
      ensures messages == old(messages) + [Ai(text)]
    {
      messages := messages + [Ai(text)];
    }
  }

  /** The audit store, as the sequence of summaries saved to it. */
  class AuditSink {
    var records: seq<AuditRecord>

    constructor ()
      ensures records == []
    {
      records := [];
    }

    /** `save_user_summary(user_id, text, tags={"risk": ...})`. */
    method SaveUserSummary(userId: string, text: string, risk: Risk)
      modifies this
      ensures records == old(records) + [AuditRecord(userId, text, risk)]
    {
      records := records + [AuditRecord(userId, text, risk)];
    }
  }

  /** The audit text of a flagged turn. */
  function RiskSummary(userText: string): (r: string)
    ensures StartsWith(r, "RISK_FLAG: ")
    ensures r[|"RISK_FLAG: "|..] == userText
  {
    "RISK_FLAG: " + userText
  }

  /**
   * The audit text of an answered turn: the time stamp, then at most
   * `ExcerptLength` characters of the question and of the answer.
   */
  function TurnSummary(stamp: string, userText: string, reply: string): string {
    stamp + " | Q: " + Take(userText, ExcerptLength) + " | A: " + Take(reply, ExcerptLength)
  }

  /**
   * The summary opens with the stamp, quotes the first `ExcerptLength`
   * characters of the question and of the answer, and is no longer than
   * those parts and the two labels.
   */
  lemma TurnSummaryQuotes(stamp: string, userText: string, reply: string)
    ensures StartsWith(TurnSummary(stamp, userText, reply), stamp)
    ensures Occurs(Take(userText, ExcerptLength), TurnSummary(stamp, userText, reply))
    ensures Occurs(Take(reply, ExcerptLength), TurnSummary(stamp, userText, reply))
    ensures |TurnSummary(stamp, userText, reply)| <= |stamp| + 2 * ExcerptLength + |" | Q: " + " | A: "|
  {
    var question, answer := Take(userText, ExcerptLength), Take(reply, ExcerptLength);
    var front := stamp + " | Q: " + question + " | A: ";
    var r := TurnSummary(stamp, userText, reply);
    assert r == front + answer;
    assert r[..|stamp|] == stamp;
    assert r[|stamp| + 6..|stamp| + 6 + |question|] == question;
    assert OccursAt(question, r, |stamp| + 6);
    assert r[|front|..|front| + |answer|] == answer;
    assert OccursAt(answer, r, |front|);
  }

  /** A question or answer that fits the excerpt is quoted in full, whatever the other side's length. */
  lemma SummaryQuotesShortTurns(stamp: string, userText: string, reply: string)
    ensures |userText| <= ExcerptLength ==> Occurs(userText, TurnSummary(stamp, userText, reply))
    ensures |reply| <= ExcerptLength ==> Occurs(reply, TurnSummary(stamp, userText, reply))
  {
    TurnSummaryQuotes(stamp, userText, reply);
  }

  /**
   * The messages the session gains from a turn: the user's text, then the
   * reply, less those the fault stops.
   */
  function Appended(fault: AppendFault, userText: string, reply: string): (r: seq<Message>)
    ensures r <= [Human(userText), Ai(reply)]
    ensures fault == NoFault <==> r == [Human(userText), Ai(reply)]
    ensures fault == UserAppendRaises <==> r == []
  {
    match fault
    case NoFault => [Human(userText), Ai(reply)]
    case UserAppendRaises => []
    case AiAppendRaises => [Human(userText)]
  }

  /** The two appends of a turn, inside the `try` that swallows their exceptions. */
  method RecordTurn(session: Session, userText: string, reply: string, fault: AppendFault)
    modifies session
    ensures session.messages == old(session.messages) + Appended(fault, userText, reply)
  {
    if fault == UserAppendRaises {
      return;
    }
    session.AddUserMessage(userText);
    if fault == AiAppendRaises {
      return;
    }
    session.AddAiMessage(reply);
  }

  /** The answer to a flagged turn: the helpline, recorded and audited as high risk. */
  method HelplineTurn(userId: string, userText: string, session: Session, sink: AuditSink, fault: AppendFault)
    returns (reply: string, context: seq<string>)
    modifies session, sink
    ensures reply == Helpline && context == []
    ensures session.messages == old(session.messages) + Appended(fault, userText, Helpline)
    ensures sink.records == old(sink.records) + [AuditRecord(userId, RiskSummary(userText), High)]
  {
    RecordTurn(session, userText, Helpline, fault);
    sink.SaveUserSummary(userId, RiskSummary(userText), High);
    return Helpline, [];
  }

  /**
   * The answer to a turn the gate passed: retrieve, let `cbt_node` ask the
   * model, record the turn and audit it as no risk.
   */
  method AnsweredTurn(userId: string, userText: string, session: Session, sink: AuditSink,
                      lexicon: Safety.Lexicon, retrieve: (string, string) -> seq<string>,
                      generate: string -> string, stamp: string, fault: AppendFault)
    returns (reply: string, context: seq<string>, ghost calls: seq<Call>)
    requires !Safety.LexiconFlags(lexicon, userText)
    modifies session, sink
    ensures context == retrieve(userId, userText)
    ensures
      var prompt := ComposePrompt(userText, DocList(context), Some(old(session.messages)));
      calls == [Retrieve(userId, userText), Generate(prompt)] && reply == generate(prompt)
    ensures session.messages == old(session.messages) + Appended(fault, userText, reply)
    ensures sink.records == old(sink.records) + [AuditRecord(userId, TurnSummary(stamp, userText, reply), NoRisk)]
  {
    context := retrieve(userId, userText);
    calls := [Retrieve(userId, userText)];

    // the gate already passed this text, so `cbt_node` asks the model
    ghost var cbtPrompt;
    reply, cbtPrompt := CbtNode(userText, DocList(context), Some(session.messages), lexicon, generate);
    calls := calls + [Generate(cbtPrompt.value)];

    RecordTurn(session, userText, reply, fault);
    sink.SaveUserSummary(userId, TurnSummary(stamp, userText, reply), NoRisk);
  }

  /**
   * `mental_health_pipeline(user_id, user_text, session_history)`, with the
   * lexicon the gate was loaded with, the retrieval and model calls, the
   * time stamp of the summary and the append that raises, if any. `calls`
   * lists the retrieval and model calls made, in order.
   */
  method MentalHealthPipeline(userId: string, userText: string, session: Session, sink: AuditSink,
                              lexicon: Safety.Lexicon, retrieve: (string, string) -> seq<string>,
                              generate: string -> string, stamp: string, fault: AppendFault)
    returns (reply: string, context: seq<string>, riskFlag: bool, ghost calls: seq<Call>)
    modifies session, sink
    // the flag is the gate's verdict with model confirmation off: the lexicon check
    ensures riskFlag == Safety.LexiconFlags(lexicon, userText)
    // a flagged turn gets the helpline, no documents, and no outside call
    ensures riskFlag ==> reply == Helpline && context == [] && calls == []
    ensures riskFlag ==> sink.records == old(sink.records) + [AuditRecord(userId, RiskSummary(userText), High)]
    // any other turn retrieves, then asks the model once with the prompt
    // composed from the session as it was before this turn
    ensures !riskFlag ==> context == retrieve(userId, userText)
    ensures !riskFlag ==>
      var prompt := ComposePrompt(userText, DocList(context), Some(old(session.messages)));
      calls == [Retrieve(userId, userText), Generate(prompt)] && reply == generate(prompt)
    ensures !riskFlag ==> sink.records == old(sink.records) + [AuditRecord(userId, TurnSummary(stamp, userText, reply), NoRisk)]
    // either way the session gains the turn, whatever the fault
    ensures session.messages == old(session.messages) + Appended(fault, userText, reply)
  {
    riskFlag := Safety.SafetyCheck(lexicon, userText, None);
    if riskFlag {
      reply, context := HelplineTurn(userId, userText, session, sink, fault);
      calls := [];
    } else {
      reply, context, calls := AnsweredTurn(userId, userText, session, sink, lexicon, retrieve, generate, stamp, fault);
    }
  }

  /**
   * Without a configured model backend every turn the gate passes is
   * answered with the placeholder, and that answer is what the session keeps
   * and the audit summary quotes.
   */
  method UnconfiguredBackend(userId: string, userText: string, session: Session, sink: AuditSink,
                             lexicon: Safety.Lexicon, retrieve: (string, string) -> seq<string>, stamp: string)
    returns (reply: string, riskFlag: bool)
    requires !Safety.LexiconFlags(lexicon, userText)
    modifies session, sink
    ensures reply == Placeholder && !riskFlag
    ensures session.messages == old(session.messages) + [Human(userText), Ai(Placeholder)]
    ensures sink.records == old(sink.records) + [AuditRecord(userId, TurnSummary(stamp, userText, Placeholder), NoRisk)]
  {
    var context;
    ghost var calls;
    reply, context, riskFlag, calls := MentalHealthPipeline(userId, userText, session, sink, lexicon, retrieve,
      prompt => Placeholder, stamp, NoFault);
  }
}
