/**
 * The lexical safety gate (`safety_check_node`). The input is lower-cased
 * and reported as high-risk when a phrase of the lexicon's `self_harm` list
 * occurs in it as a substring. An optional step, off by default, asks the
 * language model a YES/NO question when no phrase matched.
 *
 * The gate is a function: it has no side effects and depends only on the
 * text, the confirmation setting and the lexicon.
 */
module Safety {
  import opened Wrappers
  import opened Text

  /** A risk lexicon: category name to its list of trigger phrases. */
  type Lexicon = map<string, seq<string>>

  const SelfHarm: string := "self_harm"

  /** The lexicon the gate uses when no lexicon document overrides it. */
  const DefaultLexicon: Lexicon := map[SelfHarm := [
    "kill myself",
    "want to die",
    "suicide",
    "end my life",
    "hang myself",
    "cut myself",
    "ending it all"
  ]]

  /** `lexicon.get("self_harm", [])`. */
  function Phrases(lexicon: Lexicon): seq<string> {
    if SelfHarm in lexicon then lexicon[SelfHarm] else []
  }

  /** The scan over the phrases, which returns on the first one found in `text`. */
  function AnyPhraseIn(phrases: seq<string>, text: string): (r: bool)
    ensures r <==> exists i :: 0 <= i < |phrases| && Occurs(phrases[i], text)
    decreases |phrases|
  {
    if phrases == [] then false
    else
      var rest := AnyPhraseIn(phrases[1..], text);
      assert forall i :: 0 < i < |phrases| ==> phrases[i] == phrases[1..][i - 1];
      Occurs(phrases[0], text) || rest
  }

  /** The lexicon half of the gate: a `self_harm` phrase occurs in the lower-cased text. */
  predicate LexiconFlags(lexicon: Lexicon, text: string) {
    AnyPhraseIn(Phrases(lexicon), Lower(text))
  }

  /** The question put to the model when confirmation is enabled. */
  function ConfirmationPrompt(text: string): string {
    "Does the following message indicate current intent to self-harm? Answer YES or NO.\nMessage: " + text
  }

  /**
   * What a model call gives back: the content of its reply (the empty
   * string when the reply carries none), or an exception.
   */
  datatype ModelReply = Answered(content: string) | Raised

  /** `answer.strip().lower().startswith("yes")`. */
  predicate Affirmative(answer: string) {
    StartsWith(Lower(Strip(answer)), "yes")
  }

  /** Whether a model reply confirms the risk; a failed call never does. */
  predicate Confirms(reply: ModelReply) {
    match reply
    case Answered(answer) => Affirmative(answer)
    case Raised => false
  }

  /** The confirmation step: ask `ask` about `text` and read its reply. */
  predicate ModelConfirms(ask: string -> ModelReply, text: string) {
    Confirms(ask(ConfirmationPrompt(text)))
  }

  /**
   * `safety_check_node(text, use_llm_confirmation)`. `confirm` is `None`
   * when confirmation is off, which is the default, and otherwise the model
   * to ask.
   */
  function SafetyCheck(lexicon: Lexicon, text: string, confirm: Option<string -> ModelReply>): (r: bool)
    // a phrase match decides, whatever the model would answer
    ensures LexiconFlags(lexicon, text) ==> r
    // with confirmation off the gate is the lexicon check and nothing else
    ensures confirm.None? ==> (r <==> exists i :: 0 <= i < |Phrases(lexicon)| && Occurs(Phrases(lexicon)[i], Lower(text)))
    ensures confirm.None? && SelfHarm !in lexicon ==> !r
    // otherwise the model's answer decides, and a failed call is "no risk"
    ensures confirm.Some? && !LexiconFlags(lexicon, text) ==> (r <==> ModelConfirms(confirm.value, text))
  {
    if LexiconFlags(lexicon, text) then true
    else
      match confirm
      case None => false
      case Some(ask) => ModelConfirms(ask, text)
  }

  /**
   * Only the input is lower-cased: a lexicon whose phrases all hold an
   * upper-case letter never flags anything.
   */
  lemma UppercasePhrasesNeverMatch(lexicon: Lexicon, text: string)
    requires forall i :: 0 <= i < |Phrases(lexicon)| ==>
      exists k :: 0 <= k < |Phrases(lexicon)[i]| && IsUpper(Phrases(lexicon)[i][k])
    ensures !SafetyCheck(lexicon, text, None)
  {
    forall i | 0 <= i < |Phrases(lexicon)|
      ensures !Occurs(Phrases(lexicon)[i], Lower(text))
    {
      UppercaseNeverOccursInLower(Phrases(lexicon)[i], text);
    }
  }

  /**
   * A model answer that, after leading whitespace, opens with "yes" in any
   * letter case counts as a confirmation.
   */
  lemma AffirmativeAfterWhitespace(padding: string, reply: string)
    requires AllSpace(padding)
    requires |reply| >= 3 && Lower(reply[..3]) == "yes"
    ensures Affirmative(padding + reply)
  {
    assert Lower(reply[..3])[0] == 'y' && Lower(reply[..3])[2] == 's';
    StripKeepsFront(padding, reply, 3);
    var stripped := Strip(padding + reply);
    assert Lower(stripped)[..3] == Lower(stripped[..3]);
  }

  /** With the default lexicon, "I want to kill myself" is flagged. */
  lemma DefaultLexiconFlagsKillMyself()
    ensures SafetyCheck(DefaultLexicon, "I want to kill myself", None)
  {
    assert Phrases(DefaultLexicon)[0] == "kill myself";
    assert OccursAt("kill myself", Lower("I want to kill myself"), 10);
  }

  /**
   * No phrase matches when each phrase holds a character the text lacks;
   * `missing[i]` names that character for phrase `i`.
   */
  lemma NoPhraseIn(phrases: seq<string>, text: string, missing: string)
    requires |missing| == |phrases|
    requires forall i :: 0 <= i < |phrases| ==> missing[i] in phrases[i] && missing[i] !in text
    ensures !AnyPhraseIn(phrases, text)
  {
    forall i | 0 <= i < |phrases|
      ensures !Occurs(phrases[i], text)
    {
      MissingCharNoOccurrence(phrases[i], text, missing[i]);
    }
  }

  /** With the default lexicon, "I had a rough day at work" is not flagged. */
  lemma DefaultLexiconPassesRoughDay()
    ensures !SafetyCheck(DefaultLexicon, "I had a rough day at work", None)
  {
    LowerRoughDay();
    NoDefaultPhraseInRoughDay();
  }

  lemma LowerRoughDay()
    ensures Lower("I had a rough day at work") == "i had a rough day at work"
  {
    assert LowerChar('I') == 'i';
  }

  lemma NoDefaultPhraseInRoughDay()
    ensures !AnyPhraseIn(Phrases(DefaultLexicon), "i had a rough day at work")
  {
    // 'l' is missing for "kill myself", 'n' for "want to die", and so on
    NoPhraseIn(Phrases(DefaultLexicon), "i had a rough day at work", "lnsence");
  }
}
