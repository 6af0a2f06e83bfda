/**
 * The text-chat endpoint of the backend (`POST /chat/`): the message is
 * stripped of surrounding whitespace, an empty message is refused with
 * status 400, a message naming a crisis keyword (in any letter case) is
 * answered with a fixed helpline text without consulting the language
 * model, and any other message is answered by the model, whose failure
 * becomes status 500.
 *
 * The language model is an input: a function from the user's stripped
 * message to either the generated text or a raised exception.
 */
module ChatRoutes {
  import opened Strings

  const CrisisKeywords: seq<string> :=
    ["suicide", "end my life", "kill myself", "self-harm", "harm myself"]

  const HelplineText: string :=
    "It sounds like you're going through a very difficult time. "
    + "Please know that help is available immediately. "
    + "You can reach the ICall Helpline at 9152987821, "
    + "or contact your college's on-campus emergency services."

  const NoMessageDetail: string := "No message provided"
  const ChatErrorDetail: string := "Chat processing error"

  /** What `generate_content` did with the message. */
  datatype ModelResult = Generated(text: string) | Raised

  /** The endpoint's answer: a JSON body `{"text": ...}`, or an
      `HTTPException` with its status code and detail. */
  datatype ChatResponse = Reply(text: string) | HttpError(status: nat, detail: string)

  /** `any(keyword in text for keyword in keywords)` */
  function AnyKeyword(text: string, keywords: seq<string>): bool
  {
    keywords != [] && (Contains(text, keywords[0]) || AnyKeyword(text, keywords[1..]))
  }

  /** The lowered message contains one of the crisis keywords. */
  predicate IsCrisis(userMessage: string)
  {
    AnyKeyword(Lower(userMessage), CrisisKeywords)
  }

  /** `chat(request)` for a request whose message is `message`. */
  function Chat(message: string, model: string -> ModelResult): ChatResponse
  {
    var userMessage := Strip(message);
    if userMessage == [] then HttpError(400, NoMessageDetail)
    else if IsCrisis(userMessage) then Reply(HelplineText)
    else match model(userMessage)
      case Generated(text) => Reply(text)
      case Raised => HttpError(500, ChatErrorDetail)
  }

  // ---------------------------------------------------------------------
  // Properties
  // ---------------------------------------------------------------------

  /** The keyword test holds exactly when some keyword occurs in the text. */
  lemma {:induction false} AnyKeywordIff(text: string, keywords: seq<string>)
    ensures AnyKeyword(text, keywords)
            <==> exists k :: 0 <= k < |keywords| && Contains(text, keywords[k])
    decreases |keywords|
  {
    if keywords != [] {
      AnyKeywordIff(text, keywords[1..]);
      if AnyKeyword(text, keywords[1..]) {
        var k :| 0 <= k < |keywords[1..]| && Contains(text, keywords[1..][k]);
        assert Contains(text, keywords[k + 1]);
      }
      if exists k :: 0 <= k < |keywords| && Contains(text, keywords[k]) {
        var k :| 0 <= k < |keywords| && Contains(text, keywords[k]);
        if k > 0 {
          assert keywords[1..][k - 1] == keywords[k];
        }
      }
    }
  }

  /** A message that is empty or all whitespace is refused with 400, and
      only such a message is. */
  lemma BlankMessageRefused(message: string, model: string -> ModelResult)
    ensures Chat(message, model) == HttpError(400, NoMessageDetail) <==> AllSpace(message)
    ensures (Chat(message, model).HttpError? && Chat(message, model).status == 400)
            <==> AllSpace(message)
  {
    StripEmptyIffAllSpace(message);
  }

  /** A message naming a crisis keyword gets the helpline text, whatever
      the model would have said (the model is not consulted). */
  lemma CrisisAnswersWithHelpline(message: string, model: string -> ModelResult,
                                  other: string -> ModelResult)
    requires !AllSpace(message) && IsCrisis(Strip(message))
    ensures Chat(message, model) == Reply(HelplineText)
    ensures Chat(message, model) == Chat(message, other)
  {
    StripEmptyIffAllSpace(message);
  }

  /** Any other message is answered by the model: its text is returned
      as is, and an exception becomes a 500 with a fixed detail. */
  lemma OtherwiseTheModelAnswers(message: string, model: string -> ModelResult, text: string)
    requires !AllSpace(message) && !IsCrisis(Strip(message))
    ensures Chat(message, model) == Reply(text) <==> model(Strip(message)) == Generated(text)
    ensures Chat(message, model) == HttpError(500, ChatErrorDetail)
            <==> model(Strip(message)) == Raised
  {
    StripEmptyIffAllSpace(message);
  }

  /** Surrounding whitespace never changes the answer, and the model only
      ever sees the stripped message. */
  lemma SurroundingSpaceIgnored(message: string, model: string -> ModelResult,
                                other: string -> ModelResult)
    ensures Chat(message, model) == Chat(Strip(message), model)
    ensures model(Strip(message)) == other(Strip(message))
            ==> Chat(message, model) == Chat(message, other)
  {
    StripIdempotent(message);
  }

  /** The characters the keywords are made of. */
  predicate PlainChar(c: char)
  {
    'a' <= c <= 'z' || c == ' ' || c == '-'
  }

  lemma PlainCharLower(c: char)
    requires PlainChar(c)
    ensures LowerChar(c) == [c]
  {
  }

  /** A word of lower-case letters, spaces and hyphens that starts and
      ends with a letter lowers to itself. */
  lemma PlainLowerWord(w: string)
    requires w != [] && 'a' <= w[0] <= 'z' && 'a' <= w[|w| - 1] <= 'z'
    requires forall c :: c in w ==> PlainChar(c)
    ensures Lower(w) == w && !IsSpace(w[0]) && !IsSpace(w[|w| - 1])
  {
    forall k | 0 <= k < |w| ensures LowerChar(w[k]) == [w[k]] {
      assert w[k] in w;
      PlainCharLower(w[k]);
    }
    LowerFixed(w);
  }

  /** A keyword is lower case, non-empty, and starts and ends with a
      letter. */
  ghost predicate PlainKeyword(w: string)
  {
    Lower(w) == w && w != [] && !IsSpace(w[0]) && !IsSpace(w[|w| - 1])
  }

  // One lemma per keyword: a single literal per proof keeps the solver's cost low.
  lemma SuicideIsPlain() ensures PlainKeyword("suicide") { PlainLowerWord("suicide"); }
  lemma EndMyLifeIsPlain() ensures PlainKeyword("end my life") { PlainLowerWord("end my life"); }
  lemma KillMyselfIsPlain() ensures PlainKeyword("kill myself") { PlainLowerWord("kill myself"); }
  lemma SelfHarmIsPlain() ensures PlainKeyword("self-harm") { PlainLowerWord("self-harm"); }
  lemma HarmMyselfIsPlain() ensures PlainKeyword("harm myself") { PlainLowerWord("harm myself"); }

  /** Every crisis keyword is already lower case, so lowering the message
      alone makes the test case-insensitive. */
  lemma KeywordsAreLower()
    ensures forall w :: w in CrisisKeywords ==> PlainKeyword(w)
  {
    forall w | w in CrisisKeywords ensures PlainKeyword(w) {
      if w == "suicide" { SuicideIsPlain(); }
      else if w == "end my life" { EndMyLifeIsPlain(); }
      else if w == "kill myself" { KillMyselfIsPlain(); }
      else if w == "self-harm" { SelfHarmIsPlain(); }
      else { assert w == "harm myself"; HarmMyselfIsPlain(); }
    }
  }

  /** A keyword found in the text makes the test succeed. */
  lemma KeywordFound(text: string, keywords: seq<string>, w: string)
    requires w in keywords && Contains(text, w)
    ensures AnyKeyword(text, keywords)
  {
    var k :| 0 <= k < |keywords| && keywords[k] == w;
    AnyKeywordIff(text, keywords);
  }

  /** Case-insensitive detection: a message in which some word occurs
      that lowers to a crisis keyword (`Suicide`, `KILL MYSELF`, ...)
      gets the helpline text, wherever the word stands. */
  lemma CrisisInAnyCase(message: string, w: string, p: int, model: string -> ModelResult)
    requires OccursAt(message, w, p)
    requires Lower(w) in CrisisKeywords
    ensures Chat(message, model) == Reply(HelplineText)
  {
    var um := Strip(message);
    WordSurvivesStrip(message, w, p);
    ContainsIff(um, w);
    var q :| OccursAt(um, w, q);
    LowerPreservesOccurrence(um, w, q);
    KeywordFound(Lower(um), CrisisKeywords, Lower(w));
  }

  /** A word lowering to a keyword starts and ends with non-whitespace,
      so stripping the message keeps it. */
  lemma WordSurvivesStrip(message: string, w: string, p: int)
    requires OccursAt(message, w, p)
    requires Lower(w) in CrisisKeywords
    ensures Strip(message) != [] && Contains(Strip(message), w)
  {
    KeywordsAreLower();
    assert PlainKeyword(Lower(w));
    assert w != [];
    LowerEnds(w);
    OccurrenceSurvivesStrip(message, w, p);
    assert message[p] == w[0];
  }
}
