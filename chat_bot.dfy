/** Ayu, the chat companion: the keyword classifier that picks a scripted
    reply, the reply itself, and the conversation state (opening greeting,
    sending a message, delivering the answer). */
module ChatBot {
  import opened Wrappers
  import opened Text

  /** The scripted reply groups, in the order the classifier tries them. */
  datatype Topic = Anxiety | Sleep | Healing | Shop | Feeling | Tips

  const Order: seq<Topic> := [Anxiety, Sleep, Healing, Shop, Feeling, Tips]

  /** A topic's place in `Order`. */
  function Rank(t: Topic): (k: nat)
    ensures k < |Order| && Order[k] == t
  {
    match t
    case Anxiety => 0
    case Sleep => 1
    case Healing => 2
    case Shop => 3
    case Feeling => 4
    case Tips => 5
  }

  /** The words whose presence in the lower-cased input selects a topic. */
  function Keywords(t: Topic): seq<string> {
    match t
    case Anxiety => ["anxiety", "stress", "overwhelmed", "worried"]
    case Sleep => ["sleep", "insomnia", "tired", "rest"]
    case Healing => ["healing", "healer", "therapy", "counseling"]
    case Shop => ["product", "buy", "shop", "wellness"]
    case Feeling => ["feeling", "day", "mood", "how are you"]
    case Tips => ["tip", "advice", "wellness", "help"]
  }

  /** Some keyword of `t` occurs in `s`. */
  predicate Mentions(s: string, t: Topic) {
    exists i :: 0 <= i < |Keywords(t)| && Contains(s, Keywords(t)[i])
  }

  /** The first of `topics` that `s` mentions, as an index. */
  function FirstMatch(s: string, topics: seq<Topic>): (r: Option<nat>)
    ensures r.Some? ==> r.value < |topics| && Mentions(s, topics[r.value])
    ensures r.Some? ==> forall j :: 0 <= j < r.value ==> !Mentions(s, topics[j])
    ensures r.None? ==> forall j :: 0 <= j < |topics| ==> !Mentions(s, topics[j])
  {
    if topics == [] then None
    else if Mentions(s, topics[0]) then Some(0)
    else match FirstMatch(s, topics[1..])
      case None => None
      case Some(k) => Some(k + 1)
  }

  /** The if/else-if chain over `userInput.toLowerCase()`: the first topic, in
      `Order`, one of whose keywords the input contains. */
  function Classify(input: string): (r: Option<Topic>)
    ensures r.Some? ==> Mentions(LowerStr(input), r.value)
    ensures r.Some? ==> forall u :: Rank(u) < Rank(r.value) ==> !Mentions(LowerStr(input), u)
    ensures r.None? ==> forall u :: !Mentions(LowerStr(input), u)
  {
    var s := LowerStr(input);
    match FirstMatch(s, Order)
    case None =>
      assert forall u :: !Mentions(s, u) by {
        forall u ensures !Mentions(s, u) {
          assert Order[Rank(u)] == u;
        }
      }
      None
    case Some(k) =>
      assert forall u :: Order[Rank(u)] == u;
      assert Rank(Order[k]) == k;
      Some(Order[k])
  }

  /** `s.includes(sub)` holds once `sub` is found at some offset. */
  lemma {:induction false} ContainsAt(s: string, sub: string, k: nat)
    requires k <= |s| && sub <= s[k..]
    ensures Contains(s, sub)
  {
    if k > 0 {
      assert s[1..][k - 1..] == s[k..];
      ContainsAt(s[1..], sub, k - 1);
    }
  }

  /** An input mentioning "wellness" always gets a scripted reply, and never
      the tips reply: the shop branch, tried earlier, takes it. The "wellness"
      keyword of the tips branch can never decide the outcome. */
  lemma WellnessNeverTips(input: string)
    requires Contains(LowerStr(input), "wellness")
    ensures Classify(input).Some?
    ensures Classify(input) != Some(Feeling) && Classify(input) != Some(Tips)
  {
    assert Keywords(Shop)[3] == "wellness";
    assert Mentions(LowerStr(input), Shop);
  }

  /** Lower-casing twice is lower-casing once. */
  lemma LowerStrIdempotent(s: string)
    ensures LowerStr(LowerStr(s)) == LowerStr(s)
  {
    var once := LowerStr(s);
    forall i | 0 <= i < |s| ensures LowerStr(once)[i] == once[i] {
      assert once[i] == Lower(s[i]);
    }
  }

  /** The classifier ignores case: an input and its lower-cased form get the
      same topic. */
  lemma ClassifyIgnoresCase(input: string)
    ensures Classify(LowerStr(input)) == Classify(input)
  {
    LowerStrIdempotent(input);
  }

  // ----- replies ------------------------------------------------------------

  datatype Sender = User | Ayu

  /** A message's text. The user's text is kept as typed (trimmed); Ayu's
      texts are named by the script they come from. */
  datatype Said =
    | Typed(text: string)
    | Greeting              // the opening message
    | Scripted(topic: Topic) // the reply for a recognised topic
    | ServerText(text: string)
    | DefaultText            // "I understand! Let me help you with that!"
    | Hiccup                 // the reply when the chat service cannot be reached

  datatype Recommendation =
    | HealerPick(name: string, specialty: string)
    | ProductPick(name: string, price: string)

  datatype Message = Message(id: string, said: Said, sender: Sender,
                             suggestions: seq<string>, recommendations: seq<Recommendation>)

  /** What the chat service gave back: nothing usable (the request or its
      body failed) or a body whose `response.message` may be absent. */
  datatype ServerAnswer = Unreachable | Answered(message: Option<string>)

  function Suggestions(t: Topic): (r: seq<string>)
    ensures |r| == 4
  {
    match t
    case Anxiety => ["Show me anxiety specialists \U{1F338}", "Meditation techniques \U{1F9D8}\U{200D}\U{2640}\U{FE0F}",
                     "Calming products \U{1F56F}\U{FE0F}", "Breathing exercises \U{1F32C}\U{FE0F}"]
    case Sleep => ["Sleep specialists \U{1F319}", "Yoga Nidra sessions \U{1F9D8}\U{200D}\U{2640}\U{FE0F}",
                   "Natural sleep aids \U{1F33F}", "Bedtime routines \U{1F4A4}"]
    case Healing => ["Browse all healers \U{1F33F}", "Energy healing \U{1F52E}",
                     "Talk therapy \U{1F4AC}", "Spiritual guidance \U{2728}"]
    case Shop => ["Show all products \U{1F31F}", "Herbal supplements \U{1F33F}",
                  "Essential oils \U{1F338}", "Healing crystals \U{1F48E}"]
    case Feeling => ["I'm feeling great! \U{1F60A}", "Having a tough day \U{1F499}",
                     "Need some encouragement \U{1F31F}", "Want to share more \U{1F4AC}"]
    case Tips => ["More wellness tips \U{1F33F}", "Daily routines \U{1F305}",
                  "Self-care ideas \U{1F486}\U{200D}\U{2640}\U{FE0F}", "Mindfulness practices \U{1F9D8}\U{200D}\U{2640}\U{FE0F}"]
  }

  /** Only the anxiety reply recommends anything: a healer and a product. */
  function Recommendations(t: Topic): (r: seq<Recommendation>)
    ensures r != [] <==> t == Anxiety
  {
    if t == Anxiety then
      [HealerPick("Dr. Sarah Chen - Anxiety Specialist", "Mindfulness & Stress Relief"),
       ProductPick("Lavender Calm Blend", "\U{20B9}299")]
    else []
  }

  const HiccupSuggestions: seq<string> :=
    ["Find a healer \U{1F33F}", "Browse products \U{1F6CD}\U{FE0F}", "Wellness tips \U{2728}", "Try again \U{1F504}"]

  /** `generateAyuResponse(userInput)`, with `now` standing for `Date.now()`.
      A recognised topic overrides whatever the service said; otherwise the
      service's message is shown when it is a non-empty string, else the
      default line. A failed request gives the hiccup reply. */
  function GenerateReply(input: string, answer: ServerAnswer, now: int): (m: Message)
    ensures m.sender == Ayu && m.id == "ayu_" + IntToDecimal(now)
    ensures answer.Unreachable? ==>
      m.said == Hiccup && m.suggestions == HiccupSuggestions && m.recommendations == []
    ensures answer.Answered? && Classify(input).Some? ==>
      && m.said == Scripted(Classify(input).value)
      && |m.suggestions| == 4
      && (m.recommendations != [] <==> Classify(input) == Some(Anxiety))
    ensures answer.Answered? && Classify(input).None? ==>
      && m.suggestions == [] && m.recommendations == []
      && m.said == (if answer.message.Some? && answer.message.value != "" then ServerText(answer.message.value)
                    else DefaultText)
  {
    var id := "ayu_" + IntToDecimal(now);
    match answer
    case Unreachable => Message(id, Hiccup, Ayu, HiccupSuggestions, [])
    case Answered(msg) =>
      match Classify(input)
      case Some(t) => Message(id, Scripted(t), Ayu, Suggestions(t), Recommendations(t))
      case None =>
        var said := if msg.Some? && msg.value != "" then ServerText(msg.value) else DefaultText;
        Message(id, said, Ayu, [], [])
  }

  /** The quick-action button "Wellness Tips" sends this text. */
  const TipsAction: string := "Give me some wellness tips for today"

  /** The tips quick action never gets the tips reply. */
  lemma TipsActionNeverTips()
    ensures Classify(TipsAction).Some? && Classify(TipsAction) != Some(Tips)
  {
    var head, w, tail := "Give me some ", "wellness", " tips for today";
    assert TipsAction == head + w + tail;
    assert TipsAction[13..21] == w;
    LowerWordAt(TipsAction, 13, w);
    ContainsAt(LowerStr(TipsAction), w, 13);
    WellnessNeverTips(TipsAction);
  }

  /** A word with no capital letters found in a text is found, unchanged, in
      its lower-cased form. */
  lemma LowerWordAt(s: string, k: nat, w: string)
    requires k + |w| <= |s| && s[k..k + |w|] == w
    requires forall i :: 0 <= i < |w| ==> !('A' <= w[i] <= 'Z')
    ensures w <= LowerStr(s)[k..]
  {
    var low := LowerStr(s);
    forall i | 0 <= i < |w| ensures low[k..][i] == w[i] {
      assert s[k + i] == w[i];
    }
  }

  // ----- the conversation ---------------------------------------------------

  const InitialMessage: Message := Message("initial", Greeting, Ayu,
    ["\U{1F33F} Find a Healer", "\U{1F6CD}\U{FE0F} Shop Products", "\U{2728} Wellness Tips", "How are you feeling today? \U{1F60A}"], [])

  function UserMessage(text: string, now: int): Message {
    Message("user_" + IntToDecimal(now), Typed(text), User, [], [])
  }

  /** A message the user sent carries typed text that is not empty and
      neither starts nor ends with white space. */
  predicate UserTextShown(m: Message) {
    m.sender == User ==>
      && m.said.Typed? && m.said.text != []
      && !IsSpace(m.said.text[0]) && !IsSpace(m.said.text[|m.said.text| - 1])
  }

  predicate UserTextsShown(ms: seq<Message>) {
    forall i :: 0 <= i < |ms| ==> UserTextShown(ms[i])
  }

  /** Appending a message that keeps the rule keeps it for the conversation. */
  lemma AppendShown(ms: seq<Message>, m: Message)
    requires UserTextsShown(ms) && UserTextShown(m)
    ensures UserTextsShown(ms + [m])
  {
    forall i | 0 <= i < |ms + [m]| ensures UserTextShown((ms + [m])[i]) {
      if i < |ms| { assert (ms + [m])[i] == ms[i]; }
    }
  }

  class Chat {
    var isOpen: bool
    var messages: seq<Message>
    var inputValue: string
    var isTyping: bool

    /** Every message the user sent shows its trimmed, non-empty text. */
    predicate Valid()
      reads this
    {
      UserTextsShown(messages)
    }

    constructor ()
      ensures Valid()
      ensures !isOpen && messages == [] && inputValue == "" && !isTyping
    {
      isOpen := false;
      messages := [];
      inputValue := "";
      isTyping := false;
    }

    /** Opening or closing the window; opening an empty conversation shows
        the greeting. */
    method SetOpen(open: bool)
      requires Valid()
      modifies this`isOpen, this`messages
      ensures Valid()
      ensures isOpen == open
      ensures messages == if open && old(messages) == [] then [InitialMessage] else old(messages)
    {
      isOpen := open;
      if open && messages == [] {
        messages := [InitialMessage];
      }
    }

    /** `handleSendMessage(text)`: blank text is ignored; otherwise the trimmed
        text is appended as the user's message, the input is cleared and Ayu
        starts typing. `pending` is the text Ayu will answer. */
    method SendMessage(text: string, now: int) returns (pending: Option<string>)
      requires Valid()
      modifies this`messages, this`inputValue, this`isTyping
      ensures Valid()
      ensures IsBlank(text) ==>
        pending == None && messages == old(messages) && inputValue == old(inputValue) && isTyping == old(isTyping)
      ensures !IsBlank(text) ==>
        && pending == Some(Trim(text))
        && messages == old(messages) + [UserMessage(Trim(text), now)]
        && inputValue == "" && isTyping
    {
      if IsBlank(text) {
        pending := None;
      } else {
        var m := UserMessage(Trim(text), now);
        UserMessageShown(text, now);
        AppendShown(messages, m);
        messages := messages + [m];
        inputValue := "";
        isTyping := true;
        pending := Some(Trim(text));
      }
    }

    /** The delayed callback: Ayu's answer to `input` is appended and the
        typing indicator stops. */
    method Deliver(input: string, answer: ServerAnswer, now: int)
      requires Valid()
      modifies this`messages, this`isTyping
      ensures Valid()
      ensures messages == old(messages) + [GenerateReply(input, answer, now)]
      ensures !isTyping
    {
      AppendShown(messages, GenerateReply(input, answer, now));
      messages := messages + [GenerateReply(input, answer, now)];
      isTyping := false;
    }
  }

  /** The message made from a non-blank input keeps the conversation rule. */
  lemma UserMessageShown(text: string, now: int)
    requires !IsBlank(text)
    ensures UserTextShown(UserMessage(Trim(text), now))
  {
    TrimNotBlank(text);
  }
}
