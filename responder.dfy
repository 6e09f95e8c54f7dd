/** The chat widget's reply selector, `generateAIResponse`: a lower-cased
    keyword search over a fixed, ordered table with a first-match-wins policy
    and a random pick among the matched entry's replies (or the default
    replies when no keyword matches). The selector takes its table as a
    parameter; the table the widget uses is the constant `Table` below. */
module Responder {
  import opened Text
  import opened Optional

  /** One table entry: a lower-case keyword and the replies it may produce. */
  datatype Entry = Entry(keyword: string, replies: seq<string>)

  /** The keywords of the built-in table, in declaration order. */
  const Keywords: seq<string> :=
    ["meditation", "soul activation", "chakra", "energy healing", "purpose", "stress", "spiritual"]

  const MeditationReplies: seq<string> := [
    "Meditation is a beautiful practice that connects you with your inner self. Start with just 5-10 minutes daily, focusing on your breath. Find a quiet space, sit comfortably, and gently observe your thoughts without judgment.",
    "Begin your meditation journey by creating a sacred space in your home. Light a candle or use essential oils. Start with guided meditations - there are many wonderful apps and videos available to help you begin.",
    "Meditation isn't about emptying your mind, but about becoming aware of your thoughts. When your mind wanders, gently bring your attention back to your breath. This is the practice - returning to the present moment."
  ]

  const SoulActivationReplies: seq<string> := [
    "Soul activation is the process of awakening your true essence and connecting with your higher purpose. It involves clearing energetic blockages and aligning with your authentic self.",
    "Your soul has always known its purpose. Soul activation helps you remember who you truly are beneath the layers of conditioning and limiting beliefs. It's about coming home to yourself.",
    "Through soul activation, you can access your inner wisdom, increase your intuition, and live a life aligned with your highest potential. It's a journey of self-discovery and empowerment."
  ]

  const ChakraReplies: seq<string> := [
    "Chakras are energy centers in your body that affect your physical, emotional, and spiritual well-being. There are seven main chakras, each associated with different aspects of life.",
    "To balance your chakras, try meditation, yoga, or energy healing. Each chakra responds to different colors, sounds, and affirmations. Start by focusing on one chakra at a time.",
    "Your chakras can become blocked due to stress, trauma, or negative emotions. Regular energy work, meditation, and mindful living can help keep them balanced and flowing freely."
  ]

  const EnergyHealingReplies: seq<string> := [
    "Energy healing works on the subtle energy systems of your body to promote balance and well-being. It can help release emotional blockages and restore your natural energy flow.",
    "There are many forms of energy healing - Reiki, crystal healing, sound therapy, and more. The key is finding a practice that resonates with you and your unique energy.",
    "Energy healing isn't just about fixing problems - it's about creating a deeper connection with yourself and the universal life force energy that flows through all things."
  ]

  const PurposeReplies: seq<string> := [
    "Your life purpose is often found in what brings you joy, what you're naturally good at, and what you feel called to do. Pay attention to what lights you up and makes you feel most alive.",
    "Finding your purpose is a journey, not a destination. It often involves trial and error, self-reflection, and being open to new experiences. Trust that your path will unfold naturally.",
    "Your purpose may evolve over time. What matters most is living authentically and making a positive impact in your own unique way. Listen to your heart and follow your intuition."
  ]

  const StressReplies: seq<string> := [
    "Stress and anxiety are signals from your body that something needs attention. Try deep breathing exercises, meditation, or gentle movement to help calm your nervous system.",
    "Remember that you are not your thoughts or emotions. Practice observing them without judgment, like clouds passing through the sky. This awareness can help you find peace.",
    "Creating a daily self-care routine can help manage stress. This might include meditation, journaling, spending time in nature, or doing something creative that brings you joy."
  ]

  const SpiritualReplies: seq<string> := [
    "Spirituality is about connecting with something greater than yourself - whether that's the universe, nature, or your own inner wisdom. It's a deeply personal journey.",
    "Trust your intuition - it's your soul's way of communicating with you. The more you listen to and follow your inner guidance, the stronger it becomes.",
    "Remember that you are a spiritual being having a human experience. Embrace both the light and shadow aspects of yourself - they all serve your growth and evolution."
  ]

  const DefaultReplies: seq<string> := [
    "That's a wonderful question! I'm here to help guide you on your spiritual journey. Could you tell me more about what specific aspect you'd like to explore?",
    "I sense you're seeking deeper understanding. Trust that the answers you need are already within you. What feels most important to you right now?",
    "Your question touches on something meaningful. Remember, spiritual growth is a journey of self-discovery. What practices or experiences have brought you closer to your authentic self?",
    "I'm here to support your spiritual awakening. Every question is an opportunity for growth. What would you like to explore together today?",
    "Your curiosity is beautiful! The spiritual path is unique for each person. What aspects of your spiritual journey are you most curious about right now?",
    "Thank you for sharing that with me. I believe everyone has their own path to spiritual understanding. What feels like your next step in your journey?",
    "Your question shows wisdom and openness. Remember, there are no wrong questions on the spiritual path. What would help you feel more connected to your authentic self?",
    "I appreciate your openness to learning and growing. Spiritual wisdom often comes through experience and reflection. What practices have you found most helpful so far?"
  ]

  /** The reply table, in declaration order (which is also the order in which
      `Object.entries` yields non-index string keys). */
  const Table: seq<Entry> := [
    Entry("meditation", MeditationReplies),
    Entry("soul activation", SoulActivationReplies),
    Entry("chakra", ChakraReplies),
    Entry("energy healing", EnergyHealingReplies),
    Entry("purpose", PurposeReplies),
    Entry("stress", StressReplies),
    Entry("spiritual", SpiritualReplies)
  ]

  /** The keywords of a table, in table order. */
  function KeywordsOf(table: seq<Entry>): (ks: seq<string>)
    ensures |ks| == |table| && forall i :: 0 <= i < |table| ==> ks[i] == table[i].keyword
  {
    seq(|table|, i requires 0 <= i < |table| => table[i].keyword)
  }

  /** A table whose every entry has at least one reply. */
  predicate WellFormed(table: seq<Entry>) {
    forall i :: 0 <= i < |table| ==> |table[i].replies| > 0
  }

  /** The built-in configuration: seven entries, each with three replies,
      keyed by `Keywords` in that order, and eight default replies. */
  lemma BuiltInTable()
    ensures |Table| == 7 && KeywordsOf(Table) == Keywords
    ensures forall i :: 0 <= i < |Table| ==> |Table[i].replies| == 3
    ensures WellFormed(Table) && |DefaultReplies| == 8
  {
    assert |Table[0].replies| == 3;
  }

  /** Every built-in keyword is lower case, so lower-casing the message is
      enough to make the match case-insensitive. */
  lemma KeywordsLowerCase()
    ensures forall i :: 0 <= i < |Keywords| ==> ToLower(Keywords[i]) == Keywords[i]
  {
    forall i | 0 <= i < |Keywords| ensures ToLower(Keywords[i]) == Keywords[i] {
      LowerCaseFixed(Keywords[i]);
    }
  }

  /** `Math.floor(r * n)` for a random `r` in [0, 1): always a valid index. */
  function ChooseIndex(r: real, n: nat): (i: nat)
    requires 0.0 <= r < 1.0 && 0 < n
    ensures i < n
  {
    assert r * (n as real) < n as real;
    (r * (n as real)).Floor
  }

  /** No reply is unreachable: index `j` is chosen when the random source
      yields `j / n`. */
  lemma EveryIndexReachable(n: nat, j: nat)
    requires j < n
    ensures 0.0 <= (j as real) / (n as real) < 1.0
    ensures ChooseIndex((j as real) / (n as real), n) == j
  {
  }

  /** `replies[Math.floor(Math.random() * replies.length)]`. */
  function Pick(replies: seq<string>, r: real): (reply: string)
    requires 0 < |replies| && 0.0 <= r < 1.0
    ensures reply in replies
  {
    replies[ChooseIndex(r, |replies|)]
  }

  /** The index of the first keyword, in table order, that occurs in the
      (lower-cased) message; `None` when no keyword occurs. */
  function FirstMatch(keywords: seq<string>, lower: string): (m: Option<nat>)
    ensures m.Some? ==> m.value < |keywords| && Includes(lower, keywords[m.value])
    ensures m.Some? ==> forall j :: 0 <= j < m.value ==> !Includes(lower, keywords[j])
    ensures m.None? <==> forall j :: 0 <= j < |keywords| ==> !Includes(lower, keywords[j])
  {
    if |keywords| == 0 then None
    else if Includes(lower, keywords[0]) then Some(0)
    else match FirstMatch(keywords[1..], lower)
      case None => None
      case Some(i) => Some(i + 1)
  }

  /** The replies the selector chooses among for `message`. */
  function Candidates(table: seq<Entry>, defaults: seq<string>, message: string): seq<string> {
    match FirstMatch(KeywordsOf(table), ToLower(message))
    case Some(i) => table[i].replies
    case None => defaults
  }

  /** The reply `generateAIResponse(message)` gives when the random source
      yields `r`. */
  function Reply(table: seq<Entry>, defaults: seq<string>, message: string, r: real): (reply: string)
    requires WellFormed(table) && 0 < |defaults| && 0.0 <= r < 1.0
    ensures reply in Candidates(table, defaults, message)
  {
    Pick(Candidates(table, defaults, message), r)
  }

  /** `generateAIResponse`: lower-case the message, walk the table in order and
      answer from the first entry whose keyword the message contains, or from
      the default replies when none does. */
  method GenerateAIResponse(table: seq<Entry>, defaults: seq<string>, userMessage: string, r: real)
    returns (reply: string)
    requires WellFormed(table) && 0 < |defaults| && 0.0 <= r < 1.0
    ensures reply == Reply(table, defaults, userMessage, r)
  {
    var lowerMessage := ToLower(userMessage);
    var i := 0;
    while i < |table|
      invariant 0 <= i <= |table|
      invariant forall j :: 0 <= j < i ==> !Includes(lowerMessage, table[j].keyword)
    {
      if Includes(lowerMessage, table[i].keyword) {
        return Pick(table[i].replies, r);
      }
      i := i + 1;
    }
    return Pick(defaults, r);
  }

  /** First-match precedence: when entry `i` is the first entry whose keyword
      the lower-cased message contains, the reply comes from entry `i`, even
      if later keywords occur too, and wherever they sit in the message. */
  lemma FirstMatchWins(table: seq<Entry>, defaults: seq<string>, message: string, i: nat)
    requires i < |table| && Includes(ToLower(message), table[i].keyword)
    requires forall j :: 0 <= j < i ==> !Includes(ToLower(message), table[j].keyword)
    ensures Candidates(table, defaults, message) == table[i].replies
  {
  }

  /** Without any keyword the reply is a default one; in particular the
      selector is total, the empty message included. */
  lemma NoMatchUsesDefaults(table: seq<Entry>, defaults: seq<string>, message: string)
    requires forall j :: 0 <= j < |table| ==> !Includes(ToLower(message), table[j].keyword)
    ensures Candidates(table, defaults, message) == defaults
  {
  }

  /** Matching ignores letter case: messages equal up to case select among
      the same replies. */
  lemma CaseInsensitive(table: seq<Entry>, defaults: seq<string>, a: string, b: string)
    requires SameIgnoringCase(a, b)
    ensures Candidates(table, defaults, a) == Candidates(table, defaults, b)
  {
    SameIgnoringCaseIff(a, b);
  }

  /** A keyword typed in any letter case selects its entry, provided no
      earlier keyword occurs in the message. */
  lemma KeywordInAnyCase(table: seq<Entry>, defaults: seq<string>, message: string, w: string, i: nat)
    requires i < |table| && ToLower(w) == table[i].keyword && Includes(message, w)
    requires forall j :: 0 <= j < i ==> !Includes(ToLower(message), table[j].keyword)
    ensures Candidates(table, defaults, message) == table[i].replies
  {
    IncludesLowered(message, w);
  }

  /** The entry of the built-in table that answers `message`, if any. */
  function Selected(message: string): Option<nat> {
    FirstMatch(Keywords, ToLower(message))
  }

  /** The built-in widget answers from the entry `Selected` names, or from
      the default replies. */
  lemma SelectedAnswers(message: string)
    ensures Selected(message).Some? ==>
      Selected(message).value < |Table| && Candidates(Table, DefaultReplies, message) == Table[Selected(message).value].replies
    ensures Selected(message).None? ==> Candidates(Table, DefaultReplies, message) == DefaultReplies
  {
    BuiltInTable();
  }

  /** "meditation" is the first built-in keyword, so any message that
      contains it, in any case, is answered from the meditation entry. */
  lemma MeditationAlwaysWins(message: string)
    requires Includes(ToLower(message), "meditation")
    ensures Selected(message) == Some(0)
  {
  }
}
