/** The reply selector on the example messages of the chat widget: which
    entry of the built-in table answers them. Each example is proved in two
    steps: a lemma about every message that lacks, in the right places, a
    letter of each earlier keyword and carries the expected keyword at a
    known position; then the example message itself, which meets those
    conditions. */
module ResponderScenarios {
  import opened Text
  import opened Responder
  import opened Optional

  /** A keyword written in any case at position `at` of the message is found
      by the lower-cased match. */
  lemma FoundAt(m: string, w: string, at: nat)
    requires at + |w| <= |m| && m[at..at + |w|] == w
    ensures Includes(ToLower(m), ToLower(w))
  {
    assert OccursAt(m, w, at);
    IncludesLowered(m, w);
  }

  /** Entry `i` answers when its keyword occurs and no earlier one does. */
  lemma SelectedIs(m: string, i: nat)
    requires i < |Keywords| && Includes(ToLower(m), Keywords[i])
    requires forall j :: 0 <= j < i ==> !Includes(ToLower(m), Keywords[j])
    ensures Selected(m) == Some(i)
  {
  }

  /** A message with "stress" at `at` and none of the five earlier keywords
      (no d, k or p in any case, no v where "soul activation" could put
      one, no y where "energy healing" could put one) is answered from the stress entry (entry 5). */
  lemma StressOnly(m: string, at: nat)
    requires forall i :: 0 <= i < |m| ==> LowerChar(m[i]) !in "dkp"
    requires forall i :: 9 <= i < |m| - 5 ==> LowerChar(m[i]) != 'v'
    requires forall i :: 5 <= i < |m| - 8 ==> LowerChar(m[i]) != 'y'
    requires at + 6 <= |m| && m[at..at + 6] == "stress"
    ensures Selected(m) == Some(5)
  {
    MissingCharExcludes(m, Keywords[0], 2);
    MissingCharInWindow(m, Keywords[1], 9);
    MissingCharExcludes(m, Keywords[2], 3);
    MissingCharInWindow(m, Keywords[3], 5);
    MissingCharExcludes(m, Keywords[4], 0);
    FoundAt(m, "stress", at);
    assert ToLower("stress") == "stress";
    SelectedIs(m, 5);
  }

  /** "I've been feeling so much stress lately" is answered from the stress entry (entry 5). */
  lemma StressMessage(m: string)
    requires m == "I've been feeling so much stress lately"
    ensures Selected(m) == Some(5)
  {
    assert m == "I've been feeling so much " + "stress" + " lately";
    StressOnly(m, 26);
  }

  /** A message with "CHAKRA", in upper case, at `at` and neither
      "meditation" nor "soul activation" (no d and no v in any case) gets a
      chakra reply. */
  lemma UpperChakraOnly(m: string, at: nat)
    requires forall i :: 0 <= i < |m| ==> LowerChar(m[i]) !in "dv"
    requires at + 6 <= |m| && m[at..at + 6] == "CHAKRA"
    ensures Selected(m) == Some(2)
  {
    MissingCharExcludes(m, Keywords[0], 2);
    MissingCharExcludes(m, Keywords[1], 9);
    FoundAt(m, "CHAKRA", at);
    assert ToLower("CHAKRA") == "chakra";
    SelectedIs(m, 2);
  }

  /** "Tell me about CHAKRA balancing" is answered from the chakra entry (entry 2): matching ignores case. */
  lemma ChakraMessage(m: string)
    requires m == "Tell me about CHAKRA balancing"
    ensures Selected(m) == Some(2)
  {
    assert m == "Tell me about " + "CHAKRA" + " balancing";
    UpperChakraOnly(m, 14);
  }

  /** A message without the letters c, d, p, v and y in any case and without
      "ss" contains no keyword and is answered from the default replies. */
  lemma NoKeyword(m: string)
    requires forall i :: 0 <= i < |m| ==> LowerChar(m[i]) !in "cdpvy"
    requires LacksPairIgnoringCase(m, 's', 's')
    ensures Selected(m) == None
  {
    MissingCharExcludes(m, Keywords[0], 2);
    MissingCharExcludes(m, Keywords[1], 9);
    MissingCharExcludes(m, Keywords[2], 0);
    MissingCharExcludes(m, Keywords[3], 5);
    MissingCharExcludes(m, Keywords[4], 0);
    MissingPairExcludes(m, Keywords[5], 4);
    MissingCharExcludes(m, Keywords[6], 1);
  }

  /** "What's the weather like" is answered from the default replies. */
  lemma WeatherMessage(m: string)
    requires m == "What's the weather like"
    ensures Selected(m) == None
  {
    NoKeyword(m);
  }

  /** The empty message is answered from the default replies: the selector is total. */
  lemma EmptyMessage(m: string)
    requires m == ""
    ensures Selected(m) == None
  {
    NoKeyword(m);
  }

  /** A message that starts with "purpose" and has no c, d, n or v in any
      case is answered from the purpose entry (entry 4). */
  lemma PurposeOnly(m: string)
    requires forall i :: 0 <= i < |m| ==> LowerChar(m[i]) !in "cdnv"
    requires 7 <= |m| && m[..7] == "purpose"
    ensures Selected(m) == Some(4)
  {
    MissingCharExcludes(m, Keywords[0], 2);
    MissingCharExcludes(m, Keywords[1], 9);
    MissingCharExcludes(m, Keywords[2], 0);
    MissingCharExcludes(m, Keywords[3], 1);
    FoundAt(m, "purpose", 0);
    assert ToLower("purpose") == "purpose";
    SelectedIs(m, 4);
  }

  /** Matching is by substring, not by whole word: "purposeful" is answered
      from the purpose entry (entry 4). */
  lemma PurposefulMessage(m: string)
    requires m == "purposeful"
    ensures Selected(m) == Some(4)
  {
    PurposeOnly(m);
  }

  /** A message that contains both "chakra" and "meditation" is answered from
      the meditation entry, whichever of the two comes first in the message. */
  lemma ChakraAndMeditation(m: string, c: nat, d: nat)
    requires c + 6 <= |m| && m[c..c + 6] == "chakra"
    requires d + 10 <= |m| && m[d..d + 10] == "meditation"
    ensures Includes(ToLower(m), Keywords[2])
    ensures Selected(m) == Some(0)
  {
    FoundAt(m, "chakra", c);
    assert ToLower("chakra") == "chakra";
    FoundAt(m, "meditation", d);
    assert ToLower("meditation") == "meditation";
    MeditationAlwaysWins(m);
  }

  /** Precedence follows the table, not the message: "chakra" comes first in
      this message and is found, yet "meditation" comes first in the table
      and wins. */
  lemma ChakraThenMeditationMessage(m: string)
    requires m == "Is chakra work part of meditation?"
    ensures Includes(ToLower(m), Keywords[2])
    ensures Selected(m) == Some(0)
  {
    assert m == "Is " + "chakra" + " work part of " + "meditation" + "?";
    ChakraAndMeditation(m, 3, 23);
  }

  /** A message answered from entry `i` of the built-in table gets one of
      that entry's replies, whatever the random source yields. */
  lemma AnsweredFrom(m: string, r: real, i: nat)
    requires Selected(m) == Some(i) && 0.0 <= r < 1.0
    ensures i < |Table| && Reply(Table, DefaultReplies, m, r) in Table[i].replies
  {
    BuiltInTable();
    SelectedAnswers(m);
  }

  /** A message no keyword selects gets one of the default replies. */
  lemma AnsweredByDefault(m: string, r: real)
    requires Selected(m) == None && 0.0 <= r < 1.0
    ensures Reply(Table, DefaultReplies, m, r) in DefaultReplies
  {
    BuiltInTable();
    SelectedAnswers(m);
  }

  /** "I've been feeling so much stress lately" gets one of the three stress
      replies. */
  lemma StressReply(m: string, r: real)
    requires m == "I've been feeling so much stress lately" && 0.0 <= r < 1.0
    ensures Reply(Table, DefaultReplies, m, r) in StressReplies
  {
    StressMessage(m);
    AnsweredFrom(m, r, 5);
  }

  /** "Tell me about CHAKRA balancing" gets one of the three chakra replies. */
  lemma ChakraReply(m: string, r: real)
    requires m == "Tell me about CHAKRA balancing" && 0.0 <= r < 1.0
    ensures Reply(Table, DefaultReplies, m, r) in ChakraReplies
  {
    ChakraMessage(m);
    AnsweredFrom(m, r, 2);
  }

  /** "What's the weather like" gets one of the eight default replies. */
  lemma WeatherReply(m: string, r: real)
    requires m == "What's the weather like" && 0.0 <= r < 1.0
    ensures Reply(Table, DefaultReplies, m, r) in DefaultReplies
  {
    WeatherMessage(m);
    AnsweredByDefault(m, r);
  }

  /** The empty message gets one of the eight default replies. */
  lemma EmptyReply(m: string, r: real)
    requires m == "" && 0.0 <= r < 1.0
    ensures Reply(Table, DefaultReplies, m, r) in DefaultReplies
  {
    EmptyMessage(m);
    AnsweredByDefault(m, r);
  }

  /** "Is chakra work part of meditation?" gets one of the three meditation
      replies, not a chakra reply. */
  lemma ChakraThenMeditationReply(m: string, r: real)
    requires m == "Is chakra work part of meditation?" && 0.0 <= r < 1.0
    ensures Reply(Table, DefaultReplies, m, r) in MeditationReplies
  {
    ChakraThenMeditationMessage(m);
    AnsweredFrom(m, r, 0);
  }
}
