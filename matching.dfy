/**
 * Pattern matching of the chat classifier in src/components/ChatBot.tsx: a
 * pattern matches when its lowercased form occurs in the lowercased message.
 * The pattern facts about fixed example messages live here.
 */
module Matching {
  import opened Text

  /** The lowercased pattern occurs in the (already lowercased) message. */
  predicate PatternMatches(pattern: string, lowerMessage: string) {
    Contains(lowerMessage, ToLower(pattern))
  }

  /** The inner loop: scan the patterns of one intent in order. */
  function AnyPatternMatches(patterns: seq<string>, lowerMessage: string): (found: bool)
    ensures found <==> exists k :: 0 <= k < |patterns| && PatternMatches(patterns[k], lowerMessage)
  {
    if patterns == [] then false
    else if PatternMatches(patterns[0], lowerMessage) then true
    else
      var rest := AnyPatternMatches(patterns[1..], lowerMessage);
      assert forall k :: 1 <= k < |patterns| ==> patterns[k] == patterns[1..][k - 1];
      rest
  }

  /**
   * A pattern cannot match when its lowercased character at index `j` does not
   * occur in the message from index `j` on.
   */
  lemma PatternMissesAt(pattern: string, lowerMessage: string, j: nat)
    requires j < |pattern| && j <= |lowerMessage|
    requires ToLowerChar(pattern[j]) !in lowerMessage[j..]
    ensures !PatternMatches(pattern, lowerMessage)
  {
    AbsentCharRulesOut(lowerMessage, ToLower(pattern), j);
  }

  /** In particular, a pattern cannot match when one of its lowercased characters does not occur in the message at all. */
  lemma PatternLacksChar(pattern: string, lowerMessage: string, j: nat)
    requires j < |pattern| && j <= |lowerMessage|
    requires ToLowerChar(pattern[j]) !in lowerMessage
    ensures !PatternMatches(pattern, lowerMessage)
  {
    assert forall i :: 0 <= i < |lowerMessage[j..]| ==> lowerMessage[j..][i] == lowerMessage[j + i];
    PatternMissesAt(pattern, lowerMessage, j);
  }

  /** No greeting pattern occurs in "i have a headache". */
  lemma GreetingPatternsMissHeadache(lower: string)
    requires lower == "i have a headache"
    ensures forall k :: 0 <= k < 6 ==> !PatternMatches(["Hi", "Hello", "Hey", "Good morning", "Good evening", "Hi there"][k], lower)
  {
    var ps := ["Hi", "Hello", "Hey", "Good morning", "Good evening", "Hi there"];
    forall k | 0 <= k < 6 ensures !PatternMatches(ps[k], lower) {
      if k == 0 { PatternMissesAt(ps[0], lower, 1); }
      else if k == 1 { PatternLacksChar(ps[1], lower, 2); }
      else if k == 2 { PatternLacksChar(ps[2], lower, 2); }
      else if k == 3 { PatternLacksChar(ps[3], lower, 0); }
      else if k == 4 { PatternLacksChar(ps[4], lower, 0); }
      else { PatternLacksChar(ps[k], lower, 3); }
    }
  }

  /** No greeting pattern occurs in "my chest hurts". */
  lemma GreetingPatternsMissChestPain(lower: string)
    requires lower == "my chest hurts"
    ensures forall k :: 0 <= k < 6 ==> !PatternMatches(["Hi", "Hello", "Hey", "Good morning", "Good evening", "Hi there"][k], lower)
  {
    var ps := ["Hi", "Hello", "Hey", "Good morning", "Good evening", "Hi there"];
    forall k | 0 <= k < 6 ensures !PatternMatches(ps[k], lower) {
      if k == 0 { PatternLacksChar(ps[0], lower, 1); }
      else if k == 1 { PatternLacksChar(ps[1], lower, 2); }
      else if k == 2 { PatternMissesAt(ps[2], lower, 2); }
      else if k == 3 { PatternLacksChar(ps[3], lower, 0); }
      else if k == 4 { PatternLacksChar(ps[4], lower, 0); }
      else { PatternLacksChar(ps[k], lower, 1); }
    }
  }

  /** No headache pattern occurs in "my chest hurts". */
  lemma HeadachePatternsMissChestPain(lower: string)
    requires lower == "my chest hurts"
    ensures forall k :: 0 <= k < 5 ==> !PatternMatches(["I have a headache", "My head hurts", "Headache", "Head pain", "Migraine"][k], lower)
  {
    var ps := ["I have a headache", "My head hurts", "Headache", "Head pain", "Migraine"];
    forall k | 0 <= k < 5 ensures !PatternMatches(ps[k], lower) {
      if k == 0 { PatternLacksChar(ps[0], lower, 0); }
      else if k == 1 { PatternLacksChar(ps[1], lower, 5); }
      else if k == 2 { PatternLacksChar(ps[2], lower, 2); }
      else if k == 3 { PatternLacksChar(ps[3], lower, 2); }
      else { PatternLacksChar(ps[k], lower, 1); }
    }
  }

  /** No fever pattern occurs in "my chest hurts". */
  lemma FeverPatternsMissChestPain(lower: string)
    requires lower == "my chest hurts"
    ensures forall k :: 0 <= k < 5 ==> !PatternMatches(["I have fever", "I'm feeling hot", "High temperature", "Fever", "I'm burning up"][k], lower)
  {
    var ps := ["I have fever", "I'm feeling hot", "High temperature", "Fever", "I'm burning up"];
    forall k | 0 <= k < 5 ensures !PatternMatches(ps[k], lower) {
      if k == 0 { PatternLacksChar(ps[0], lower, 0); }
      else if k == 1 { PatternLacksChar(ps[1], lower, 0); }
      else if k == 2 { PatternLacksChar(ps[2], lower, 1); }
      else if k == 3 { PatternLacksChar(ps[3], lower, 0); }
      else { PatternLacksChar(ps[k], lower, 0); }
    }
  }

  /** No cough pattern occurs in "my chest hurts". */
  lemma CoughPatternsMissChestPain(lower: string)
    requires lower == "my chest hurts"
    ensures forall k :: 0 <= k < 5 ==> !PatternMatches(["I have a cough", "Coughing", "Dry cough", "Wet cough", "Persistent cough"][k], lower)
  {
    var ps := ["I have a cough", "Coughing", "Dry cough", "Wet cough", "Persistent cough"];
    forall k | 0 <= k < 5 ensures !PatternMatches(ps[k], lower) {
      if k == 0 { PatternLacksChar(ps[0], lower, 0); }
      else if k == 1 { PatternLacksChar(ps[1], lower, 1); }
      else if k == 2 { PatternLacksChar(ps[2], lower, 0); }
      else if k == 3 { PatternLacksChar(ps[3], lower, 0); }
      else { PatternLacksChar(ps[k], lower, 0); }
    }
  }

  /** No stomach-pain pattern occurs in "my chest hurts". */
  lemma StomachPainPatternsMissChestPain(lower: string)
    requires lower == "my chest hurts"
    ensures forall k :: 0 <= k < 5 ==> !PatternMatches(["Stomach pain", "Abdominal pain", "Belly ache", "My stomach hurts", "Stomach ache"][k], lower)
  {
    var ps := ["Stomach pain", "Abdominal pain", "Belly ache", "My stomach hurts", "Stomach ache"];
    forall k | 0 <= k < 5 ensures !PatternMatches(ps[k], lower) {
      if k == 0 { PatternLacksChar(ps[0], lower, 2); }
      else if k == 1 { PatternLacksChar(ps[1], lower, 0); }
      else if k == 2 { PatternLacksChar(ps[2], lower, 0); }
      else if k == 3 { PatternLacksChar(ps[3], lower, 5); }
      else { PatternLacksChar(ps[k], lower, 2); }
    }
  }
}
