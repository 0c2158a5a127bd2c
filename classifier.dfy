/**
 * The intent classifier of src/components/ChatBot.tsx (findBestResponse): the
 * first catalog intent with a pattern occurring in the lowercased message, or
 * the fallback intent.
 */
module Classifier {
  import opened Wrappers
  import opened Types
  import opened Text
  import opened Intents
  import opened Matching

  /** The fallback intent returned when no catalog pattern occurs in the message. */
  const DefaultIntent := ChatIntent(
    "default",
    [],
    ["I understand you're experiencing some discomfort. Can you tell me more about your symptoms?",
     "I'm here to help. Could you describe what you're feeling in more detail?",
     "To better assist you, could you provide more specific information about your symptoms?"],
    None)

  /** Some pattern of the intent occurs in the message. */
  predicate IntentMatches(intent: ChatIntent, lowerMessage: string) {
    exists k :: 0 <= k < |intent.patterns| && PatternMatches(intent.patterns[k], lowerMessage)
  }

  /** Catalog entry `i` is the first intent, in catalog order, that matches the message. */
  predicate IsFirstMatch(i: int, lowerMessage: string) {
    && 0 <= i < |Catalog|
    && IntentMatches(Catalog[i], lowerMessage)
    && forall j :: 0 <= j < i ==> !IntentMatches(Catalog[j], lowerMessage)
  }

  /** The outer loop: the index of the first matching intent, or `|intents|` when none matches. */
  function FirstMatchingIntent(intents: seq<ChatIntent>, lowerMessage: string): (i: nat)
    ensures i <= |intents|
    ensures i < |intents| ==> IntentMatches(intents[i], lowerMessage)
    ensures forall j :: 0 <= j < i ==> !IntentMatches(intents[j], lowerMessage)
  {
    if intents == [] then 0
    else if AnyPatternMatches(intents[0].patterns, lowerMessage) then 0
    else
      var i := 1 + FirstMatchingIntent(intents[1..], lowerMessage);
      assert forall j :: 1 <= j < |intents| ==> intents[j] == intents[1..][j - 1];
      i
  }

  /**
   * Classify a user message: the first catalog intent (earlier intents first,
   * then earlier patterns) with a pattern occurring in the lowercased message,
   * or the default intent when there is none.
   */
  function FindBestResponse(userMessage: string): (r: ChatIntent)
    ensures r == DefaultIntent <==>
              forall j :: 0 <= j < |Catalog| ==> !IntentMatches(Catalog[j], ToLower(userMessage))
    ensures r != DefaultIntent ==>
              exists i :: IsFirstMatch(i, ToLower(userMessage)) && r == Catalog[i]
    ensures r == DefaultIntent || r in Catalog
    ensures |r.responses| > 0
  {
    var lowerMessage := ToLower(userMessage);
    var i := FirstMatchingIntent(Catalog, lowerMessage);
    if i < |Catalog| then
      CatalogFollowUps();
      CatalogResponsesNonEmpty();
      assert IsFirstMatch(i, lowerMessage);
      Catalog[i]
    else
      DefaultIntent
  }

  /** The default intent has no patterns and exactly three replies. */
  lemma DefaultIntentShape()
    ensures DefaultIntent.tag == "default" && DefaultIntent.patterns == [] && |DefaultIntent.responses| == 3
  {
  }

  /** Any message containing "hi" (in any letter case) is a greeting, since greeting is first. */
  lemma HiIsGreeting(userMessage: string)
    requires Contains(ToLower(userMessage), "hi")
    ensures FindBestResponse(userMessage).tag == "greeting"
  {
    var lower := ToLower(userMessage);
    assert ToLower(Catalog[0].patterns[0]) == "hi";
    assert PatternMatches(Catalog[0].patterns[0], lower);
    assert IsFirstMatch(0, lower);
  }

  /** "think" contains "hi", so it classifies as a greeting. */
  lemma ThinkIsGreeting()
    ensures FindBestResponse("think").tag == "greeting"
  {
    assert ToLower("think") == "think";
    assert OccursAt("think", "hi", 1);
    HiIsGreeting("think");
  }

  /** The first match is unique, and it is what the classifier returns. */
  lemma ClassifiedAs(userMessage: string, i: int)
    requires IsFirstMatch(i, ToLower(userMessage))
    ensures FindBestResponse(userMessage) == Catalog[i]
  {
    var lower := ToLower(userMessage);
    var r := FindBestResponse(userMessage);
    assert r != DefaultIntent;
    var i' :| IsFirstMatch(i', lower) && r == Catalog[i'];
    assert !(i' < i) && !(i < i');
  }

  /** The pattern lists of the first five catalog intents, as literals. */
  lemma EarlyCatalogPatterns()
    ensures Catalog[0].patterns == ["Hi", "Hello", "Hey", "Good morning", "Good evening", "Hi there"]
    ensures Catalog[1].patterns == ["I have a headache", "My head hurts", "Headache", "Head pain", "Migraine"]
    ensures Catalog[2].patterns == ["I have fever", "I'm feeling hot", "High temperature", "Fever", "I'm burning up"]
    ensures Catalog[3].patterns == ["I have a cough", "Coughing", "Dry cough", "Wet cough", "Persistent cough"]
    ensures Catalog[4].patterns == ["Stomach pain", "Abdominal pain", "Belly ache", "My stomach hurts", "Stomach ache"]
  {
  }

  /** Lifts `GreetingPatternsMissHeadache` to the catalog's greeting intent, to keep `HeadacheExample` small. */
  lemma GreetingIntentMissesHeadache()
    ensures !IntentMatches(Catalog[0], "i have a headache")
  {
    GreetingPatternsMissHeadache("i have a headache");
    EarlyCatalogPatterns();
  }

  /** "I have a headache" classifies as headache: no greeting pattern occurs in it. */
  lemma HeadacheExample()
    ensures FindBestResponse("I have a headache").tag == "headache"
  {
    var lower := "i have a headache";
    assert ToLower("I have a headache") == lower;
    GreetingIntentMissesHeadache();
    assert ToLower(Catalog[1].patterns[0]) == lower;
    assert OccursAt(lower, lower, 0);
    assert PatternMatches(Catalog[1].patterns[0], lower);
    assert IsFirstMatch(1, lower);
    ClassifiedAs("I have a headache", 1);
  }

  lemma EarlierIntentsMissChestPain()
    ensures forall j :: 0 <= j < 5 ==> !IntentMatches(Catalog[j], "my chest hurts")
  {
    var lower := "my chest hurts";
    GreetingPatternsMissChestPain(lower);
    HeadachePatternsMissChestPain(lower);
    FeverPatternsMissChestPain(lower);
    CoughPatternsMissChestPain(lower);
    StomachPainPatternsMissChestPain(lower);
    EarlyCatalogPatterns();
  }

  /** "My chest hurts" classifies as chest_pain: no pattern of the five earlier intents occurs in it. */
  lemma ChestPainExample()
    ensures FindBestResponse("My chest hurts").tag == "chest_pain"
  {
    var lower := "my chest hurts";
    assert ToLower("My chest hurts") == lower;
    EarlierIntentsMissChestPain();
    assert ToLower(Catalog[5].patterns[1]) == lower;
    assert OccursAt(lower, lower, 0);
    assert PatternMatches(Catalog[5].patterns[1], lower);
    assert IsFirstMatch(5, lower);
    ClassifiedAs("My chest hurts", 5);
  }
}
