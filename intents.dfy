/** The intent catalog of src/data/intents.ts, in declaration order. */
module Intents {
  import opened Wrappers
  import opened Types

  const Catalog: seq<ChatIntent> := [
    ChatIntent(
      "greeting",
      ["Hi", "Hello", "Hey", "Good morning", "Good evening", "Hi there"],
      ["Hello! I'm your healthcare assistant. How are you feeling today?",
       "Hi there! I'm here to help with your health concerns. What symptoms are you experiencing?",
       "Hello! Welcome to your personal health assistant. How can I help you today?"],
      None),
    ChatIntent(
      "headache",
      ["I have a headache", "My head hurts", "Headache", "Head pain", "Migraine"],
      ["I understand you're experiencing head pain. Can you describe the type of pain? Is it throbbing, sharp, or dull?",
       "Headaches can have various causes. How long have you been experiencing this? Is it accompanied by any other symptoms?"],
      Some(["How long have you had this headache?", "Is the pain throbbing or constant?", "Any nausea or sensitivity to light?"])),
    ChatIntent(
      "fever",
      ["I have fever", "I'm feeling hot", "High temperature", "Fever", "I'm burning up"],
      ["Fever can indicate your body is fighting an infection. Have you taken your temperature? Any other symptoms like chills or body aches?",
       "I'm concerned about your fever. Are you experiencing any other symptoms like cough, sore throat, or body pain?"],
      Some(["What's your temperature?", "Any chills or sweating?", "How long have you had the fever?"])),
    ChatIntent(
      "cough",
      ["I have a cough", "Coughing", "Dry cough", "Wet cough", "Persistent cough"],
      ["Coughs can be concerning. Is it a dry cough or are you bringing up mucus? How long have you been coughing?",
       "I see you have a cough. Is it worse at night or during the day? Any chest pain or difficulty breathing?"],
      Some(["Is it a dry or productive cough?", "Any chest pain?", "Difficulty breathing?"])),
    ChatIntent(
      "stomach_pain",
      ["Stomach pain", "Abdominal pain", "Belly ache", "My stomach hurts", "Stomach ache"],
      ["Abdominal pain can have many causes. Where exactly is the pain located? Is it sharp, cramping, or burning?",
       "I understand you're having stomach discomfort. Is the pain constant or does it come and go? Any nausea or vomiting?"],
      Some(["Where is the pain located?", "Is it sharp or cramping?", "Any nausea or vomiting?"])),
    ChatIntent(
      "chest_pain",
      ["Chest pain", "My chest hurts", "Heart pain", "Chest discomfort", "Pain in chest"],
      ["Chest pain is serious and should be evaluated immediately. Is the pain sharp, crushing, or burning? Any difficulty breathing?",
       "Chest pain requires immediate attention. Are you experiencing shortness of breath, sweating, or pain radiating to your arm?"],
      Some(["Is the pain sharp or crushing?", "Any shortness of breath?", "Pain in arm or jaw?"])),
    ChatIntent(
      "back_pain",
      ["Back pain", "My back hurts", "Lower back pain", "Upper back pain", "Spine pain"],
      ["Back pain is very common. Is it in your upper or lower back? Did you injure it recently or lift something heavy?",
       "I understand you're experiencing back pain. Is it sharp or aching? Does it radiate down your leg?"],
      Some(["Upper or lower back?", "Recent injury?", "Pain radiating to legs?"])),
    ChatIntent(
      "sore_throat",
      ["Sore throat", "My throat hurts", "Throat pain", "Difficulty swallowing"],
      ["Sore throats can be quite uncomfortable. Is it painful to swallow? Any fever or swollen glands?",
       "I see you have throat discomfort. Is it scratchy, burning, or sharp pain? Any white patches?"],
      Some(["Painful to swallow?", "Any fever?", "Swollen glands?"])),
    ChatIntent(
      "nausea",
      ["I feel nauseous", "Nausea", "Feel sick", "Want to vomit", "Stomach upset"],
      ["Nausea can be very uncomfortable. Have you vomited? Any abdominal pain or fever?",
       "I understand you're feeling nauseous. Is it constant or comes in waves? Any recent changes in diet?"],
      Some(["Have you vomited?", "Any abdominal pain?", "Recent dietary changes?"])),
    ChatIntent(
      "dizziness",
      ["I feel dizzy", "Dizziness", "Lightheaded", "Room spinning", "Balance problems"],
      ["Dizziness can have various causes. Do you feel like the room is spinning or more like lightheadedness?",
       "I'm concerned about your dizziness. Any hearing changes, headache, or recent medication changes?"],
      Some(["Room spinning or lightheaded?", "Any hearing changes?", "Recent medications?"]))
  ]

  /** The tags of the catalog, in order. */
  function Tags(): (ts: seq<string>)
    ensures |ts| == |Catalog|
    ensures forall i :: 0 <= i < |Catalog| ==> ts[i] == Catalog[i].tag
  {
    seq(|Catalog|, i requires 0 <= i < |Catalog| => Catalog[i].tag)
  }

  /** Ten intents whose tags are pairwise distinct. */
  lemma CatalogTagsDistinct()
    ensures |Catalog| == 10
    ensures forall i, j :: 0 <= i < j < |Catalog| ==> Catalog[i].tag != Catalog[j].tag
  {
  }

  /** Every intent has two or three replies, so a random index below their count always exists. */
  lemma CatalogResponsesNonEmpty()
    ensures forall i :: 0 <= i < |Catalog| ==> 2 <= |Catalog[i].responses| <= 3
  {
  }

  /** No pattern is empty, so no intent matches every input. */
  lemma CatalogPatternsNonEmpty()
    ensures forall i, k :: 0 <= i < |Catalog| && 0 <= k < |Catalog[i].patterns| ==> |Catalog[i].patterns[k]| > 0
  {
  }

  /** Greeting comes first and has no follow-up; every other intent asks three follow-up questions. */
  lemma CatalogFollowUps()
    ensures Catalog[0].tag == "greeting" && Catalog[0].followUp == None
    ensures forall i :: 1 <= i < |Catalog| ==> Catalog[i].followUp.Some? && |Catalog[i].followUp.value| == 3
    ensures forall i :: 1 <= i < |Catalog| ==> Catalog[i].tag != "greeting" && Catalog[i].tag != "default"
  {
  }
}
