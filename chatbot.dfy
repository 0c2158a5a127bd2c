/**
 * One conversation turn of the chat assistant in src/components/ChatBot.tsx:
 * the transcript and the accumulated symptom tags. Reply delays, the typing
 * indicator and scrolling are not modelled; a turn is one atomic step, and the
 * random reply index is a parameter.
 */
module ChatBot {
  import opened Wrappers
  import opened Types
  import opened Text
  import opened Seqs
  import opened Intents
  import opened Doctors
  import opened Classifier
  import opened Recommender

  /** Every tag the chat can record is in the table, so the "unmapped symptom" case never arises from the chat. */
  lemma CatalogTagsMapped()
    ensures forall i :: 1 <= i < |Catalog| ==> Catalog[i].tag in SpecialtyMap
    ensures "greeting" !in SpecialtyMap && "default" !in SpecialtyMap
  {
  }

  // ---------------------------------------------------------------------------
  // Symptom tracking and one conversation turn (handleSendMessage)
  // ---------------------------------------------------------------------------

  /** Tags other than the greeting and the fallback name a symptom. */
  predicate IsSymptomTag(tag: string) {
    tag != "greeting" && tag != "default"
  }

  /** A symptom list as the session keeps it: catalog symptom tags, none twice. */
  predicate TrackedTags(symptoms: seq<string>) {
    && NoDup(symptoms)
    && forall t :: t in symptoms ==> t in Tags() && IsSymptomTag(t)
  }

  /** Record the tag of the classified intent, unless it is no symptom or is already recorded. */
  function TrackSymptom(symptoms: seq<string>, tag: string): (r: seq<string>)
    ensures symptoms <= r
    ensures forall t :: t in r <==> t in symptoms || (t == tag && IsSymptomTag(tag))
    ensures r == symptoms <==> tag in symptoms || !IsSymptomTag(tag)
    ensures |r| <= |symptoms| + 1
    ensures NoDup(symptoms) ==> NoDup(r)
  {
    if IsSymptomTag(tag) && tag !in symptoms then symptoms + [tag] else symptoms
  }

  /** Recording the same tag twice records it once. */
  lemma TrackSymptomIdempotent(symptoms: seq<string>, tag: string)
    ensures TrackSymptom(TrackSymptom(symptoms, tag), tag) == TrackSymptom(symptoms, tag)
  {
    var r := TrackSymptom(symptoms, tag);
    assert tag in r || !IsSymptomTag(tag);
  }

  /** The classifier only ever yields a catalog tag or the fallback tag. */
  lemma ClassifiedTagKnown(userMessage: string)
    ensures var tag := FindBestResponse(userMessage).tag;
            IsSymptomTag(tag) ==> tag in Tags()
  {
    var r := FindBestResponse(userMessage);
    if r != DefaultIntent {
      var i :| 0 <= i < |Catalog| && Catalog[i] == r;
      assert Tags()[i] == r.tag;
    }
  }

  /** Recording a classified tag keeps the symptom list well formed. */
  lemma TrackClassifiedKeepsTracked(symptoms: seq<string>, userMessage: string)
    requires TrackedTags(symptoms)
    ensures TrackedTags(TrackSymptom(symptoms, FindBestResponse(userMessage).tag))
  {
    ClassifiedTagKnown(userMessage);
  }

  /** At most nine symptoms can ever be tracked: the catalog has ten tags and one is the greeting. */
  lemma TrackedAtMostNine(symptoms: seq<string>)
    requires TrackedTags(symptoms)
    ensures |symptoms| <= 9
  {
    CatalogTagsDistinct();
    CatalogFollowUps();
    var tags := Tags();
    assert NoDup(tags);
    NoDupCard(tags);
    NoDupCard(symptoms);
    assert tags[0] == "greeting";
    assert Elements(symptoms) <= Elements(tags) - {"greeting"};
    assert "greeting" in Elements(tags);
    assert |Elements(tags) - {"greeting"}| == 9;
    SubsetCard(Elements(symptoms), Elements(tags) - {"greeting"});
  }

  const WelcomeText := "Hello! I'm your AI health assistant. I'm here to help assess your symptoms and recommend the right doctor for you. How are you feeling today?"

  const RecommendationText := "Based on your symptoms, I recommend consulting with the following doctors. You can book an appointment with any of them:"

  /**
   * The follow-up questions of an intent, if it has any, joined by single
   * spaces into one bot message, which therefore contains every question.
   */
  function FollowUpMessages(intent: ChatIntent): (ms: seq<ChatMessage>)
    ensures |ms| <= 1
    ensures ms == [] <==> intent.followUp.None?
    ensures forall m :: m in ms ==> m.sender == BotSender
    ensures intent.followUp.Some? ==>
              && ms[0].message == Join(intent.followUp.value, ' ')
              && forall k :: 0 <= k < |intent.followUp.value| ==> Contains(ms[0].message, intent.followUp.value[k])
  {
    match intent.followUp
    case None => []
    case Some(questions) =>
      assert forall k :: 0 <= k < |questions| ==> Contains(Join(questions, ' '), questions[k]) by {
        forall k | 0 <= k < |questions| ensures Contains(Join(questions, ' '), questions[k]) {
          JoinContains(questions, ' ', k);
        }
      }
      [ChatMessage(Join(questions, ' '), BotSender)]
  }

  /** The chat panel's state: the transcript and the symptom tags detected so far. */
  class ChatSession {
    var messages: seq<ChatMessage>
    var symptoms: seq<string>

    predicate Valid()
      reads this
    {
      TrackedTags(symptoms)
    }

    /** A new session holds only the welcome message and no symptoms. */
    constructor()
      ensures messages == [ChatMessage(WelcomeText, BotSender)]
      ensures symptoms == []
      ensures Valid()
    {
      messages := [ChatMessage(WelcomeText, BotSender)];
      symptoms := [];
    }

    /**
     * One turn. A blank input is ignored. Otherwise the input is classified, its
     * symptom tag recorded, and the transcript grows by the user message, the reply
     * `pick` of the intent, the joined follow-up questions if the intent has them,
     * and, once any symptom is known, the recommendation message; the recommended
     * doctors are returned as what the dashboard is told.
     */
    method SendMessage(input: string, pick: nat) returns (recommended: Option<seq<Doctor>>)
      requires Valid()
      requires pick < |FindBestResponse(input).responses|
      modifies this
      ensures Valid()
      ensures Trim(input) == "" ==>
                messages == old(messages) && symptoms == old(symptoms) && recommended == None
      ensures Trim(input) != "" ==>
                var intent := FindBestResponse(input);
                && symptoms == TrackSymptom(old(symptoms), intent.tag)
                && messages == old(messages)
                               + [ChatMessage(input, UserSender), ChatMessage(intent.responses[pick], BotSender)]
                               + FollowUpMessages(intent)
                               + (if symptoms == [] then [] else [ChatMessage(RecommendationText, BotSender)])
                && recommended == (if symptoms == [] then None else Some(GetDoctorRecommendations(Registry, symptoms)))
    {
      if Trim(input) == "" {
        return None;
      }
      var intent := FindBestResponse(input);
      var newSymptoms := TrackSymptom(symptoms, intent.tag);
      TrackClassifiedKeepsTracked(symptoms, input);
      var exchange := [ChatMessage(input, UserSender), ChatMessage(intent.responses[pick], BotSender)];
      var followUp := FollowUpMessages(intent);
      var recommendation: seq<ChatMessage> := [];
      recommended := None;
      if newSymptoms != [] {
        recommendation := [ChatMessage(RecommendationText, BotSender)];
        recommended := Some(GetDoctorRecommendations(Registry, newSymptoms));
      }
      symptoms := newSymptoms;
      messages := messages + exchange + followUp + recommendation;
    }
  }
}

