/** A worked conversation, from an empty database to a reset. */
module Scenario {
  import opened LeadModel
  import opened AiService
  import opened Database
  import opened Webhook

  lemma LowerOfLowercase(s: string)
    requires forall i :: 0 <= i < |s| ==> !('A' <= s[i] <= 'Z')
    ensures Lower(s) == s
  {
  }

  lemma DetectTravelExample(text: string)
    requires text == "need a flight"
    ensures DetectIntent(text) == TravelIntent
  {
    LowerOfLowercase(text);
    assert TravelWords[1] == "flight";
    assert text[7..13] == "flight";
    assert OccursAt(TravelWords[1], text, 7);
  }

  /** A travel conversation: the first message only classifies; the next three
      fill destination, date and passengers in that order, each reply asking for
      the next one; a fifth message changes nothing but the log; a reset returns
      the lead to "New Lead" under the same id. */
  lemma TravelConversation()
    ensures var (db1, r1) := TurnStep(EmptyDb, "A", "need a flight");
      && r1.lead.intent == Some(TravelIntent) && r1.lead.stage == Some(QualifiedStage)
      && r1.lead.destination.None? && r1.aiReply == AskDestination
      && var (db2, r2) := TurnStep(db1, "A", "Paris");
      && r2.lead.destination == Some("Paris") && r2.lead.stage == Some(QualifiedStage)
      && r2.aiReply == AskTravelDate
      && var (db3, r3) := TurnStep(db2, "A", "June");
      && r3.lead.travelDate == Some("June") && r3.aiReply == AskPassengers
      && var (db4, r4) := TurnStep(db3, "A", "2");
      && r4.lead.passengers == Some("2") && r4.lead.stage == Some(QuoteReadyStage)
      && r4.aiReply == TravelComplete
      && var (db5, r5) := TurnStep(db4, "A", "Rome");
      && r5.lead == r4.lead && |db5.messages| == 10
      && var (db6, status) := ResetStep(db5, "A");
      && status == ResetSuccessful && db6.leads["A"].stage == Some(NewLeadStage)
      && db6.leads["A"].intent.None? && db6.leads["A"].id == 1
  {
    DetectTravelExample("need a flight");
  }
}
