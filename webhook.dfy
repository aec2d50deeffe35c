/** The turn handler `test_webhook` and the `reset_lead` endpoint, without the
    HTTP layer: the lead state machine and the message log. */
module Webhook {
  import opened LeadModel
  import opened AiService
  import opened Database
  import opened LeadService

  /** What the turn handler answers: the updated lead and the reply text. */
  datatype TurnResponse = TurnResponse(lead: Lead, aiReply: string)

  datatype ResetStatus = NotFound | ResetSuccessful

  /** The state transition of one inbound message on its lead. The first message
      only classifies; later messages of a travel lead fill the first null slot
      with the raw text; a lead with any other intent is left as it is. */
  function ApplyTurn(lead: Lead, text: string): (r: Lead)
    ensures SameIdentity(r, lead)
    ensures lead.intent.None? ==>
      r.intent == Some(DetectIntent(text)) && r.stage == Some(QualifiedStage) && Slots(r) == Slots(lead)
    ensures lead.intent.Some? ==> r.intent == lead.intent
    ensures lead.intent.Some? && lead.intent != Some(TravelIntent) ==> r == lead
    ensures lead.intent == Some(TravelIntent) ==>
      forall k :: IsFirstMissing(Slots(lead), k) ==>
        Slots(r) == Slots(lead)[k := Some(text)] &&
        r.stage == (if k == 2 then Some(QuoteReadyStage) else lead.stage)
    ensures lead.intent == Some(TravelIntent) && AllFilled(Slots(lead)) ==> r == lead
    ensures forall k :: 0 <= k < 3 && Slots(lead)[k].Some? ==> Slots(r)[k] == Slots(lead)[k]
    ensures LeadInvariant(lead) ==> LeadInvariant(r)
  {
    if lead.intent.None? then
      lead.(intent := Some(DetectIntent(text)), stage := Some(QualifiedStage))
    else if lead.intent == Some(TravelIntent) then
      if lead.destination.None? then
        assert Slots(lead)[0].None?;
        lead.(destination := Some(text))
      else if lead.travelDate.None? then
        assert Slots(lead)[0].Some? && Slots(lead)[1].None?;
        lead.(travelDate := Some(text))
      else if lead.passengers.None? then
        assert Slots(lead)[1].Some? && Slots(lead)[2].None?;
        lead.(passengers := Some(text), stage := Some(QuoteReadyStage))
      else
        lead
    else
      lead
  }

  /** The lead after a reset: intent, slots and stage cleared, identity kept. */
  function Cleared(lead: Lead): (r: Lead)
    ensures SameIdentity(r, lead)
    ensures r.intent.None? && AllNull(Slots(r)) && r.stage == Some(NewLeadStage)
    ensures LeadInvariant(r)
  {
    lead.(intent := None, stage := Some(NewLeadStage), destination := None, travelDate := None, passengers := None)
  }

  /** One call of the turn handler as a function of the database. */
  function TurnStep(db: Db, contact: string, text: string): (r: (Db, TurnResponse))
    ensures contact in db.leads ==>
      r.1.lead == ApplyTurn(db.leads[contact], text) && r.0.nextId == db.nextId
    ensures contact !in db.leads ==>
      r.1.lead == ApplyTurn(NewLead(db.nextId, contact, Whatsapp), text) && r.0.nextId == db.nextId + 1
    ensures r.0.leads == db.leads[contact := r.1.lead]
    ensures r.1.aiReply == GenerateAiReply(r.1.lead)
    ensures r.0.messages == db.messages + [
      Message(r.1.lead.id, CustomerSender, text, Whatsapp),
      Message(r.1.lead.id, AiSender, r.1.aiReply, Whatsapp)]
  {
    var (afterLookup, lead) := GetOrCreateStep(db, contact, Whatsapp);
    var updated := ApplyTurn(lead, text);
    var reply := GenerateAiReply(updated);
    var log := afterLookup.messages
      + [Message(lead.id, CustomerSender, text, Whatsapp)]
      + [Message(lead.id, AiSender, reply, Whatsapp)];
    (Db(afterLookup.leads[contact := updated], afterLookup.nextId, log), TurnResponse(updated, reply))
  }

  /** One call of the reset endpoint as a function of the database. */
  function ResetStep(db: Db, contact: string): (r: (Db, ResetStatus))
    ensures contact !in db.leads ==> r == (db, NotFound)
    ensures contact in db.leads ==>
      r.1 == ResetSuccessful && r.0 == db.(leads := db.leads[contact := Cleared(db.leads[contact])])
  {
    if contact !in db.leads then (db, NotFound)
    else (db.(leads := db.leads[contact := Cleared(db.leads[contact])]), ResetSuccessful)
  }

  lemma TurnPreservesInvariant(db: Db, contact: string, text: string)
    requires DbInvariant(db)
    ensures DbInvariant(TurnStep(db, contact, text).0)
  {
    GetOrCreatePreservesInvariant(db, contact, Whatsapp);
    var (afterLookup, lead) := GetOrCreateStep(db, contact, Whatsapp);
    var (db', resp) := TurnStep(db, contact, text);
    LeadIdsAfterUpdate(afterLookup.leads, contact, resp.lead);
    assert resp.lead.id == lead.id;
    assert lead.id in LeadIds(afterLookup.leads);
  }

  lemma ResetPreservesInvariant(db: Db, contact: string)
    requires DbInvariant(db)
    ensures DbInvariant(ResetStep(db, contact).0)
  {
    if contact in db.leads {
      LeadIdsAfterUpdate(db.leads, contact, Cleared(db.leads[contact]));
    }
  }

  /** A second reset of the same contact changes nothing. */
  lemma ResetIdempotent(db: Db, contact: string)
    ensures var once := ResetStep(db, contact).0;
      ResetStep(once, contact) == (once, ResetStep(db, contact).1)
  {
    if contact in db.leads {
      var once := ResetStep(db, contact).0;
      assert Cleared(once.leads[contact]) == once.leads[contact];
      assert once.leads[contact := once.leads[contact]] == once.leads;
    }
  }

  /** `test_webhook` in app/routes/webhook.py: find or create the lead, log the customer
      message, update the lead in place, log the reply. */
  method TestWebhook(db: Session, contact: string, text: string) returns (resp: TurnResponse)
    requires db.Valid()
    modifies db
    ensures db.Valid()
    ensures (db.State(), resp) == TurnStep(old(db.State()), contact, text)
  {
    TurnPreservesInvariant(db.State(), contact, text);
    var lead := GetOrCreateLead(db, contact, Whatsapp);
    db.messages := db.messages + [Message(lead.id, CustomerSender, text, Whatsapp)];

    if lead.intent.None? {
      // The first message of a conversation only sets the intent.
      lead := lead.(intent := Some(DetectIntent(text)), stage := Some(QualifiedStage));
    } else if lead.intent == Some(TravelIntent) {
      // Later messages of a travel lead answer the first open question.
      if lead.destination.None? {
        lead := lead.(destination := Some(text));
      } else if lead.travelDate.None? {
        lead := lead.(travelDate := Some(text));
      } else if lead.passengers.None? {
        lead := lead.(passengers := Some(text), stage := Some(QuoteReadyStage));
      }
    }
    db.leads := db.leads[contact := lead];

    var aiText := GenerateAiReply(lead);
    db.messages := db.messages + [Message(lead.id, AiSender, aiText, Whatsapp)];
    resp := TurnResponse(lead, aiText);
  }

  /** `reset_lead` in app/routes/webhook.py: clear the lead's fields in place. */
  method ResetLead(db: Session, contact: string) returns (status: ResetStatus)
    requires db.Valid()
    modifies db
    ensures db.Valid()
    ensures (db.State(), status) == ResetStep(old(db.State()), contact)
  {
    ResetPreservesInvariant(db.State(), contact);
    if contact !in db.leads {
      return NotFound;
    }
    var lead := db.leads[contact];
    lead := lead.(intent := None, stage := Some(NewLeadStage));
    lead := lead.(destination := None, travelDate := None, passengers := None);
    db.leads := db.leads[contact := lead];
    status := ResetSuccessful;
  }
}
