/** `get_or_create_lead`: look a lead up by contact and insert one on first use. */
module LeadService {
  import opened LeadModel
  import opened Database

  /** The row inserted for an unseen contact: stage "New Lead", everything else null. */
  function NewLead(id: nat, contact: string, channel: string): (l: Lead)
    ensures l.id == id && l.contact == contact && l.channel == channel
    ensures l.stage == Some(NewLeadStage) && l.intent.None? && AllNull(Slots(l))
    ensures LeadInvariant(l)
  {
    Lead(id, contact, channel, None, Some(NewLeadStage), None, None, None)
  }

  /** The lookup-or-insert as a function of the database. An existing lead is
      returned as it is and the database is left alone (the channel argument
      is then ignored); otherwise exactly one lead is inserted, under the next id. */
  function GetOrCreateStep(db: Db, contact: string, channel: string): (r: (Db, Lead))
    ensures contact in r.0.leads && r.0.leads[contact] == r.1
    ensures r.0.messages == db.messages
    ensures contact in db.leads ==> r.0 == db && r.1 == db.leads[contact]
    ensures contact !in db.leads ==>
      && r.1 == NewLead(db.nextId, contact, channel)
      && r.0.leads == db.leads[contact := r.1]
      && r.0.nextId == db.nextId + 1
  {
    if contact in db.leads then (db, db.leads[contact])
    else
      var lead := NewLead(db.nextId, contact, channel);
      (Db(db.leads[contact := lead], db.nextId + 1, db.messages), lead)
  }

  /** Afterwards the contact has exactly one lead, a new lead's id is used by no
      other lead, and every other lead is unchanged. */
  lemma GetOrCreateUniqueAndFresh(db: Db, contact: string, channel: string)
    requires DbInvariant(db)
    ensures var (db', lead) := GetOrCreateStep(db, contact, channel);
      && lead.contact == contact
      && (forall c :: c in db'.leads && db'.leads[c].contact == contact ==> c == contact)
      && (contact !in db.leads ==> forall c :: c in db.leads ==> db.leads[c].id != lead.id)
      && db'.leads.Keys == db.leads.Keys + {contact}
      && (forall c :: c in db.leads ==> db'.leads[c] == db.leads[c])
  {
  }

  lemma GetOrCreatePreservesInvariant(db: Db, contact: string, channel: string)
    requires DbInvariant(db)
    ensures DbInvariant(GetOrCreateStep(db, contact, channel).0)
  {
    if contact !in db.leads {
      var (db', lead) := GetOrCreateStep(db, contact, channel);
      LeadIdsAfterInsert(db.leads, contact, lead);
      assert forall i :: 0 <= i < |db'.messages| ==> db'.messages[i].leadId in LeadIds(db.leads);
    }
  }

  /** `get_or_create_lead` in app/services/lead_service.py, on the session. */
  method GetOrCreateLead(db: Session, contact: string, channel: string) returns (lead: Lead)
    requires db.Valid()
    modifies db
    ensures db.Valid()
    ensures (db.State(), lead) == GetOrCreateStep(old(db.State()), contact, channel)
  {
    GetOrCreatePreservesInvariant(db.State(), contact, channel);
    if contact in db.leads {
      lead := db.leads[contact];
      return;
    }
    lead := NewLead(db.nextId, contact, channel);
    db.leads := db.leads[contact := lead];
    db.nextId := db.nextId + 1;
  }
}
