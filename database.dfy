/** The database the handlers work on: the leads table keyed by its unique
    `contact` column, the autoincrement counter for lead ids, and the
    append-only messages table. */
module Database {
  import opened LeadModel

  /** The contents of the database as a value. */
  datatype Db = Db(leads: map<string, Lead>, nextId: nat, messages: seq<Message>)

  /** An empty database; autoincrement ids start at 1. */
  const EmptyDb: Db := Db(map[], 1, [])

  /** The primary keys in use. */
  ghost function LeadIds(leads: map<string, Lead>): set<nat> {
    set c | c in leads :: leads[c].id
  }

  /** Each lead is stored under its own contact, has an id issued before the
      counter, no two leads share an id, every lead is in a state the handlers
      can reach, and every message belongs to a stored lead. */
  ghost predicate DbInvariant(db: Db) {
    && 1 <= db.nextId
    && (forall c :: c in db.leads ==>
          db.leads[c].contact == c && 1 <= db.leads[c].id < db.nextId && LeadInvariant(db.leads[c]))
    && (forall c, d :: c in db.leads && d in db.leads && db.leads[c].id == db.leads[d].id ==> c == d)
    && (forall i :: 0 <= i < |db.messages| ==> db.messages[i].leadId in LeadIds(db.leads))
  }

  lemma EmptyDbInvariant()
    ensures DbInvariant(EmptyDb)
  {
  }

  /** Replacing a lead by one with the same identity keeps the set of ids. */
  lemma LeadIdsAfterUpdate(leads: map<string, Lead>, c: string, l: Lead)
    requires c in leads && l.id == leads[c].id
    ensures LeadIds(leads[c := l]) == LeadIds(leads)
  {
    var after := leads[c := l];
    forall x | x in LeadIds(after) ensures x in LeadIds(leads) {
      var d :| d in after && after[d].id == x;
      assert leads[d].id == x;
    }
    forall x | x in LeadIds(leads) ensures x in LeadIds(after) {
      var d :| d in leads && leads[d].id == x;
      assert after[d].id == x;
    }
  }

  /** Inserting a lead under a new key adds its id. */
  lemma LeadIdsAfterInsert(leads: map<string, Lead>, c: string, l: Lead)
    requires c !in leads
    ensures LeadIds(leads[c := l]) == LeadIds(leads) + {l.id}
  {
    var after := leads[c := l];
    forall x | x in LeadIds(after) ensures x in LeadIds(leads) + {l.id} {
      var d :| d in after && after[d].id == x;
      if d != c { assert leads[d].id == x; }
    }
    forall x | x in LeadIds(leads) ensures x in LeadIds(after) {
      var d :| d in leads && leads[d].id == x;
      assert after[d].id == x;
    }
    assert after[c].id == l.id;
  }

  /** The `Session` the handlers of app/routes/webhook.py and
      app/services/lead_service.py receive as `db`, standing here for the
      tables behind it. */
  class Session {
    var leads: map<string, Lead>
    var nextId: nat
    var messages: seq<Message>

    function State(): Db
      reads this
    {
      Db(leads, nextId, messages)
    }

    ghost predicate Valid()
      reads this
    {
      DbInvariant(State())
    }

    constructor ()
      ensures Valid() && State() == EmptyDb
    {
      leads, nextId, messages := map[], 1, [];
    }
  }
}
