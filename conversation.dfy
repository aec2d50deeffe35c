/** Sequences of requests against the database: what holds after any sequence of
    lead creations, turns and resets. */
module Conversation {
  import opened LeadModel
  import opened Database
  import opened LeadService
  import opened Webhook

  datatype Request =
    | Create(contact: string, channel: string)
    | Turn(contact: string, text: string)
    | Reset(contact: string)

  function Step(db: Db, req: Request): Db {
    match req
    case Create(contact, channel) => GetOrCreateStep(db, contact, channel).0
    case Turn(contact, text) => TurnStep(db, contact, text).0
    case Reset(contact) => ResetStep(db, contact).0
  }

  function Run(db: Db, reqs: seq<Request>): Db
    decreases |reqs|
  {
    if reqs == [] then db else Run(Step(db, reqs[0]), reqs[1..])
  }

  /** The number of turns among the requests. */
  function TurnCount(reqs: seq<Request>): nat {
    if reqs == [] then 0 else (if reqs[0].Turn? then 1 else 0) + TurnCount(reqs[1..])
  }

  predicate ResetsContact(req: Request, c: string) {
    req.Reset? && req.contact == c
  }

  lemma StepPreservesInvariant(db: Db, req: Request)
    requires DbInvariant(db)
    ensures DbInvariant(Step(db, req))
  {
    match req
    case Create(contact, channel) => GetOrCreatePreservesInvariant(db, contact, channel);
    case Turn(contact, text) => TurnPreservesInvariant(db, contact, text);
    case Reset(contact) => ResetPreservesInvariant(db, contact);
  }

  /** Whatever the requests, every lead stays in a reachable state: its filled
      slots form a prefix of the slot order and "Quote Ready" goes together with
      `passengers` being set; no two leads share an id or a contact. */
  lemma {:induction false} RunPreservesInvariant(db: Db, reqs: seq<Request>)
    requires DbInvariant(db)
    ensures DbInvariant(Run(db, reqs))
    decreases |reqs|
  {
    if reqs != [] {
      StepPreservesInvariant(db, reqs[0]);
      RunPreservesInvariant(Step(db, reqs[0]), reqs[1..]);
    }
  }

  /** From an empty database, every lead in every reachable state satisfies the
      lead invariant. */
  lemma ReachableLeadsWellFormed(reqs: seq<Request>, c: string)
    requires c in Run(EmptyDb, reqs).leads
    ensures LeadInvariant(Run(EmptyDb, reqs).leads[c])
    ensures Run(EmptyDb, reqs).leads[c].stage == Some(QuoteReadyStage) ==> AllFilled(Slots(Run(EmptyDb, reqs).leads[c]))
  {
    EmptyDbInvariant();
    RunPreservesInvariant(EmptyDb, reqs);
    var l := Run(EmptyDb, reqs).leads[c];
    if l.stage == Some(QuoteReadyStage) {
      QuoteReadyMeansAllFilled(l);
    }
  }

  /** One request keeps a stored lead, with its identity; unless it resets that
      lead, it keeps a set intent and every filled slot. */
  lemma StepKeepsLead(db: Db, req: Request, c: string)
    requires c in db.leads
    ensures c in Step(db, req).leads
    ensures SameIdentity(Step(db, req).leads[c], db.leads[c])
    ensures !ResetsContact(req, c) && db.leads[c].intent.Some? ==>
      Step(db, req).leads[c].intent == db.leads[c].intent
    ensures !ResetsContact(req, c) ==>
      forall k :: 0 <= k < 3 && Slots(db.leads[c])[k].Some? ==>
        Slots(Step(db, req).leads[c])[k] == Slots(db.leads[c])[k]
  {
  }

  /** Once set, the intent of a lead does not change until the lead is reset. */
  lemma {:induction false} IntentFixedUntilReset(db: Db, reqs: seq<Request>, c: string)
    requires c in db.leads && db.leads[c].intent.Some?
    requires forall i :: 0 <= i < |reqs| ==> !ResetsContact(reqs[i], c)
    ensures c in Run(db, reqs).leads
    ensures Run(db, reqs).leads[c].intent == db.leads[c].intent
    decreases |reqs|
  {
    if reqs != [] {
      StepKeepsLead(db, reqs[0], c);
      assert forall i :: 0 <= i < |reqs[1..]| ==> reqs[1..][i] == reqs[i + 1];
      IntentFixedUntilReset(Step(db, reqs[0]), reqs[1..], c);
    }
  }

  /** A filled slot is never overwritten until the lead is reset (first write wins). */
  lemma {:induction false} SlotFixedUntilReset(db: Db, reqs: seq<Request>, c: string, k: nat)
    requires c in db.leads && k < 3 && Slots(db.leads[c])[k].Some?
    requires forall i :: 0 <= i < |reqs| ==> !ResetsContact(reqs[i], c)
    ensures c in Run(db, reqs).leads
    ensures Slots(Run(db, reqs).leads[c])[k] == Slots(db.leads[c])[k]
    decreases |reqs|
  {
    if reqs != [] {
      StepKeepsLead(db, reqs[0], c);
      assert forall i :: 0 <= i < |reqs[1..]| ==> reqs[1..][i] == reqs[i + 1];
      SlotFixedUntilReset(Step(db, reqs[0]), reqs[1..], c, k);
    }
  }

  /** A stored lead is never deleted and keeps its id, contact and channel. */
  lemma {:induction false} IdentityKept(db: Db, reqs: seq<Request>, c: string)
    requires c in db.leads
    ensures c in Run(db, reqs).leads
    ensures SameIdentity(Run(db, reqs).leads[c], db.leads[c])
    decreases |reqs|
  {
    if reqs != [] {
      StepKeepsLead(db, reqs[0], c);
      IdentityKept(Step(db, reqs[0]), reqs[1..], c);
    }
  }

  /** The message log is append-only and grows by two entries per turn. */
  lemma {:induction false} LogAppendOnly(db: Db, reqs: seq<Request>)
    ensures |Run(db, reqs).messages| == |db.messages| + 2 * TurnCount(reqs)
    ensures Run(db, reqs).messages[..|db.messages|] == db.messages
    decreases |reqs|
  {
    if reqs != [] {
      var next := Step(db, reqs[0]);
      assert next.messages[..|db.messages|] == db.messages;
      LogAppendOnly(next, reqs[1..]);
      var final := Run(db, reqs);
      assert final.messages[..|db.messages|] == final.messages[..|next.messages|][..|db.messages|];
    }
  }
}
