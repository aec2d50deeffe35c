/** The shapes of the two tables (leads and messages), the values their string
    columns take, and the well-formedness of a lead that the turn handler keeps. */
module LeadModel {

  /** A nullable column. */
  datatype Option<T> = None | Some(value: T)

  /** The values `detect_intent` writes into the `intent` column. */
  const TravelIntent: string := "travel"
  const HealthIntent: string := "health"
  const GeneralIntent: string := "general"

  predicate IsIntent(s: string) {
    s == TravelIntent || s == HealthIntent || s == GeneralIntent
  }

  /** The values the handlers write into the `stage` column. */
  const NewLeadStage: string := "New Lead"
  const QualifiedStage: string := "Qualified"
  const QuoteReadyStage: string := "Quote Ready"

  /** The `sender` and `channel` values of the message log. */
  const CustomerSender: string := "customer"
  const AiSender: string := "ai"
  const Whatsapp: string := "whatsapp"

  /** One row of the leads table. `id` is the primary key, `contact` the unique key. */
  datatype Lead = Lead(
    id: nat,
    contact: string,
    channel: string,
    intent: Option<string>,
    stage: Option<string>,
    destination: Option<string>,
    travelDate: Option<string>,
    passengers: Option<string>
  )

  /** One row of the messages table; its own id is its position in the log. */
  datatype Message = Message(leadId: nat, sender: string, text: string, channel: string)

  /** The travel slots in the order in which the turn handler fills them. */
  function Slots(l: Lead): (s: seq<Option<string>>)
    ensures |s| == 3
  {
    [l.destination, l.travelDate, l.passengers]
  }

  /** Every filled slot is preceded only by filled slots. */
  ghost predicate FilledPrefix(s: seq<Option<string>>) {
    forall i, j :: 0 <= i < j < |s| && s[j].Some? ==> s[i].Some?
  }

  /** Slot k is the first slot that is still null. */
  ghost predicate IsFirstMissing(s: seq<Option<string>>, k: int) {
    0 <= k < |s| && s[k].None? && forall j :: 0 <= j < k ==> s[j].Some?
  }

  ghost predicate AllFilled(s: seq<Option<string>>) {
    forall i :: 0 <= i < |s| ==> s[i].Some?
  }

  ghost predicate AllNull(s: seq<Option<string>>) {
    forall i :: 0 <= i < |s| ==> s[i].None?
  }

  /** The lead keeps the primary key, the contact and the channel of `other`. */
  ghost predicate SameIdentity(l: Lead, other: Lead) {
    l.id == other.id && l.contact == other.contact && l.channel == other.channel
  }

  /** The states the create, turn and reset operations can lead to:
      the filled slots form a prefix of (destination, travel_date, passengers);
      only a travel lead has slots; the intent is null exactly in stage "New Lead";
      a set intent is one `detect_intent` returns and goes with "Qualified" or
      "Quote Ready"; and "Quote Ready" goes together with `passengers` being set. */
  ghost predicate LeadInvariant(l: Lead) {
    && FilledPrefix(Slots(l))
    && (l.destination.Some? ==> l.intent == Some(TravelIntent))
    && (l.intent.None? <==> l.stage == Some(NewLeadStage))
    && (l.intent.Some? ==> IsIntent(l.intent.value))
    && (l.intent.Some? ==> l.stage == Some(QualifiedStage) || l.stage == Some(QuoteReadyStage))
    && (l.stage == Some(QuoteReadyStage) <==> l.passengers.Some?)
  }

  /** Under the invariant, "Quote Ready" means every slot is filled. */
  lemma QuoteReadyMeansAllFilled(l: Lead)
    requires LeadInvariant(l)
    requires l.stage == Some(QuoteReadyStage)
    ensures AllFilled(Slots(l)) && l.intent == Some(TravelIntent)
  {
    assert Slots(l)[2].Some?;
    assert Slots(l)[0].Some?;
  }
}
