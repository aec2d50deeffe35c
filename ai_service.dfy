/** The keyword intent classifier and the template reply generator. */
module AiService {
  import opened LeadModel

  const TravelWords: seq<string> := ["ticket", "flight", "travel", "visa"]
  const HealthWords: seq<string> := ["health", "medicine", "pain"]

  /** The replies. Their wording is opaque; only their identity matters. */
  const AskDestination: string := "Great! May I know your travel destination?"
  const AskTravelDate: string := "What is your preferred travel date?"
  const AskPassengers: string := "How many passengers will be travelling?"
  const TravelComplete: string := "Thank you. I will prepare the best travel options for you."
  const HealthPrompt: string := "Could you please describe your health concern?"
  const AssistPrompt: string := "How can I assist you today?"

  /** The question asked for each slot, in slot order. */
  const SlotPrompts: seq<string> := [AskDestination, AskTravelDate, AskPassengers]

  /** The six replies are pairwise different, so a reply identifies its branch. */
  lemma RepliesDistinct()
    ensures forall i, j :: 0 <= i < j < 3 ==> SlotPrompts[i] != SlotPrompts[j]
    ensures forall k :: 0 <= k < 3 ==> SlotPrompts[k] != TravelComplete
    ensures forall k :: 0 <= k < 3 ==> SlotPrompts[k] != HealthPrompt && SlotPrompts[k] != AssistPrompt
    ensures TravelComplete != HealthPrompt && TravelComplete != AssistPrompt && HealthPrompt != AssistPrompt
  {
  }

  // ---------------------------------------------------------------- lower()

  function LowerChar(c: char): (r: char)
    ensures !('A' <= r <= 'Z')
    ensures !('A' <= c <= 'Z') ==> r == c
  {
    if 'A' <= c <= 'Z' then (c as int - 'A' as int + 'a' as int) as char else c
  }

  /** `str.lower()` on the ASCII letters. */
  function Lower(s: string): (r: string)
    ensures |r| == |s|
    ensures forall i :: 0 <= i < |s| ==> r[i] == LowerChar(s[i])
  {
    if s == [] then [] else [LowerChar(s[0])] + Lower(s[1..])
  }

  lemma LowerIdempotent(s: string)
    ensures Lower(Lower(s)) == Lower(s)
  {
  }

  // ------------------------------------------------------- `w in text`

  /** The specification of Python's substring test `w in s`. */
  ghost predicate Occurs(w: string, s: string) {
    exists i :: OccursAt(w, s, i)
  }

  ghost predicate OccursAt(w: string, s: string, i: int) {
    0 <= i && i + |w| <= |s| && s[i..i + |w|] == w
  }

  /** When `w` is not a prefix of `s`, it occurs in `s` iff it occurs in `s[1..]`. */
  lemma OccursInTail(w: string, s: string)
    requires |w| <= |s| && s[..|w|] != w
    ensures Occurs(w, s) <==> Occurs(w, s[1..])
  {
    if Occurs(w, s) {
      var i :| OccursAt(w, s, i);
      assert i != 0;
      assert s[1..][i - 1..i - 1 + |w|] == s[i..i + |w|];
      assert OccursAt(w, s[1..], i - 1);
    }
    if Occurs(w, s[1..]) {
      var i :| OccursAt(w, s[1..], i);
      assert s[i + 1..i + 1 + |w|] == s[1..][i..i + |w|];
      assert OccursAt(w, s, i + 1);
    }
  }

  /** The substring test, by scanning the start positions left to right. */
  function Contains(s: string, w: string): (r: bool)
    ensures r <==> Occurs(w, s)
    decreases |s|
  {
    if |s| < |w| then false
    else if s[..|w|] == w then assert OccursAt(w, s, 0); true
    else OccursInTail(w, s); Contains(s[1..], w)
  }

  /** The specification of `any(w in s for w in words)`. */
  ghost predicate MentionsAny(words: seq<string>, s: string) {
    exists k :: 0 <= k < |words| && Occurs(words[k], s)
  }

  function AnyContains(words: seq<string>, s: string): (r: bool)
    ensures r <==> MentionsAny(words, s)
  {
    if words == [] then false
    else if Contains(s, words[0]) then true
    else
      assert forall k :: 1 <= k < |words| ==> words[1..][k - 1] == words[k];
      AnyContains(words[1..], s)
  }

  // ----------------------------------------------------- detect_intent

  /** Travel words win over health words; anything else is general. */
  function DetectIntent(text: string): (r: string)
    ensures IsIntent(r)
    ensures r == TravelIntent <==> MentionsAny(TravelWords, Lower(text))
    ensures r == HealthIntent <==>
      !MentionsAny(TravelWords, Lower(text)) && MentionsAny(HealthWords, Lower(text))
    ensures r == GeneralIntent <==>
      !MentionsAny(TravelWords, Lower(text)) && !MentionsAny(HealthWords, Lower(text))
  {
    var lowered := Lower(text);
    if AnyContains(TravelWords, lowered) then TravelIntent
    else if AnyContains(HealthWords, lowered) then HealthIntent
    else GeneralIntent
  }

  lemma DetectIntentCaseInsensitive(text: string)
    ensures DetectIntent(Lower(text)) == DetectIntent(text)
  {
    LowerIdempotent(text);
  }

  // ------------------------------------------------- generate_ai_reply

  /** A travel lead is asked for its first null slot, or told that the quote is
      being prepared; a health lead gets the health prompt, every other lead the
      assistance prompt. Only the intent and the slots decide the reply. */
  function GenerateAiReply(lead: Lead): (r: string)
    ensures lead.intent == Some(TravelIntent) ==>
      forall k :: IsFirstMissing(Slots(lead), k) ==> r == SlotPrompts[k]
    ensures lead.intent == Some(TravelIntent) ==>
      (r == TravelComplete <==> AllFilled(Slots(lead)))
    ensures lead.intent == Some(HealthIntent) ==> r == HealthPrompt
    ensures lead.intent != Some(TravelIntent) && lead.intent != Some(HealthIntent) ==>
      r == AssistPrompt
  {
    RepliesDistinct();
    if lead.intent == Some(TravelIntent) then
      if lead.destination.None? then assert Slots(lead)[0].None?; AskDestination
      else if lead.travelDate.None? then
        assert Slots(lead)[0].Some? && Slots(lead)[1].None?; AskTravelDate
      else if lead.passengers.None? then
        assert Slots(lead)[1].Some? && Slots(lead)[2].None?; AskPassengers
      else TravelComplete
    else if lead.intent == Some(HealthIntent) then HealthPrompt
    else AssistPrompt
  }

  lemma GenerateAiReplyReadsOnlyIntentAndSlots(a: Lead, b: Lead)
    requires a.intent == b.intent && Slots(a) == Slots(b)
    ensures GenerateAiReply(a) == GenerateAiReply(b)
  {
  }
}
