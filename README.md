# Lead state machine of the AI sales assistant

A Dafny model of the core of a sales chatbot. The chatbot keeps one lead per contact. Each inbound message runs one turn of the lead:

- The first message of a conversation is classified by a keyword test: travel, then health, then general. It moves the lead to stage "Qualified".
- Later messages to a travel lead fill destination, then travel date, then passengers with the raw message text.
- Filling passengers moves the lead to "Quote Ready".
- Every turn logs the customer's message and the template reply.
- A reset endpoint returns a lead to "New Lead" without deleting it.

Modules, one per source file or component:

- `LeadModel` (`lead_model.dfy`): the `Lead` and `Message` rows of `app/models/`. It holds the string values of the intent, stage, sender and channel columns, the slot order and the lead invariant.
- `AiService` (`ai_service.dfy`): `detect_intent` and `generate_ai_reply`, as pure functions. `lower()` and the substring test `w in text` are modelled as functions and proved against their specifications.
- `Database` (`database.dfy`): the database as a value `Db` and its invariant, plus the class `Session`. The session holds the leads table as a map keyed by the unique `contact`, the autoincrement counter for lead ids, and the append-only message log.
- `LeadService` (`lead_service.dfy`): `get_or_create_lead`. `GetOrCreateStep` is a function on `Db`; the method `GetOrCreateLead` changes the session and is proved equal to that function.
- `Webhook` (`webhook.dfy`): the body of `test_webhook` and `reset_lead`. `ApplyTurn`, `Cleared`, `TurnStep` and `ResetStep` are functions. `TestWebhook` and `ResetLead` are methods that update the session step by step, as the handlers update the row, and are each proved equal to their step function.
- `Conversation` (`conversation.dfy`): arbitrary sequences of create, turn and reset requests, and what holds after any of them.
- `Scenario` (`scenario.dfy`): one concrete conversation, from an empty database to a reset.

Facts about the code that the model keeps:

- Every first message is classified, however short.
- The slots take the raw message text.
- The stage stays "Qualified" until passengers are filled.
- A reset of an unknown contact answers "not found".
- Only travel leads reach "Quote Ready".

## Model

| member | source | states |
|---|---|---|
| `LeadModel.QuoteReadyMeansAllFilled` | app/routes/webhook.py:47-56 | in every reachable lead state, stage "Quote Ready" means all three slots are filled and the intent is travel |
| `AiService.Lower` | app/services/ai_service.py:2 | lowering keeps the length and maps each character by itself; no upper-case ASCII letter is left |
| `AiService.LowerIdempotent` | app/services/ai_service.py:2 | lowering twice is lowering once |
| `AiService.Contains` | app/services/ai_service.py:4 | the scan returns true exactly when the word occurs as a contiguous substring at some position (`w in text`) |
| `AiService.AnyContains` | app/services/ai_service.py:4-8 | `any(w in text for w in words)` is true exactly when some word of the list occurs in the text |
| `AiService.DetectIntent` | app/services/ai_service.py:1-10 | total, and always one of "travel", "health", "general". It is "travel" iff a travel word occurs in the lowered text, even when a health word does too. It is "health" iff no travel word and some health word occurs. It is "general" iff no keyword occurs |
| `AiService.DetectIntentCaseInsensitive` | app/services/ai_service.py:2 | classifying the lowered text gives the same intent as classifying the text |
| `AiService.RepliesDistinct` | app/services/ai_service.py:13-26 | the six template replies are pairwise different, so a reply identifies its branch |
| `AiService.GenerateAiReply` | app/services/ai_service.py:13-26 | a travel lead is asked for its first null slot (destination, then date, then passengers). It gets the completion message iff all slots are filled. A health lead gets the health prompt. Any other intent, null included, gets "How can I assist you today?" |
| `AiService.GenerateAiReplyReadsOnlyIntentAndSlots` | app/services/ai_service.py:13-26 | two leads with the same intent and slots get the same reply; stage, id and contact play no part |
| `Database.EmptyDbInvariant` | app/main.py:5 | the freshly created, empty tables satisfy the database invariant |
| `Database.Session.constructor` | app/main.py:5 | a new session starts on empty tables with the id counter at 1 |
| `Database.LeadIdsAfterInsert` | app/services/lead_service.py:14 | inserting a lead under a new contact adds exactly its id to the ids in use |
| `LeadService.NewLead` | app/services/lead_service.py:9-13 | the inserted row has the given id, contact and channel, stage "New Lead", null intent and null slots, and satisfies the lead invariant |
| `LeadService.GetOrCreateStep` | app/services/lead_service.py:4-17 | an existing lead is returned with the database unchanged, and the channel argument is ignored. Otherwise exactly one new lead is inserted under the next id. The contact then maps to the returned lead, and the log is untouched |
| `LeadService.GetOrCreateUniqueAndFresh` | app/services/lead_service.py:5-16 | afterwards exactly one stored lead has the contact. A new lead's id is used by no earlier lead. Every other lead is unchanged |
| `LeadService.GetOrCreatePreservesInvariant` | app/services/lead_service.py:9-16 | lookup-or-insert keeps the database invariant: unique contacts and ids, and reachable lead states |
| `LeadService.GetOrCreateLead` | app/services/lead_service.py:4-17 | the session's new contents and the returned lead are those of `GetOrCreateStep`, and the session stays valid |
| `Webhook.ApplyTurn` | app/routes/webhook.py:39-57 | id, contact and channel are kept. On a null intent it sets `detect_intent(text)` and "Qualified" and leaves the slots unchanged. A set intent never changes. A non-travel lead is unchanged. A travel lead gets the text in exactly its first null slot, and "Quote Ready" iff that slot is passengers. With no null slot nothing changes. A filled slot is never overwritten. The lead invariant is preserved |
| `Webhook.Cleared` | app/routes/webhook.py:89-93 | intent and slots become null and stage "New Lead"; id, contact and channel are kept |
| `Webhook.TurnStep` | app/routes/webhook.py:27-79 | the contact's lead (created with channel "whatsapp" if unseen) becomes `ApplyTurn` of it. Other leads are unchanged. The reply is `GenerateAiReply` of the updated lead. The log grows by exactly a customer message with the text and then an AI message with the reply, both carrying the lead's id and "whatsapp"; earlier entries are untouched |
| `Webhook.ResetStep` | app/routes/webhook.py:84-96 | an unknown contact gives "not found" and no change. A known one gives "reset successful" and only that lead becomes `Cleared` of itself; the log is untouched |
| `Webhook.TurnPreservesInvariant` | app/routes/webhook.py:28-68 | a turn keeps the database invariant |
| `Webhook.ResetPreservesInvariant` | app/routes/webhook.py:89-94 | a reset keeps the database invariant |
| `Webhook.ResetIdempotent` | app/routes/webhook.py:84-96 | resetting the same contact a second time changes nothing and answers as the first time |
| `Webhook.TestWebhook` | app/routes/webhook.py:27-79 | the handler, mutating the session step by step, yields exactly the state and response of `TurnStep` and keeps the session valid |
| `Webhook.ResetLead` | app/routes/webhook.py:84-96 | the endpoint, overwriting the lead's fields, yields exactly the state and status of `ResetStep` and keeps the session valid |
| `Conversation.StepPreservesInvariant` | app/routes/webhook.py:39-57 | each kind of request (create, turn, reset) keeps the database invariant |
| `Conversation.RunPreservesInvariant` | app/routes/webhook.py:48-56 | after any sequence of requests the invariant still holds. The filled slots form a prefix of the slot order. "Quote Ready" goes with passengers being set. The intent is null exactly in "New Lead". Contacts and ids stay unique |
| `Conversation.ReachableLeadsWellFormed` | app/routes/webhook.py:48-56 | every lead reachable from the empty database satisfies the lead invariant, and "Quote Ready" means all slots are filled |
| `Conversation.StepKeepsLead` | app/routes/webhook.py:40-57 | a request never deletes a lead or changes its identity. Unless it resets that lead, it keeps a set intent and every filled slot |
| `Conversation.IntentFixedUntilReset` | app/routes/webhook.py:40-47 | over any requests that do not reset the contact, a set intent stays the same |
| `Conversation.SlotFixedUntilReset` | app/routes/webhook.py:48-55 | over any requests that do not reset the contact, a filled slot keeps its value (first write wins) |
| `Conversation.IdentityKept` | app/routes/webhook.py:89-93 | over any requests, resets included, a stored lead stays stored with its id, contact and channel |
| `Conversation.LogAppendOnly` | app/routes/webhook.py:31-67 | over any requests the log only grows at its end, and by exactly two entries per turn |
| `Scenario.DetectTravelExample` | app/services/ai_service.py:4-5 | "need a flight" is classified as travel |
| `Scenario.TravelConversation` | app/routes/webhook.py:27-96 | worked conversation. Turn 1 classifies and asks for the destination. Turns 2 to 4 fill destination, date and passengers, each reply asking for the next one, and end in "Quote Ready" with the completion reply. Turn 5 changes only the log. The reset gives "New Lead" under the same id |

## Left out

- HTTP routing, request parsing, the session lifecycle and the `commit`/`refresh` calls are left out. The database is a map, a counter and a log inside one session object, and every write counts as committed at once.
- The id counter models the database's autoincrement. Message ids are positions in the log, since messages are never deleted.
- The turn's `"status": "ok"` is left out; its answer is the updated lead with the reply. The reset's status is modelled as `ResetStatus`.
- Concurrent requests for the same contact are left out: each request runs to completion before the next starts.
- `app/main.py` is left out except for the start from empty tables; the rest is application wiring.
- `create_all` (app/main.py:5) keeps rows already stored in an existing database. The model assumes such rows hold only states these handlers produce. That is what `Session.Valid()` requires.
- AiService.Lower: models only the ASCII case mapping of Python's `str.lower()`. Non-ASCII case mapping, including characters whose lower-case form has a different length, is not modelled.
- The wording of the reply strings is treated as opaque; only their distinctness is used.
- `app/database.py` (the engine and the session factory) is not part of this model.
