# GENOME_GPT chat session store and dashboard helpers, in Dafny

This project models two parts of the GENOME_GPT web front end and proves properties of them.

**The chat route** (`app/api/chat/route.js`) keeps conversations in an in-memory map from session id to a growable array of role-tagged turns.
- `POST` refuses a missing or empty message with status 400.
- It then asks a classifier whether the message is about health. The classifier fails open: if the call throws, the message is let through.
- A message classified "no" gets a fixed refusal. No completion call is made and no state changes.
- Otherwise the session is created on first use, seeded with one system turn, and the user turn is pushed.
- Once the array is longer than 20 turns, the map is given a new array: the system turn followed by the last 19 turns.
- The completion API is then called, and its reply (or a fixed fallback when the reply is empty) is pushed onto the array the handler fetched at the start.
- `GET` returns a history without its system turn. `DELETE` drops a session.

The module `ChatRoute` states the route twice:
- as functions on values: `PostSpec`, `GetSpec`, `DeleteSpec`;
- as the class `ChatStore`, whose map holds `Conversation` objects by reference, just as the JavaScript map holds arrays.

`PostSpec` handles the gate and hands an admitted message to `AdmittedPost`, which records the user turn, truncates, and applies the completion outcome. `ChatStore.Post` is proved to produce exactly what `PostSpec` describes; after the gate it delegates to `ChatStore.Admit`, which is proved against `AdmittedPost`, and `ChatStore.Get` and `ChatStore.Delete` likewise match `GetSpec` and `DeleteSpec`. `ChatProperties` proves the route's promises about the value-level model.

The two upstream calls are inputs:
- `ClassifierOutcome`: the call threw, returned no content, or returned some text;
- `CompletionOutcome`: the call threw, or returned an optional content.

`POST` also reports which upstream calls it made: the message it classified and the history it sent for completion.

The aliasing is modelled as the code has it. When truncation fires, the map receives a new array, but the assistant turn is pushed onto the superseded one, and `conversationLength` is read from that superseded array. So after a truncation the stored history does not contain the reply (see Findings).

**The dashboard page** (`app/genomics/page.js`): module `Genomics`, with the shared merge logic in `KeyedMerge`.
- The cancer-risk form validator: empty fields first, then inclusive ranges checked in table order.
- The two de-duplicating merges used when BioSync dashboard data arrives. History entries are appended, keyed by timestamp and user, and the last 10 kept. Interventions are prepended one at a time, keyed by timestamp and biomarker, and the first 20 kept.
- The manual submission: the new entry goes into the last 5 history entries, and the returned interventions are prepended with no cap.
- `getRiskColor`.

`parseFloat` is a parameter `parse: string -> Option<real>`, where `None` stands for NaN.

Three behaviours of the code are worth stating outright:
- There is no second truncation after the reply is pushed, so a stored history can reach 21 turns.
- `conversationLength` is 2n for the first 10 messages of a session, 22 for the eleventh and 21 after that, while `GET` reports 19 (`ChatProperties.ReportedLengthOfExchange`).
- A `POST` body's `sessionId` falls back to `"default"` only when absent, while `GET` and `DELETE` also map `""` to `"default"`. So a `POST` with `sessionId: ""` writes to a session that `GET` and `DELETE` cannot reach (`ChatProperties.SessionKeyDefaults`).

## Model

| member | source | states |
|---|---|---|
| `ChatRoute.ChatStore.constructor` | Frontend/genomegpt/app/api/chat/route.js:14 | the store starts empty and valid |
| `ChatRoute.ChatStore.Post` | Frontend/genomegpt/app/api/chat/route.js:59-141 | the in-place handler, with the map holding arrays by reference, leaves exactly the store, response, classified message and completion request that `PostSpec` gives, and keeps every history well formed |
| `ChatRoute.ChatStore.Admit` | Frontend/genomegpt/app/api/chat/route.js:83-139 | the part of the handler after the gate leaves exactly the store, response and completion request that `AdmittedPost` gives |
| `ChatRoute.ChatStore.Attach` | Frontend/genomegpt/app/api/chat/route.js:83-92 | get-or-create: the key is mapped, the fetched array holds the prior history (a new array with the system turn for an unknown key), and no other history changes |
| `ChatRoute.ChatStore.PushUserTurn` | Frontend/genomegpt/app/api/chat/route.js:83-98 | the fetched array, still the one in the map, ends with the user turn after the prior history |
| `ChatRoute.ChatStore.RecordUserTurn` | Frontend/genomegpt/app/api/chat/route.js:83-106 | get-or-create then push the user turn: the fetched array ends with the user turn; the stored history is the truncated one; when truncation fires the fetched array is no longer in the map |
| `ChatRoute.ChatStore.TruncateStored` | Frontend/genomegpt/app/api/chat/route.js:100-106 | the key gets a new array holding the first turn and the last 19; the old array leaves the map; no other history changes |
| `ChatRoute.ChatStore.Respond` | Frontend/genomegpt/app/api/chat/route.js:108-139 | a failed completion answers 500 and changes nothing; a reply is pushed onto the fetched array, and the answer carries that array's new length less one |
| `ChatRoute.ChatStore.AppendReply` | Frontend/genomegpt/app/api/chat/route.js:119-122 | the turn is pushed onto the fetched array; the stored histories gain it only when that array is still the one in the map |
| `ChatRoute.ChatStore.Get` | Frontend/genomegpt/app/api/chat/route.js:143-164 | reads without changing anything and returns the history minus its first turn, or `[]` and 0 with no session id when absent |
| `ChatRoute.ChatStore.Delete` | Frontend/genomegpt/app/api/chat/route.js:175-185 | removes exactly the queried key, keeps the store valid, echoes the key |
| `ChatRoute.PostSessionKey` | Frontend/genomegpt/app/api/chat/route.js:61 | the `POST` body's destructuring default: an absent session id becomes "default", and any given one, the empty string included, is kept |
| `ChatRoute.QuerySessionKey` | Frontend/genomegpt/app/api/chat/route.js:146 | the query parameter's fallback to "default": the key is never empty; an absent or empty session id becomes "default", and any other is kept |
| `ChatRoute.IsHealthRelated` | Frontend/genomegpt/app/api/chat/route.js:17-57 | the classifier verdict fails open: a thrown call accepts, a reply without content refuses, and an accepted reply has at least three characters; `ChatProperties.AcceptedReplyIsYes` and `ChatProperties.YesReplyIsAccepted` give the full condition |
| `ChatRoute.PostSpec` | Frontend/genomegpt/app/api/chat/route.js:59-141 | a message is classified only when present and non-empty, and the completion is asked only for a message the classifier accepted; the lemmas of `ChatProperties` give each outcome |
| `ChatRoute.Truncated` | Frontend/genomegpt/app/api/chat/route.js:100-106 | a history longer than 20 turns is cut to 20, a shorter one kept whole; either way the result is the first turn followed by the latest turns |
| `ChatRoute.GetSpec` | Frontend/genomegpt/app/api/chat/route.js:143-164 | the reported length is the number of returned messages; the session id is echoed exactly when the queried key is stored, and an absent session returns no messages |
| `ChatRoute.DeleteSpec` | Frontend/genomegpt/app/api/chat/route.js:175-185 | exactly the queried key is removed, whether or not it was stored, and every other history is kept |
| `ChatRoute.ReplyContent` | Frontend/genomegpt/app/api/chat/route.js:116 | the assistant content is never empty: a non-empty reply is kept as is, and a missing or empty one becomes the fixed fallback text |
| `ChatRoute.AdmittedPost` | Frontend/genomegpt/app/api/chat/route.js:83-127 | an admitted message maps its key, leaves every other session as it was, and records the message as classified |
| `ChatRoute.AdmittedPostKeepsInvariant` | Frontend/genomegpt/app/api/chat/route.js:83-122 | an admitted non-empty message keeps every history well formed |
| `ChatRoute.PostKeepsInvariant` | Frontend/genomegpt/app/api/chat/route.js:83-122 | every `POST` keeps every history 1 to 21 turns long, with the system turn first and nowhere else, and no empty turn |
| `ChatRoute.TruncatedWellFormed` | Frontend/genomegpt/app/api/chat/route.js:100-106 | truncating a well-formed history plus one user turn yields exactly 20 turns when it exceeded 20, and changes nothing otherwise |
| `Ascii.TrimCutsWhitespace` | Frontend/genomegpt/app/api/chat/route.js:50 | trim returns a slice of the input with only whitespace cut on either side, and a non-empty result starts and ends with non-whitespace |
| `Ascii.ToLower` | Frontend/genomegpt/app/api/chat/route.js:50 | lower-casing keeps the length and lowers each character on its own |
| `Ascii.TrimOfPadded` | Frontend/genomegpt/app/api/chat/route.js:50 | trimming whitespace-padded text gives back the inner text |
| `ChatProperties.MissingMessageRejected` | Frontend/genomegpt/app/api/chat/route.js:61-68 | the answer is 400 exactly when the message is absent or empty; then nothing is classified, nothing is sent and the store is unchanged |
| `ChatProperties.ClassifierFailsOpen` | Frontend/genomegpt/app/api/chat/route.js:50-56 | a thrown classifier call lets the message through; a reply with no content does not |
| `ChatProperties.AcceptedReplyIsYes` | Frontend/genomegpt/app/api/chat/route.js:50-51 | a reply the classifier accepts is "yes" in some letter case, with only whitespace around it |
| `ChatProperties.YesReplyIsAccepted` | Frontend/genomegpt/app/api/chat/route.js:50-51 | every "yes", in any letter case and with any whitespace around it, is accepted (the converse of the row above) |
| `ChatProperties.RefusalLeavesStoreUnchanged` | Frontend/genomegpt/app/api/chat/route.js:70-80 | a message classified "no" gets the refusal with length 0 and `filtered` true, makes no completion call and leaves the store unchanged |
| `ChatProperties.AcceptedMessageReachesSession` | Frontend/genomegpt/app/api/chat/route.js:61-98 | a message the gate lets through is handled by the admitted step, under the `POST` session key, with its own text |
| `ChatProperties.SessionKeyDefaults` | Frontend/genomegpt/app/api/chat/route.js:61 | an absent session id means "default" in every handler; the query string also maps "" to "default", while a `POST` body does not |
| `ChatProperties.FirstMessageCreatesSession` | Frontend/genomegpt/app/api/chat/route.js:83-98 | for an unknown session an admitted message adds only that key, holding the system turn then the user turn, then the reply when there is one, reported as length 2 |
| `ChatProperties.TruncatingPostDropsReply` | Frontend/genomegpt/app/api/chat/route.js:100-127 | when an admitted message takes the history past 20 turns, the stored and sent history is the old first turn plus the last 19: 20 turns, the user turn last; the reply is not stored, the reported length is the prior length plus 1, and `GET` then reports 19 |
| `ChatProperties.PlainPostAppendsExchange` | Frontend/genomegpt/app/api/chat/route.js:92-127 | without truncation an answered message grows the history by exactly the user and assistant turns, sends the history with the user turn, and reports the new length minus 1 |
| `ChatProperties.CompletionFailureKeepsUserTurn` | Frontend/genomegpt/app/api/chat/route.js:95-139 | a failed completion answers 500 and leaves the (truncated) history with the user turn stored last and no reply after it |
| `ChatProperties.PostTouchesOnlyItsSession` | Frontend/genomegpt/app/api/chat/route.js:83-122 | a `POST` changes no other session |
| `ChatProperties.GetOmitsSystemTurn` | Frontend/genomegpt/app/api/chat/route.js:148-164 | `GET` returns the stored history minus its system turn (never a system turn, at most 20 turns), or an empty answer for an absent session |
| `ChatProperties.DeleteClearsOnlyItsSession` | Frontend/genomegpt/app/api/chat/route.js:175-185 | `DELETE` removes exactly its key, is idempotent, and a later `GET` finds nothing |
| `ChatProperties.ReplayKeepsInvariant` | Frontend/genomegpt/app/api/chat/route.js:83-122 | after any sequence of `POST`, `GET` and `DELETE` requests every history is well formed |
| `ChatProperties.StoredLengthAfterExchanges` | Frontend/genomegpt/app/api/chat/route.js:95-122 | on a new session, n accepted exchanges leave 2n+1 turns up to n = 10 and 20 turns after that |
| `ChatProperties.SendLength` | Frontend/genomegpt/app/api/chat/route.js:95-122 | one exchange adds two turns, unless the history then exceeds 20 turns, when it is left at 20 |
| `ChatProperties.ReportedLengthOfExchange` | Frontend/genomegpt/app/api/chat/route.js:116-127 | the n-th exchange reports 2n up to n = 10, then 22, then 21, while `GET` reports 2n and then 19 |
| `ChatProperties.LostReplyWitness` | Frontend/genomegpt/app/api/chat/route.js:100-127 | a concrete 20-turn session: the next answered message reports 21 turns, `GET` sees 19, and the reply is not stored |
| `ChatProperties.IntendedPostKeepsReply` | Frontend/genomegpt/app/api/chat/route.js:116-122 | with the reply appended to the history the map holds, every answered admitted message leaves a history ending with the user turn and its reply, and keeps histories well formed |
| `ChatProperties.IntendedLengthAgreesWithGet` | Frontend/genomegpt/app/api/chat/route.js:116-127 | with the reply appended to the history the map holds, the reported length is the stored length less one, which is what `GET` then reports |
| `ChatProperties.IntendedAgreesWithoutTruncation` | Frontend/genomegpt/app/api/chat/route.js:100-122 | the intended and the written admitted step agree whenever truncation does not fire |
| `KeyedMerge.AppendUnseen` | Frontend/genomegpt/app/genomics/page.js:80-88 | the copy-then-`push` loop returns the old list followed by the batch items whose keys were new when met |
| `KeyedMerge.PrependUnseen` | Frontend/genomegpt/app/genomics/page.js:94-102 | the copy-then-`unshift` loop returns those same new items, reversed, ahead of the old list |
| `KeyedMerge.Unseen` | Frontend/genomegpt/app/genomics/page.js:81-88 | the items a merge adds are at most as many as the batch; `UnseenIsSubsequence`, `UnseenKeysAreFresh`, `UnseenCoversBatch` and `UnseenTakesFirstOccurrence` characterise them |
| `KeyedMerge.LastN` | Frontend/genomegpt/app/genomics/page.js:89 | for a window n > 0, `slice(-n)` gives the last min(len, n) items |
| `KeyedMerge.FirstN` | Frontend/genomegpt/app/genomics/page.js:103 | `slice(0, n)` gives the first min(len, n) items |
| `KeyedMerge.UnseenIsSubsequence` | Frontend/genomegpt/app/genomics/page.js:81-88 | the added items are batch items, in batch order |
| `KeyedMerge.UnseenKeysAreFresh` | Frontend/genomegpt/app/genomics/page.js:81-88 | no added item's key was in the old list, and no two added items share a key, including items added earlier in the same batch |
| `KeyedMerge.UnseenCoversBatch` | Frontend/genomegpt/app/genomics/page.js:81-88 | after the merge every batch item's key is present |
| `KeyedMerge.UnseenTakesFirstOccurrence` | Frontend/genomegpt/app/genomics/page.js:81-88 | every batch item whose key is neither in the old list nor on an earlier batch item is added, so the item added for a key is its first occurrence in the batch |
| `KeyedMerge.MergeKeepsKeysDistinct` | Frontend/genomegpt/app/genomics/page.js:79-104 | a list with distinct keys keeps distinct keys after either merge |
| `Genomics.EmptyFields` | Frontend/genomegpt/app/genomics/page.js:134-135 | lists exactly the empty fields, in form order |
| `Genomics.ValidateCancerForm` | Frontend/genomegpt/app/genomics/page.js:133-158 | any empty field gives the full empty-field list and no range check; otherwise the form is valid exactly when every field parses within its inclusive range, and a failure names the first failing field of the table |
| `Genomics.RangeTableFollowsForm` | Frontend/genomegpt/app/genomics/page.js:142-148 | the range table covers the ten form fields once each, in form order |
| `Genomics.MergeBiomarkerHistory` | Frontend/genomegpt/app/genomics/page.js:79-90 | the history updater returns the last 10 of the old history followed by the unseen batch entries, keyed by (timestamp, user) |
| `Genomics.MergeInterventions` | Frontend/genomegpt/app/genomics/page.js:93-104 | the intervention updater returns the first 20 of: the unseen batch items, reversed, followed by the old list; items are keyed by (timestamp, biomarker) |
| `Genomics.HistoryMergeMeaning` | Frontend/genomegpt/app/genomics/page.js:79-90 | the merged history has at most 10 entries and is a suffix of the old entries followed by the new ones; before the cut, every batch key is present; the added entries come from the batch, in order |
| `Genomics.HistoryMergeKeys` | Frontend/genomegpt/app/genomics/page.js:79-90 | the added entries have keys the old history lacks and no two share a key; an old history with distinct keys keeps them distinct after the merge and cut |
| `Genomics.InterventionMergeMeaning` | Frontend/genomegpt/app/genomics/page.js:93-104 | the merged interventions number at most 20 and are a prefix of the new items in reverse batch order followed by the old list unchanged; before the cut, every batch key is present; the added items come from the batch, in order |
| `Genomics.InterventionMergeKeys` | Frontend/genomegpt/app/genomics/page.js:93-104 | the added items have keys the old list lacks; an old list with distinct keys keeps them distinct after the merge and cut |
| `Genomics.ApplyDashboardData` | Frontend/genomegpt/app/genomics/page.js:72-105 | each list is merged only when the dashboard reply carries it, and otherwise left unchanged |
| `Genomics.ReadingOrZero` | Frontend/genomegpt/app/genomics/page.js:225-229 | an unparsable reading becomes 0 |
| `Genomics.SubmittedEntry` | Frontend/genomegpt/app/genomics/page.js:222-230 | the submitted entry carries the form's user id and the submission time, and each unparsable reading is 0 |
| `Genomics.SubmittedHistory` | Frontend/genomegpt/app/genomics/page.js:232 | the history after a submission has min(len + 1, 5) entries: the newest old entries, then the new entry last |
| `Genomics.Stamped` | Frontend/genomegpt/app/genomics/page.js:243-246 | returned interventions keep their fields and order, and a missing timestamp becomes the submission time |
| `Genomics.InterventionsAfterSubmit` | Frontend/genomegpt/app/genomics/page.js:243-247 | the returned interventions come first, in order, each exactly as `Stamped` gives it, then the whole old list unchanged, with no cap |
| `Genomics.RiskColor` | Frontend/genomegpt/app/genomics/page.js:292-297 | a NaN percentage is red, and green means exactly a percentage below 25; `Genomics.RiskBands` gives every band |
| `Genomics.RiskBands` | Frontend/genomegpt/app/genomics/page.js:292-297 | four bands: below 25 green, [25, 50) yellow, [50, 75) orange, 75 and above red; a NaN percentage is red |
| `Genomics.RiskColorMonotone` | Frontend/genomegpt/app/genomics/page.js:292-297 | a higher percentage never gets a milder band |

## Left out

- The Groq SDK calls are not modelled; their results are the `ClassifierOutcome` and `CompletionOutcome` inputs. The prompt and model parameters are left out too.
- Request JSON parsing, `URL` parsing and `NextResponse` framing are not modelled. Responses are datatypes, and error bodies keep only the status.
- The 500 answers that `GET` and `DELETE` give on an exception are not modelled, because nothing in their modelled bodies can throw.
- A `message` that is a truthy non-string value (a number or an object) is not modelled; `message` is an optional string. The same goes for a `sessionId` of `null` in a `POST` body, which JavaScript would use as the key `null`.
- Interleaving of concurrent requests at the two `await` points is not modelled; each request is served whole, one after another.
- `trim` and `toLowerCase` are modelled only on ASCII whitespace and the letters A to Z. Unicode spaces and case mapping are not modelled.
- `console` logging is not modelled, nor the `process.env` API key.
- The prompt, system-instruction and refusal texts are constants; their wording carries no behaviour.
- The `parseFloat` grammar and floating-point arithmetic are not modelled: a parse is an `Option<real>`, and the ranges are compared over the reals.
- Clock readings (`toLocaleString`) are not modelled; they are the `now` parameter.
- `Genomics.Stamped`: one clock reading, `now`, stands for every `new Date().toLocaleString()` of the submission, while the page reads the clock again for each intervention without a timestamp, so the stamps it writes may differ from one another and from the entry's.
- A missing intervention timestamp is modelled as the empty string. JavaScript's `===` would tell `undefined` and `""` apart in the merge key; the model does not.
- A truthy `active_interventions` that is not an array makes `forEach` throw inside the state updater; this is not modelled. The dashboard lists are `Option<seq<…>>`.
- Intervention and history entries keep only the fields the page reads (for an intervention: timestamp, biomarker, priority, `intervention` and `value`). Other fields the services may send are not modelled.
- A `null` percentage is not modelled: `getRiskColor(null)` compares `null < 25` as `0 < 25` and answers green, while `RiskColor(None)` stands for `undefined` and NaN, which answer red.
- The CSS class strings `getRiskColor` returns are not modelled; `RiskColor` returns the band each string stands for.
- React state, effects, polling timers, the simulation start and stop calls, CSV upload, the prediction `fetch` and all rendering are UI and are not modelled. So are the landing page `app/page.js` and the chat page `app/chatbot/page.js`, which only forwards to the route.
- `ChatRoute.ChatStore`: it follows the route as written, including the reply lost after truncation. The corrected behaviour is the separate `ChatProperties.IntendedAdmittedPost`.

## Findings

| source | as written | input that shows it | evidently intended | confidence | as-written member | corrected member |
|---|---|---|---|---|---|---|
| Frontend/genomegpt/app/api/chat/route.js:100-127 | once truncation replaces the map's array, the assistant reply is pushed onto the superseded array; the stored history never gets the reply, and `conversationLength` (21) disagrees with what `GET` reports (19) | a session holding 20 turns, then one accepted message answered "a" | the reply is appended to the history the map holds, and the length is read from it | high (not executed) | `ChatProperties.LostReplyWitness` | `ChatProperties.IntendedPostKeepsReply` |
