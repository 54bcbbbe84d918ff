# Zoom participant presence and randomiser: a Dafny model

This project models the core of a Zoom companion app that tracks, for each
meeting, which participants are present and lets a host draw a random
speaking order. The model covers:

- **Meeting keys** (`MeetingId`): Zoom meeting UUIDs are base64 text. The
  server turns each into a path-safe key: `+` becomes `-`, `/` becomes `_`,
  and `=` is dropped.
- **Presence table** (`PresenceStorage`): meeting key → participant key →
  `{screenName, role, lastSeen, source}`. A meeting is created lazily by
  `getOrCreateMeeting`. A periodic sweep deletes entries older than their
  source's TTL: two hours for webhook entries, one hour for the others. It
  then deletes meetings left empty.
- **Zoom webhook route** (`Webhooks`): the URL-validation handshake; the
  HMAC signature gate over `v0:<timestamp>:<body>`; participant-joined
  events, which defer to an existing heartbeat entry; participant-left
  events, which always remove; and unknown events, accepted as no-ops. Each
  request is answered 200, 400, 401 or 500.
- **Flat participant-list routes** (`ParticipantRoutes`): POST replaces a
  meeting's list, GET reads it without creating it, DELETE removes it, and
  an hourly expiry prunes it.
- **Client randomiser** (`UseParticipants`): the Fisher–Yates shuffle, the
  history of the ten newest results, the shown order and its plain-text
  rendering.

The parts of the system that read a clock, draw random numbers or compute
HMAC-SHA256 get these as parameters:

- `now` stands for `Date.now()`.
- The sequence `draws` stands for the `Math.random()` draws. Its entry `i` is
  the index step `i` swaps with, so `draws[i] <= i`.
- `hmac` is an arbitrary function from key and message to the hex digest.
  It stands for HMAC as in section 2 of RFC 2104, over SHA-256 of FIPS 180-4.
- `env` is the `ZOOM_WEBHOOK_SECRET_TOKEN` environment variable.

Optional request fields are `Option<string>`. JavaScript treats an
undefined or empty string as false; the model's `Truthy` is that test.

Everything verifies with `dafny verify` (Dafny 4.11) over all `.dfy` files
together.

## Model

| member | source | states |
|---|---|---|
| `MeetingId.ToUrlSafeId` | backend/src/utils/meetingId.ts:4-6 | the key contains no `+`, `/` or `=`, for every input; its length is the input's length minus the number of `=` in the input |
| `MeetingId.ReplaceAll` | backend/src/utils/meetingId.ts:5 | a global single-character replace keeps the length, puts the replacement at every position that held the searched character and keeps every other character in place |
| `MeetingId.RemoveAll` | backend/src/utils/meetingId.ts:5 | a global single-character delete leaves none of that character, shortens the string by its count, and keeps only characters of the input |
| `MeetingId.RemoveAllAppend` | backend/src/utils/meetingId.ts:5 | the delete keeps the order of what it keeps: one character is dropped exactly when it is the deleted one, and the result for a concatenation is the results for the parts, in order |
| `MeetingId.ToUrlSafeIdIsCharwise` | backend/src/utils/meetingId.ts:5 | the chain of three replacements equals the one-pass map: each `+` becomes `-`, each `/` becomes `_`, each `=` is dropped, all other characters are kept in order |
| `MeetingId.CharwiseMembership` | backend/src/utils/meetingId.ts:5 | a character is in the key exactly when it is the image of some input character other than `=` |
| `MeetingId.ToUrlSafeIdAppend` | backend/src/utils/meetingId.ts:5 | the key of a concatenation is the concatenation of the keys of the parts |
| `MeetingId.UnsafeCharacters` | backend/src/utils/meetingId.ts:5 | `+` alone becomes `-`, `/` alone becomes `_`, `=` alone becomes the empty key |
| `MeetingId.ScenarioSingleSeparators` | backend/src/utils/__tests__/meetingId.test.ts:5-11 | `"abc+def"` maps to `"abc-def"` and `"abc/def"` to `"abc_def"` |
| `MeetingId.SafeIsFixedPoint` | backend/src/utils/__tests__/meetingId.test.ts:21-23 | a string with none of `+`, `/`, `=` is returned unchanged |
| `MeetingId.FixedPointIff` | backend/src/utils/meetingId.ts:5 | the normaliser returns its input unchanged exactly when the input is already safe (both directions) |
| `MeetingId.Idempotent` | backend/src/utils/meetingId.ts:5 | normalising a key again changes nothing, for every input |
| `MeetingId.ScenarioAllSpecials` | backend/src/utils/__tests__/meetingId.test.ts:17-19 | `"a+b/c=d=="` maps to `"a-b_cd"` |
| `MeetingId.ScenarioPadding` | backend/src/utils/__tests__/meetingId.test.ts:13-15 | `"abc=="` maps to `"abc"` |
| `MeetingId.ScenarioWebhookUuid` | backend/src/routes/__tests__/webhooks.test.ts:58 | the test's meeting UUID `"abc+def/ghi=="` maps to `"abc-def_ghi"` |
| `PresenceStorage.PresenceStore.constructor` | backend/src/storage/participants.ts:10 | the table starts empty |
| `PresenceStorage.PresenceStore.GetOrCreateMeeting` | backend/src/storage/participants.ts:12-19 | afterwards the key is present and the returned map is its entry. A present key returns its map and leaves the table unchanged. An absent key gets a fresh empty map and nothing else is added, removed or changed |
| `PresenceStorage.PresenceStore.Sweep` | backend/src/storage/participants.ts:23-39 | the new table is `Swept(old table, now)`, the table with expired entries removed and then empty meetings removed |
| `PresenceStorage.PruneExpired` | backend/src/storage/participants.ts:29-34 | an entry survives the inner loop exactly when `now - lastSeen <= ttl` for its source; survivors are unchanged and no key is added |
| `PresenceStorage.SweepRemovesIffExpired` | backend/src/storage/participants.ts:25-33 | an entry is still in the table after the sweep exactly when `now - lastSeen` is at most 7,200,000 ms (webhook) or 3,600,000 ms (heartbeat, sdk-sync). An age equal to the TTL is kept |
| `PresenceStorage.SweepOnlyDeletes` | backend/src/storage/participants.ts:28-38 | the sweep adds no meeting and no entry, and every surviving entry is unchanged |
| `PresenceStorage.SweepLeavesNoEmptyMeeting` | backend/src/storage/participants.ts:35-37 | after the sweep no meeting is empty, including meetings that were already empty before it |
| `PresenceStorage.SweepsCompose` | backend/src/storage/participants.ts:23-39 | a sweep at `now` followed by one at a later time gives the same table as the later sweep alone |
| `PresenceStorage.SweepIdempotent` | backend/src/storage/participants.ts:23-39 | two sweeps with the same `now` give the same table as one |
| `Webhooks.VerifySignature` | backend/src/routes/webhooks.ts:17-38 | false when the signature or timestamp header is missing or empty, and then the secret is not consulted. An unset secret is an error. Otherwise true exactly when the header equals `"v0=" + hmac(secret, "v0:" + timestamp + ":" + body)`, and the byte-length pre-check never changes that answer |
| `Webhooks.Dispatch` | backend/src/routes/webhooks.ts:41-129 | handshake: 400 exactly when `plainToken` is missing; with a token, 500 when the secret is unset, else 200 with the token and `hmac(secret, token)`; never a table change. Any other event: 500 when both headers are present and the secret is unset, 401 and no change when the signature fails. A verified request without a meeting UUID gets 400 "Missing meeting UUID"; a verified join or leave without a participant gets 400 "Missing participant data"; a verified join with both gives 200 and the join of `ToUrlSafeId(uuid)`, the participant key, the name fallback and the role default `attendee`; a verified leave with both gives 200 and the leave of that key; any other verified event with a UUID gives 200 and no change. A change happens only in those two cases. The status is 200, 400, 401 or 500, and 500 exactly when the secret is read and unset |
| `Webhooks.HandleZoomWebhook` | backend/src/routes/webhooks.ts:41-129 | the handler answers `Dispatch`'s reply. The table changes only by `Dispatch`'s effect: a join through `GetOrCreateMeeting`, a leave on an existing meeting |
| `Webhooks.JoinDefersToHeartbeat` | backend/src/routes/webhooks.ts:87-98 | a join for a participant whose entry has source heartbeat leaves the whole table unchanged |
| `Webhooks.JoinWritesWebhookEntry` | backend/src/routes/webhooks.ts:84-98 | otherwise the join sets `{screenName, role, now, webhook}` for the participant. A meeting that was absent is created holding that entry alone; removes nothing, and leaves other meetings and participants unchanged |
| `Webhooks.LeaveRemoves` | backend/src/routes/webhooks.ts:115-121 | a leave removes the participant whatever its source and changes nothing else. For an unknown meeting it creates no meeting |
| `Webhooks.LeaveIdempotent` | backend/src/routes/webhooks.ts:115-121 | a repeated leave changes nothing more |
| `Webhooks.RejectedRequestChangesNothing` | backend/src/routes/webhooks.ts:45-128 | every non-200 answer leaves the table unchanged, and so does every event other than join and leave |
| `Webhooks.ForgedSignatureRejected` | backend/src/routes/webhooks.ts:26-37 | with a secret set, any signature header different from the expected one gives 401 and no change |
| `Webhooks.ScenarioSignedJoin` | backend/src/routes/__tests__/webhooks.test.ts:57-93 | a correctly signed join from an empty table gives 200 and one webhook entry under the normalised meeting key |
| `Webhooks.ScenarioHeartbeatKept` | backend/src/routes/__tests__/webhooks.test.ts:95-133 | a signed join for a participant with a heartbeat entry gives 200 and keeps that entry, name and source included |
| `Webhooks.ScenarioSignedLeave` | backend/src/routes/__tests__/webhooks.test.ts:137-208 | a signed leave gives 200 and removes the participant from its meeting; the set of meetings is unchanged |
| `Webhooks.ScenarioMissingHeaders` | backend/src/routes/__tests__/webhooks.test.ts:235-254 | a join without signature headers is answered 401, whatever the secret |
| `ParticipantRoutes.ParticipantRegistry.constructor` | backend/src/routes/participants.ts:16 | the map starts empty |
| `ParticipantRoutes.ParticipantRegistry.Post` | backend/src/routes/participants.ts:30-46 | 400 exactly when the meeting ID is empty or `participants` is missing or not an array, and then the map is unchanged. Otherwise 200, and only that key's record is replaced by the list and `now` |
| `ParticipantRoutes.ParticipantRegistry.Get` | backend/src/routes/participants.ts:49-59 | answers `Lookup` of the current map: the stored record, or an empty list with a null time. It has no `modifies` clause, so it creates no key; `PostThenGet` and `DeleteThenGet` state what it answers after a POST and after a DELETE |
| `ParticipantRoutes.ParticipantRegistry.Delete` | backend/src/routes/participants.ts:62-66 | always 200; the key is gone and nothing else changes |
| `ParticipantRoutes.ParticipantRegistry.Cleanup` | backend/src/routes/participants.ts:19-27 | the new map is the old one restricted to records with `now - updatedAt <= MAX_AGE` |
| `ParticipantRoutes.PostThenGet` | backend/src/routes/participants.ts:39-58 | a GET after a valid POST on the same key returns exactly the posted list and time |
| `ParticipantRoutes.DeleteThenGet` | backend/src/routes/participants.ts:52-66 | a GET after a DELETE returns the empty list with a null time |
| `ParticipantRoutes.CleanupRemovesIffOld` | backend/src/routes/participants.ts:19-27 | a record is removed exactly when `now - updatedAt > 3,600,000`; the others are unchanged |
| `ParticipantRoutes.CleanupsCompose` | backend/src/routes/participants.ts:19-27 | a cleanup at `now` followed by one at a later time equals the later one alone |
| `UseParticipants.Swap` | frontend/src/hooks/useParticipants.ts:45 | the destructuring swap exchanges two positions and keeps all others |
| `UseParticipants.SwapPermutes` | frontend/src/hooks/useParticipants.ts:45 | a swap keeps the multiset of elements |
| `UseParticipants.FisherYates` | frontend/src/hooks/useParticipants.ts:43-46 | the steps from `i` down to 1 keep the length |
| `UseParticipants.FisherYatesPermutes` | frontend/src/hooks/useParticipants.ts:41-48 | every run of the shuffle, for every valid sequence of draws, is a permutation of its input |
| `UseParticipants.FisherYatesKeepsUpperPart` | frontend/src/hooks/useParticipants.ts:43-46 | steps `i` down to 1 never touch positions above `i`, so position `i` is final after step `i` |
| `UseParticipants.LastPositionIsFirstDraw` | frontend/src/hooks/useParticipants.ts:43-46 | the last element of the result is the element the first draw picked |
| `UseParticipants.ShortArrayUnchanged` | frontend/src/hooks/useParticipants.ts:43 | arrays of length 0 or 1 come back unchanged |
| `UseParticipants.ShuffleArray` | frontend/src/hooks/useParticipants.ts:41-48 | the result has the input's length and multiset of elements. It is the Fisher–Yates run over the draws, where step `i`, from the last index down to 1, swaps `i` with `draws[i] <= i`. It works on a fresh copy, so the input is untouched |
| `UseParticipants.PushHistory` | frontend/src/hooks/useParticipants.ts:59 | the new result is at the head, followed by the previous history in order, and the length is at most 10 |
| `UseParticipants.HistoryIsNewestFirst` | frontend/src/hooks/useParticipants.ts:59 | after any sequence of results, the history is the results newest first, then the older history, cut to ten |
| `UseParticipants.DecimalString` | frontend/src/hooks/useParticipants.ts:85 | an integer prints as at least one decimal digit |
| `UseParticipants.DecimalRoundTrip` | frontend/src/hooks/useParticipants.ts:85 | reading the printed digits back gives the number, and a positive number has no leading zero |
| `UseParticipants.JoinSnoc` | frontend/src/hooks/useParticipants.ts:86 | joining one more line appends the separator and the line |
| `UseParticipants.FormatOrderAppend` | frontend/src/hooks/useParticipants.ts:83-87 | an empty order gives `""`. Appending a participant at position `k` adds `"\n"` (when `k > 0`) and its numbered line |
| `UseParticipants.ScenarioFormat` | frontend/src/hooks/useParticipants.ts:83-87 | a two-person order renders as `"1. A\n2. B"` |
| `UseParticipants.ParticipantsState.constructor` | frontend/src/hooks/useParticipants.ts:11-13 | no order is shown and the history is empty |
| `UseParticipants.ParticipantsState.Randomize` | frontend/src/hooks/useParticipants.ts:51-75 | the returned order is a permutation of the participants, and the same order is stored as `randomizedOrder`. It is pushed at the head of the history, which stays at most 10 long |
| `UseParticipants.ParticipantsState.ReceiveMessage` | frontend/src/hooks/useParticipants.ts:22-35 | a received randomisation result is shown and pushed on the history; any other or unparseable message changes nothing |
| `UseParticipants.ParticipantsState.ClearRandomization` | frontend/src/hooks/useParticipants.ts:78-80 | the shown order becomes null; participants and history are unchanged |

## Left out

- HMAC-SHA256 and its hex digest are the parameter `hmac`. Nothing is assumed about it, so properties that depend on collision resistance (a changed body or timestamp is rejected) are not stated.
- `crypto.timingSafeEqual` is modelled as equality of the two strings, which on equal UTF-8 byte lengths is the same as byte equality; its constant-time behaviour cannot be expressed.
- `JSON.stringify(req.body)` is the request's `rawBody` string. The model does not relate it to the parsed fields (`event`, `plainToken`, meeting UUID, participant).
- Timers: the `setInterval` calls that run the presence sweep and the list cleanup every five minutes. Their bodies are `Sweep` and `Cleanup`, called with `now`.
- ShuffleArray: does not state that every permutation is equally likely, because `Math.random`'s distribution is not modelled; the draws are an oracle with `draws[i] <= i`.
- Express plumbing, response bodies other than the status and error text, and `console` logging. A thrown error (missing secret) is recorded as `Rejected(500, message)`: the status Express's default error handler answers and the thrown message. The body that handler actually sends is an HTML page, which shows the stack and message only outside production; it is not modelled.
- A meeting UUID that is not a string (where `toUrlSafeId` would throw) is outside the model: the UUID is a string or missing.
- When `participant_uuid`, `id` and `user_id` are all falsy, JavaScript keys the entry by the last operand, possibly `undefined`. The model keys by that operand's string, or by `""` when it is undefined, conflating the two.
- `getOrCreateMeeting` returns a reference to the live inner map, which the handler then mutates. In the model the inner maps are values and the handler writes the updated map back; aliasing is not captured.
- JavaScript strings may hold lone UTF-16 surrogates; Dafny characters are Unicode scalar values, so `Utf8Length` covers only well-formed text.
- The heartbeat upsert, the bulk sdk-sync merge and the "active participants" read filter are not implemented by these files. The `source` type admits `heartbeat` and `sdk-sync`, and heartbeat entries enter the model only as part of an initial table, as in the tests.
- ParticipantsState.ReceiveMessage: a message whose `type` is `randomization_result` is assumed to carry an array `order` of participants and a numeric `timestamp`. The hook checks neither, so a result message without them shows `undefined` and pushes `{timestamp: undefined, order: undefined}` onto the history; the model cannot represent such a message.
- The posted `participants` array's elements are not validated by the route; the model types them as `RosterParticipant` records.
- React wiring in the hook: `useEffect` syncing `participants` from props, `zoomSdk.onMessage` registration, and the broadcast of a result with `zoomSdk.sendMessage`.
- `Number.prototype.toString` switches to exponent notation from 10^21 on; `DecimalString` covers the plain decimal form used for list positions.
- OAuth (backend/src/routes/auth.ts), server bootstrap (backend/src/index.ts), build configuration, the Zoom SDK hook (frontend/src/hooks/useZoomSdk.ts) and the UI components are not part of this model.
