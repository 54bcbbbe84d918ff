/**
 * The Zoom webhook route of backend/src/routes/webhooks.ts: the URL-validation
 * handshake, the signature gate, and the join/leave updates of the presence table.
 *
 * HMAC-SHA256 with a hex digest (HMAC as in section 2 of RFC 2104, over SHA-256
 * of FIPS 180-4) is the parameter `hmac`, an arbitrary function of key and
 * message. `JSON.stringify(req.body)` is the request's raw body string. The
 * secret environment variable is the parameter `env`, and `Date.now()` is `now`.
 * Optional request fields are `Option<string>`; JavaScript's falsy strings
 * (absent or empty) are those for which `Truthy` fails.
 */
module Webhooks {
  import opened Wrappers
  import MeetingId
  import opened PresenceStorage

  const URL_VALIDATION := "endpoint.url_validation"
  const PARTICIPANT_JOINED := "meeting.participant_joined"
  const PARTICIPANT_LEFT := "meeting.participant_left"
  const SECRET_NOT_SET := "ZOOM_WEBHOOK_SECRET_TOKEN environment variable is not set"

  /** A JavaScript string value that is neither undefined nor empty. */
  predicate Truthy(field: Option<string>) {
    field.Some? && field.value != ""
  }

  /** JavaScript `a || b` on two optional strings. */
  function Or(a: Option<string>, b: Option<string>): Option<string> {
    if Truthy(a) then a else b
  }

  /** JavaScript `a || 'literal'`. */
  function OrDefault(a: Option<string>, default: string): string {
    if Truthy(a) then a.value else default
  }

  /** Hex digest of HMAC-SHA256 under a key, of a message. */
  type Hmac = (string, string) -> string

  /** getWebhookSecret: the configured secret, or the error it throws when none is set. */
  function GetWebhookSecret(env: Option<string>): Result<string> {
    if Truthy(env) then Success(env.value) else Failure(SECRET_NOT_SET)
  }

  /** Bytes taken by one character in UTF-8, as `Buffer.from` encodes it. */
  function Utf8Width(c: char): nat {
    if c as int < 0x80 then 1 else if c as int < 0x800 then 2 else if c as int < 0x10000 then 3 else 4
  }

  /** `Buffer.from(s).length`. */
  function Utf8Length(s: string): nat {
    if s == [] then 0 else Utf8Width(s[0]) + Utf8Length(s[1..])
  }

  /** The signed message `v0:<timestamp>:<body>`. */
  function SignedMessage(timestamp: string, body: string): string {
    "v0:" + timestamp + ":" + body
  }

  /** The signature header a genuine request carries: `v0=` and the hex HMAC of the signed message. */
  function ExpectedSignature(secret: string, timestamp: string, body: string, hmac: Hmac): string {
    "v0=" + hmac(secret, SignedMessage(timestamp, body))
  }

  /**
   * verifySignature. Missing headers give false before the secret is read; an
   * unset secret is the thrown error; otherwise a byte-length check and then a
   * byte comparison (`timingSafeEqual`, whose constant timing is not modelled).
   */
  function VerifySignature(signature: Option<string>, timestamp: Option<string>, body: string,
                           env: Option<string>, hmac: Hmac): (r: Result<bool>)
    ensures !Truthy(signature) || !Truthy(timestamp) ==> r == Success(false)
    ensures Truthy(signature) && Truthy(timestamp) ==> (r.Failure? <==> !Truthy(env))
    ensures r.Failure? ==> r.error == SECRET_NOT_SET
    ensures r == Success(true) <==>
              Truthy(signature) && Truthy(timestamp) && Truthy(env) &&
              signature.value == ExpectedSignature(env.value, timestamp.value, body, hmac)
  {
    if !Truthy(signature) || !Truthy(timestamp) then Success(false)
    else
      match GetWebhookSecret(env)
      case Failure(e) => Failure(e)
      case Success(secret) =>
        var expected := ExpectedSignature(secret, timestamp.value, body, hmac);
        if Utf8Length(signature.value) != Utf8Length(expected) then Success(false)
        else Success(signature.value == expected)
  }

  /** `payload.object.participant` of a join or leave event. */
  datatype Participant = Participant(
    participantUuid: Option<string>,
    id: Option<string>,
    userId: Option<string>,
    userName: Option<string>,
    participantUserName: Option<string>,
    role: Option<string>)

  /**
   * A POST to the webhook route: the two signature headers, the body as it is
   * serialised for signing, and the body fields the handler reads
   * (`event`, `payload.plainToken`, `payload.object.uuid`, `payload.object.participant`).
   */
  datatype WebhookRequest = WebhookRequest(
    signature: Option<string>,
    timestamp: Option<string>,
    rawBody: string,
    event: Option<string>,
    plainToken: Option<string>,
    meetingUuid: Option<string>,
    participant: Option<Participant>)

  /** The HTTP response: the handshake answer, `{success: true}`, or an error with its status. */
  datatype Reply = Challenge(plainToken: string, encryptedToken: string) | Succeeded | Rejected(status: nat, error: string) {
    function Status(): nat {
      if Rejected? then status else 200
    }
  }

  /** What a request does to the presence table. */
  datatype Effect =
    | NoChange
    | Join(meetingId: string, participantId: string, screenName: string, role: string)
    | Leave(meetingId: string, participantId: string)

  datatype Outcome = Outcome(reply: Reply, effect: Effect)

  /**
   * `participant_uuid || id || user_id`. When all three are falsy JavaScript
   * yields the last operand (possibly undefined); the model keys by its string, or "".
   */
  function ParticipantKey(p: Participant): string {
    var key := Or(Or(p.participantUuid, p.id), p.userId);
    if key.Some? then key.value else ""
  }

  /** `user_name || participant_user_name || 'Unknown'`. */
  function ScreenName(p: Participant): string {
    OrDefault(Or(p.userName, p.participantUserName), "Unknown")
  }

  /** The decision the handler takes for a request, before it touches the table. */
  function Dispatch(req: WebhookRequest, env: Option<string>, hmac: Hmac): (o: Outcome)
    // handshake: no signature check, no change to the table
    ensures req.event == Some(URL_VALIDATION) ==>
              o.effect == NoChange &&
              (o.reply == Rejected(400, "Missing plainToken") <==> !Truthy(req.plainToken)) &&
              (Truthy(req.plainToken) && Truthy(env) ==>
                 o.reply == Challenge(req.plainToken.value, hmac(env.value, req.plainToken.value)))
    // any other event must carry a valid signature before anything else is looked at
    ensures req.event != Some(URL_VALIDATION) &&
            VerifySignature(req.signature, req.timestamp, req.rawBody, env, hmac) == Success(false) ==>
              o == Outcome(Rejected(401, "Invalid signature"), NoChange)
    ensures o.effect != NoChange ==>
              req.event in {Some(PARTICIPANT_JOINED), Some(PARTICIPANT_LEFT)} &&
              VerifySignature(req.signature, req.timestamp, req.rawBody, env, hmac) == Success(true) &&
              Truthy(req.meetingUuid) && req.participant.Some? &&
              o.effect.meetingId == MeetingId.ToUrlSafeId(req.meetingUuid.value) &&
              o.effect.participantId == ParticipantKey(req.participant.value) &&
              o.reply == Succeeded
    ensures o.effect.Join? ==>
              req.event == Some(PARTICIPANT_JOINED) &&
              o.effect.screenName == ScreenName(req.participant.value) &&
              o.effect.role == OrDefault(req.participant.value.role, "attendee")
    // a verified request: the meeting UUID, then the participant, then the event decide
    ensures req.event != Some(URL_VALIDATION) &&
            VerifySignature(req.signature, req.timestamp, req.rawBody, env, hmac) == Success(true) ==>
              && (!Truthy(req.meetingUuid) ==> o == Outcome(Rejected(400, "Missing meeting UUID"), NoChange))
              && (Truthy(req.meetingUuid) && req.event in {Some(PARTICIPANT_JOINED), Some(PARTICIPANT_LEFT)} &&
                  req.participant.None? ==>
                    o == Outcome(Rejected(400, "Missing participant data"), NoChange))
              && (Truthy(req.meetingUuid) && req.event == Some(PARTICIPANT_JOINED) && req.participant.Some? ==>
                    o == Outcome(Succeeded, Join(MeetingId.ToUrlSafeId(req.meetingUuid.value),
                                                 ParticipantKey(req.participant.value),
                                                 ScreenName(req.participant.value),
                                                 OrDefault(req.participant.value.role, "attendee"))))
              && (Truthy(req.meetingUuid) && req.event == Some(PARTICIPANT_LEFT) && req.participant.Some? ==>
                    o == Outcome(Succeeded, Leave(MeetingId.ToUrlSafeId(req.meetingUuid.value),
                                                  ParticipantKey(req.participant.value))))
              && (Truthy(req.meetingUuid) && req.event !in {Some(PARTICIPANT_JOINED), Some(PARTICIPANT_LEFT)} ==>
                    o == Outcome(Succeeded, NoChange))
    // the secret is read only by a handshake with a token or a request with both headers
    ensures req.event != Some(URL_VALIDATION) &&
            VerifySignature(req.signature, req.timestamp, req.rawBody, env, hmac).Failure? ==>
              o == Outcome(Rejected(500, SECRET_NOT_SET), NoChange)
    ensures req.event == Some(URL_VALIDATION) && Truthy(req.plainToken) && !Truthy(env) ==>
              o == Outcome(Rejected(500, SECRET_NOT_SET), NoChange)
    ensures o.reply.Status() in {200, 400, 401, 500}
    ensures o.reply.Status() == 500 <==>
              !Truthy(env) &&
              (if req.event == Some(URL_VALIDATION) then Truthy(req.plainToken)
               else Truthy(req.signature) && Truthy(req.timestamp))
    ensures o.reply.Status() == 500 ==> o == Outcome(Rejected(500, SECRET_NOT_SET), NoChange)
  {
    if req.event == Some(URL_VALIDATION) then
      if !Truthy(req.plainToken) then Outcome(Rejected(400, "Missing plainToken"), NoChange)
      else
        match GetWebhookSecret(env)
        case Failure(e) => Outcome(Rejected(500, e), NoChange)
        case Success(secret) =>
          Outcome(Challenge(req.plainToken.value, hmac(secret, req.plainToken.value)), NoChange)
    else
      match VerifySignature(req.signature, req.timestamp, req.rawBody, env, hmac)
      case Failure(e) => Outcome(Rejected(500, e), NoChange)
      case Success(valid) =>
        if !valid then Outcome(Rejected(401, "Invalid signature"), NoChange)
        else if !Truthy(req.meetingUuid) then Outcome(Rejected(400, "Missing meeting UUID"), NoChange)
        else
          var meetingId := MeetingId.ToUrlSafeId(req.meetingUuid.value);
          if req.event == Some(PARTICIPANT_JOINED) then
            match req.participant
            case None => Outcome(Rejected(400, "Missing participant data"), NoChange)
            case Some(p) =>
              Outcome(Succeeded, Join(meetingId, ParticipantKey(p), ScreenName(p), OrDefault(p.role, "attendee")))
          else if req.event == Some(PARTICIPANT_LEFT) then
            match req.participant
            case None => Outcome(Rejected(400, "Missing participant data"), NoChange)
            case Some(p) => Outcome(Succeeded, Leave(meetingId, ParticipantKey(p)))
          else Outcome(Succeeded, NoChange)
  }

  /** The join rule: write a webhook entry unless the participant already has a heartbeat entry. */
  function Joined(store: Store, meetingId: string, participantId: string, screenName: string, role: string, now: int): Store {
    var meeting := if meetingId in store then store[meetingId] else map[];
    if participantId in meeting && meeting[participantId].source == Heartbeat then store
    else store[meetingId := meeting[participantId := ParticipantEntry(screenName, role, now, Webhook)]]
  }

  /** The leave rule: remove the participant whatever its source; an unknown meeting stays unknown. */
  function Left(store: Store, meetingId: string, participantId: string): Store {
    if meetingId in store then store[meetingId := store[meetingId] - {participantId}] else store
  }

  function Apply(store: Store, effect: Effect, now: int): Store {
    match effect
    case NoChange => store
    case Join(meetingId, participantId, screenName, role) => Joined(store, meetingId, participantId, screenName, role, now)
    case Leave(meetingId, participantId) => Left(store, meetingId, participantId)
  }

  /** POST /zoom: answer the request and update the presence table on a verified join or leave. */
  method HandleZoomWebhook(store: PresenceStore, req: WebhookRequest, env: Option<string>, now: int, hmac: Hmac)
    returns (reply: Reply)
    modifies store
    ensures reply == Dispatch(req, env, hmac).reply
    ensures store.meetingParticipants == Apply(old(store.meetingParticipants), Dispatch(req, env, hmac).effect, now)
  {
    if req.event == Some(URL_VALIDATION) {
      if !Truthy(req.plainToken) {
        return Rejected(400, "Missing plainToken");
      }
      var secret := GetWebhookSecret(env);
      if secret.Failure? {
        return Rejected(500, secret.error);
      }
      return Challenge(req.plainToken.value, hmac(secret.value, req.plainToken.value));
    }

    var verified := VerifySignature(req.signature, req.timestamp, req.rawBody, env, hmac);
    if verified.Failure? {
      return Rejected(500, verified.error);
    }
    if !verified.value {
      return Rejected(401, "Invalid signature");
    }

    if !Truthy(req.meetingUuid) {
      return Rejected(400, "Missing meeting UUID");
    }
    var meetingId := MeetingId.ToUrlSafeId(req.meetingUuid.value);

    if req.event == Some(PARTICIPANT_JOINED) {
      if req.participant.None? {
        return Rejected(400, "Missing participant data");
      }
      var participant := req.participant.value;
      var participantId := ParticipantKey(participant);
      var screenName := ScreenName(participant);
      var meeting := store.GetOrCreateMeeting(meetingId);
      if participantId !in meeting || meeting[participantId].source != Heartbeat {
        var entry := ParticipantEntry(screenName, OrDefault(participant.role, "attendee"), now, Webhook);
        store.meetingParticipants := store.meetingParticipants[meetingId := meeting[participantId := entry]];
      }
      return Succeeded;
    }

    if req.event == Some(PARTICIPANT_LEFT) {
      if req.participant.None? {
        return Rejected(400, "Missing participant data");
      }
      var participantId := ParticipantKey(req.participant.value);
      if meetingId in store.meetingParticipants {
        var meeting := store.meetingParticipants[meetingId];
        store.meetingParticipants := store.meetingParticipants[meetingId := meeting - {participantId}];
      }
      return Succeeded;
    }

    return Succeeded;
  }

  /** A join never overwrites an entry that came from a heartbeat: the table is left as it was. */
  lemma JoinDefersToHeartbeat(store: Store, meetingId: string, participantId: string, screenName: string, role: string, now: int)
    requires meetingId in store && participantId in store[meetingId]
    requires store[meetingId][participantId].source == Heartbeat
    ensures Joined(store, meetingId, participantId, screenName, role, now) == store
  {
  }

  /**
   * Otherwise a join writes a fresh webhook entry for the participant, creating
   * the meeting if needed; every other meeting and participant is untouched and
   * nothing is removed.
   */
  lemma JoinWritesWebhookEntry(store: Store, meetingId: string, participantId: string, screenName: string, role: string, now: int)
    requires !(meetingId in store && participantId in store[meetingId] && store[meetingId][participantId].source == Heartbeat)
    ensures var after := Joined(store, meetingId, participantId, screenName, role, now);
            && after.Keys == store.Keys + {meetingId}
            && after[meetingId][participantId] == ParticipantEntry(screenName, role, now, Webhook)
            && (meetingId !in store ==> after[meetingId] == map[participantId := ParticipantEntry(screenName, role, now, Webhook)])
            && (forall k :: k in store && k != meetingId ==> after[k] == store[k])
            && (meetingId in store ==> after[meetingId].Keys == store[meetingId].Keys + {participantId})
            && (meetingId in store ==> forall q :: q in store[meetingId] && q != participantId ==>
                  after[meetingId][q] == store[meetingId][q])
  {
  }

  /** A leave removes the participant whatever its source, changes nothing else and creates no meeting. */
  lemma LeaveRemoves(store: Store, meetingId: string, participantId: string)
    ensures var after := Left(store, meetingId, participantId);
            && after.Keys == store.Keys
            && (meetingId in after ==> participantId !in after[meetingId])
            && (forall k :: k in store && k != meetingId ==> after[k] == store[k])
            && (meetingId in store ==> after[meetingId] == store[meetingId] - {participantId})
  {
  }

  /** A second leave for the same participant changes nothing. */
  lemma LeaveIdempotent(store: Store, meetingId: string, participantId: string)
    ensures Left(Left(store, meetingId, participantId), meetingId, participantId) == Left(store, meetingId, participantId)
  {
    if meetingId in store {
      var once := store[meetingId] - {participantId};
      assert once - {participantId} == once;
    }
  }

  /** A request that is rejected, or accepted without a join or leave, leaves the table as it was. */
  lemma RejectedRequestChangesNothing(store: Store, req: WebhookRequest, env: Option<string>, hmac: Hmac, now: int)
    requires Dispatch(req, env, hmac).reply.Status() != 200 ||
             req.event !in {Some(PARTICIPANT_JOINED), Some(PARTICIPANT_LEFT)}
    ensures Apply(store, Dispatch(req, env, hmac).effect, now) == store
  {
  }

  /** A request whose signature header differs from the expected one never reaches the table. */
  lemma ForgedSignatureRejected(req: WebhookRequest, env: Option<string>, hmac: Hmac)
    requires req.event != Some(URL_VALIDATION) && Truthy(env)
    requires Truthy(req.signature) && Truthy(req.timestamp)
    requires req.signature.value != ExpectedSignature(env.value, req.timestamp.value, req.rawBody, hmac)
    ensures Dispatch(req, env, hmac) == Outcome(Rejected(401, "Invalid signature"), NoChange)
  {
  }

  function AliceJoins(meetingUuid: string, name: string, signature: Option<string>, timestamp: Option<string>, body: string): WebhookRequest {
    WebhookRequest(signature, timestamp, body, Some(PARTICIPANT_JOINED), None, Some(meetingUuid),
                   Some(Participant(Some("user-1"), None, None, Some(name), None, Some("attendee"))))
  }

  /**
   * Scenario of backend/src/routes/__tests__/webhooks.test.ts: a correctly signed
   * join lands as a webhook entry under the normalised meeting key (for the
   * test's UUID "abc+def/ghi==" that key is "abc-def_ghi", by
   * MeetingId.ScenarioWebhookUuid).
   */
  lemma ScenarioSignedJoin(uuid: string, secret: string, timestamp: string, body: string, hmac: Hmac, now: int)
    requires uuid != "" && secret != "" && timestamp != ""
    ensures var req := AliceJoins(uuid, "Alice", Some(ExpectedSignature(secret, timestamp, body, hmac)), Some(timestamp), body);
            var o := Dispatch(req, Some(secret), hmac);
            o.reply.Status() == 200 &&
            Apply(map[], o.effect, now) ==
              map[MeetingId.ToUrlSafeId(uuid) := map["user-1" := ParticipantEntry("Alice", "attendee", now, Webhook)]]
  {
    var req := AliceJoins(uuid, "Alice", Some(ExpectedSignature(secret, timestamp, body, hmac)), Some(timestamp), body);
    assert VerifySignature(req.signature, req.timestamp, req.rawBody, Some(secret), hmac) == Success(true);
  }

  /** Scenario of the same tests: a signed join for a participant with a heartbeat entry keeps that entry. */
  lemma ScenarioHeartbeatKept(uuid: string, secret: string, timestamp: string, body: string, hmac: Hmac, now: int, seen: int)
    requires uuid != "" && secret != "" && timestamp != ""
    ensures var store := map[MeetingId.ToUrlSafeId(uuid) := map["user-1" := ParticipantEntry("Alice (heartbeat)", "attendee", seen, Heartbeat)]];
            var req := AliceJoins(uuid, "Alice (webhook)", Some(ExpectedSignature(secret, timestamp, body, hmac)), Some(timestamp), body);
            var o := Dispatch(req, Some(secret), hmac);
            o.reply.Status() == 200 && Apply(store, o.effect, now) == store
  {
    var req := AliceJoins(uuid, "Alice (webhook)", Some(ExpectedSignature(secret, timestamp, body, hmac)), Some(timestamp), body);
    assert VerifySignature(req.signature, req.timestamp, req.rawBody, Some(secret), hmac) == Success(true);
  }

  /** Scenario of the same tests: a request without signature headers is refused with 401. */
  lemma ScenarioMissingHeaders(body: string, hmac: Hmac, env: Option<string>)
    ensures Dispatch(AliceJoins("test-meeting", "Alice", None, None, body), env, hmac).reply.Status() == 401
  {
  }

  /**
   * Scenario of the same tests: a signed leave removes the participant whatever
   * the source of its entry, and a leave for a meeting that is not in the table
   * succeeds without creating it.
   */
  lemma ScenarioSignedLeave(uuid: string, secret: string, timestamp: string, body: string, hmac: Hmac,
                            now: int, store: Store)
    requires uuid != "" && secret != "" && timestamp != ""
    ensures var req := WebhookRequest(Some(ExpectedSignature(secret, timestamp, body, hmac)), Some(timestamp), body,
                                      Some(PARTICIPANT_LEFT), None, Some(uuid),
                                      Some(Participant(Some("user-1"), None, None, Some("Alice"), None, None)));
            var o := Dispatch(req, Some(secret), hmac);
            var key := MeetingId.ToUrlSafeId(uuid);
            var after := Apply(store, o.effect, now);
            && o.reply.Status() == 200
            && after.Keys == store.Keys
            && (key in store ==> after[key] == store[key] - {"user-1"})
  {
    var req := WebhookRequest(Some(ExpectedSignature(secret, timestamp, body, hmac)), Some(timestamp), body,
                              Some(PARTICIPANT_LEFT), None, Some(uuid),
                              Some(Participant(Some("user-1"), None, None, Some("Alice"), None, None)));
    assert VerifySignature(req.signature, req.timestamp, req.rawBody, Some(secret), hmac) == Success(true);
  }
}
