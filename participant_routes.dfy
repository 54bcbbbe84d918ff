/**
 * The flat participant-list routes of backend/src/routes/participants.ts: a
 * map from meeting ID to the last list a host posted, with the time it was
 * posted, and an hourly expiry. `Date.now()` is the parameter `now`; the
 * five-minute timer that runs the cleanup is not modelled.
 */
module ParticipantRoutes {
  import opened Wrappers

  /** One element of the posted `participants` array. */
  datatype RosterParticipant = RosterParticipant(participantUUID: string, screenName: string, role: string)

  /** ParticipantData: the stored list and the time it was stored. */
  datatype ParticipantData = ParticipantData(participants: seq<RosterParticipant>, updatedAt: int)

  /** The JSON a GET answers: the list, and `updatedAt` or null. */
  datatype ParticipantList = ParticipantList(participants: seq<RosterParticipant>, updatedAt: Option<int>)

  /** Records older than one hour are dropped by the cleanup. */
  const MAX_AGE: int := 60 * 60 * 1000

  /** What a GET of `meetingId` answers: the stored record, or an empty list with a null time. */
  function Lookup(store: map<string, ParticipantData>, meetingId: string): ParticipantList {
    if meetingId in store then ParticipantList(store[meetingId].participants, Some(store[meetingId].updatedAt))
    else ParticipantList([], None)
  }

  /** The records the cleanup keeps at time `now`. */
  function Unexpired(store: map<string, ParticipantData>, now: int): map<string, ParticipantData> {
    map k | k in store && now - store[k].updatedAt <= MAX_AGE :: store[k]
  }

  class ParticipantRegistry {
    var meetingParticipants: map<string, ParticipantData>

    constructor ()
      ensures meetingParticipants == map[]
    {
      meetingParticipants := map[];
    }

    /**
     * POST /:meetingId. `participants` is None when the body's field is missing
     * or is not an array; an empty array is accepted. Answers 400 or 200.
     */
    method Post(meetingId: string, participants: Option<seq<RosterParticipant>>, now: int) returns (status: nat)
      modifies this
      ensures status == (if meetingId == "" || participants.None? then 400 else 200)
      ensures status == 400 ==> meetingParticipants == old(meetingParticipants)
      ensures status == 200 ==>
                meetingParticipants == old(meetingParticipants)[meetingId := ParticipantData(participants.value, now)]
      ensures status == 200 ==> Lookup(meetingParticipants, meetingId) == ParticipantList(participants.value, Some(now))
    {
      if meetingId == "" || participants.None? {
        return 400;
      }
      meetingParticipants := meetingParticipants[meetingId := ParticipantData(participants.value, now)];
      return 200;
    }

    /** GET /:meetingId: never creates the key. */
    method Get(meetingId: string) returns (list: ParticipantList)
      ensures list == Lookup(meetingParticipants, meetingId)
    {
      if meetingId !in meetingParticipants {
        return ParticipantList([], None);
      }
      var data := meetingParticipants[meetingId];
      return ParticipantList(data.participants, Some(data.updatedAt));
    }

    /** DELETE /:meetingId: succeeds whether or not the key was there. */
    method Delete(meetingId: string) returns (status: nat)
      modifies this
      ensures status == 200
      ensures meetingParticipants == old(meetingParticipants) - {meetingId}
    {
      meetingParticipants := meetingParticipants - {meetingId};
      return 200;
    }

    /** The body of the periodic cleanup: delete every record older than MAX_AGE. */
    method Cleanup(now: int)
      modifies this
      ensures meetingParticipants == Unexpired(old(meetingParticipants), now)
    {
      ghost var before := meetingParticipants;
      var pending := meetingParticipants.Keys;
      while pending != {}
        invariant pending <= before.Keys
        invariant meetingParticipants.Keys <= before.Keys
        invariant forall k :: k in meetingParticipants ==> meetingParticipants[k] == before[k]
        invariant forall k :: k in pending ==> k in meetingParticipants
        invariant forall k :: k in before && k !in pending ==>
                    (k in meetingParticipants <==> now - before[k].updatedAt <= MAX_AGE)
        decreases pending
      {
        var meetingId :| meetingId in pending;
        if now - meetingParticipants[meetingId].updatedAt > MAX_AGE {
          meetingParticipants := meetingParticipants - {meetingId};
        }
        pending := pending - {meetingId};
      }
    }
  }

  /** A GET after a valid POST on the same key returns exactly what was posted and when. */
  lemma PostThenGet(store: map<string, ParticipantData>, meetingId: string, participants: seq<RosterParticipant>, now: int)
    ensures Lookup(store[meetingId := ParticipantData(participants, now)], meetingId) == ParticipantList(participants, Some(now))
  {
  }

  /** A GET after a DELETE answers the empty list with a null time. */
  lemma DeleteThenGet(store: map<string, ParticipantData>, meetingId: string)
    ensures Lookup(store - {meetingId}, meetingId) == ParticipantList([], None)
  {
  }

  /** The cleanup removes exactly the records older than one hour and leaves the rest as they were. */
  lemma CleanupRemovesIffOld(store: map<string, ParticipantData>, now: int, meetingId: string)
    requires meetingId in store
    ensures meetingId in Unexpired(store, now) <==> now - store[meetingId].updatedAt <= 3600000
    ensures meetingId in Unexpired(store, now) ==> Unexpired(store, now)[meetingId] == store[meetingId]
  {
  }

  /** Cleanups compose: one at `now` and one at a later time equal the later one alone. */
  lemma CleanupsCompose(store: map<string, ParticipantData>, now: int, later: int)
    requires now <= later
    ensures Unexpired(Unexpired(store, now), later) == Unexpired(store, later)
  {
  }
}
