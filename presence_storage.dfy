/**
 * The per-meeting presence table of backend/src/storage/participants.ts:
 * meeting key -> participant key -> presence entry, created lazily by
 * GetOrCreateMeeting and pruned by a periodic TTL sweep.
 *
 * The timer that fires the sweep every five minutes is not modelled; the
 * sweep's body is the method Sweep, and the clock reading it starts with is
 * its parameter `now` (milliseconds since the epoch).
 */
module PresenceStorage {

  /** Where a presence entry came from. */
  datatype Source = Heartbeat | Webhook | SdkSync

  /** ParticipantEntry: display name, role, time of the last observation and its source. */
  datatype ParticipantEntry = ParticipantEntry(screenName: string, role: string, lastSeen: int, source: Source)

  /** The entries of one meeting, by participant key. */
  type Meeting = map<string, ParticipantEntry>

  /** The whole table, by meeting key. */
  type Store = map<string, Meeting>

  /** Webhook-sourced entries live two hours. */
  const WEBHOOK_TTL: int := 2 * 60 * 60 * 1000

  /** Heartbeat and sdk-sync entries live one hour. */
  const DEFAULT_TTL: int := 60 * 60 * 1000

  function Ttl(source: Source): int {
    if source == Webhook then WEBHOOK_TTL else DEFAULT_TTL
  }

  /** The sweep deletes an entry once it is strictly older than its source's TTL. */
  predicate Expired(entry: ParticipantEntry, now: int) {
    now - entry.lastSeen > Ttl(entry.source)
  }

  /** The entries of a meeting that the sweep keeps. */
  function Pruned(meeting: Meeting, now: int): Meeting {
    map p | p in meeting && !Expired(meeting[p], now) :: meeting[p]
  }

  /** The table after one sweep: expired entries removed, then every empty meeting removed. */
  function Swept(store: Store, now: int): Store {
    map k | k in store && Pruned(store[k], now) != map[] :: Pruned(store[k], now)
  }

  /** Store-level invariant the sweep establishes: no meeting without entries. */
  ghost predicate NoEmptyMeeting(store: Store) {
    forall k :: k in store ==> store[k] != map[]
  }

  class PresenceStore {
    var meetingParticipants: Store

    constructor ()
      ensures meetingParticipants == map[]
    {
      meetingParticipants := map[];
    }

    /** getOrCreateMeeting: the meeting's entries, inserting an empty map for an unknown key. */
    method GetOrCreateMeeting(meetingId: string) returns (meeting: Meeting)
      modifies this
      ensures meetingId in meetingParticipants && meeting == meetingParticipants[meetingId]
      ensures meetingId in old(meetingParticipants) ==>
                meetingParticipants == old(meetingParticipants) && meeting == old(meetingParticipants)[meetingId]
      ensures meetingId !in old(meetingParticipants) ==>
                meeting == map[] && meetingParticipants == old(meetingParticipants)[meetingId := map[]]
    {
      if meetingId in meetingParticipants {
        meeting := meetingParticipants[meetingId];
      } else {
        meeting := map[];
        meetingParticipants := meetingParticipants[meetingId := meeting];
      }
    }

    /** The body of the periodic cleanup: prune every meeting, then drop it if it is empty. */
    method Sweep(now: int)
      modifies this
      ensures meetingParticipants == Swept(old(meetingParticipants), now)
    {
      ghost var before := meetingParticipants;
      var pending := meetingParticipants.Keys;
      while pending != {}
        invariant pending <= before.Keys
        invariant meetingParticipants.Keys <= before.Keys
        invariant forall k :: k in pending ==> k in meetingParticipants && meetingParticipants[k] == before[k]
        invariant forall k :: k in before && k !in pending ==>
                    (k in meetingParticipants <==> Pruned(before[k], now) != map[]) &&
                    (k in meetingParticipants ==> meetingParticipants[k] == Pruned(before[k], now))
        decreases pending
      {
        var meetingId :| meetingId in pending;
        var participants := PruneExpired(meetingParticipants[meetingId], now);
        if |participants| == 0 {
          meetingParticipants := meetingParticipants - {meetingId};
        } else {
          meetingParticipants := meetingParticipants[meetingId := participants];
        }
        pending := pending - {meetingId};
      }
    }
  }

  /** The inner loop of the cleanup: delete, one by one, the entries of a meeting that are past their TTL. */
  method PruneExpired(meeting: Meeting, now: int) returns (participants: Meeting)
    ensures participants.Keys <= meeting.Keys
    ensures forall uuid :: uuid in meeting ==>
              (uuid in participants <==> now - meeting[uuid].lastSeen <= Ttl(meeting[uuid].source))
    ensures forall uuid :: uuid in participants ==> participants[uuid] == meeting[uuid]
    ensures participants == Pruned(meeting, now)
  {
    participants := meeting;
    var uuids := meeting.Keys;
    while uuids != {}
      invariant uuids <= meeting.Keys
      invariant participants.Keys <= meeting.Keys
      invariant forall p :: p in uuids ==> p in participants && participants[p] == meeting[p]
      invariant forall p :: p in meeting && p !in uuids ==>
                  (p in participants <==> !Expired(meeting[p], now)) &&
                  (p in participants ==> participants[p] == meeting[p])
      decreases uuids
    {
      var uuid :| uuid in uuids;
      if now - participants[uuid].lastSeen > Ttl(participants[uuid].source) {
        participants := participants - {uuid};
      }
      uuids := uuids - {uuid};
    }
  }

  /** An entry is removed by the sweep exactly when it is older than its TTL; an entry whose age equals the TTL stays. */
  lemma SweepRemovesIffExpired(store: Store, now: int, meetingId: string, uuid: string)
    requires meetingId in store && uuid in store[meetingId]
    ensures (meetingId in Swept(store, now) && uuid in Swept(store, now)[meetingId])
              <==> now - store[meetingId][uuid].lastSeen <= (if store[meetingId][uuid].source == Webhook then 7200000 else 3600000)
  {
    if !Expired(store[meetingId][uuid], now) {
      assert uuid in Pruned(store[meetingId], now);
    }
  }

  /** The sweep only deletes: every surviving meeting and entry was there before, unchanged. */
  lemma SweepOnlyDeletes(store: Store, now: int)
    ensures Swept(store, now).Keys <= store.Keys
    ensures forall k :: k in Swept(store, now) ==>
              forall p :: p in Swept(store, now)[k] ==> p in store[k] && Swept(store, now)[k][p] == store[k][p]
  {
  }

  /** After a sweep no meeting is empty, including meetings that were empty before it. */
  lemma SweepLeavesNoEmptyMeeting(store: Store, now: int)
    ensures NoEmptyMeeting(Swept(store, now))
    ensures forall k :: k in store && store[k] == map[] ==> k !in Swept(store, now)
  {
  }

  /** A sweep at `now` followed by a sweep at a later `later` equals the sweep at `later` alone. */
  lemma SweepsCompose(store: Store, now: int, later: int)
    requires now <= later
    ensures Swept(Swept(store, now), later) == Swept(store, later)
  {
    var once := Swept(store, now);
    forall k | k in store
      ensures k in once ==> Pruned(once[k], later) == Pruned(store[k], later)
      ensures k !in once ==> Pruned(store[k], later) == map[]
    {
      if k in once {
        assert once[k] == Pruned(store[k], now);
      } else {
        assert Pruned(store[k], now) == map[];
        forall p | p in store[k] ensures Expired(store[k][p], later) {
          assert p !in Pruned(store[k], now);
        }
      }
    }
  }

  /** Running the sweep twice with the same clock reading is the same as running it once. */
  lemma SweepIdempotent(store: Store, now: int)
    ensures Swept(Swept(store, now), now) == Swept(store, now)
  {
    SweepsCompose(store, now, now);
  }
}
