/**
 * Sync-status estimation: from one incoming sync-status message (every
 * reporting member's latest sample), the online status of every member and
 * the list of drift deltas of the other party members.
 */
module SyncStatus {
  import opened Optional
  import opened MediaTypes

  /** A member whose last sample is older than this many milliseconds is offline. */
  const SYNC_STATUS_INTERVAL_TOLERANCE: int := 1500

  /**
   * `ids` lists the keys of the JavaScript object `incoming`, each once, in
   * its enumeration order.
   */
  predicate ObjectKeys(incoming: map<string, SyncSample>, ids: seq<string>)
  {
    && (forall i, j :: 0 <= i < j < |ids| ==> ids[i] != ids[j])
    && (forall id :: id in ids ==> id in incoming)
    && (forall id :: id in incoming ==> id in ids)
  }

  /**
   * A member is online when this client's own sample is present and the
   * member's sample time, moved into the server's frame, is less than the
   * tolerance behind this client's present in that frame.
   */
  predicate IsOnline(incoming: map<string, SyncSample>, userId: string, memberId: string, now: int): (r: bool)
    requires memberId in incoming
    ensures r ==> userId in incoming
    ensures userId in incoming ==> (r <==> ServerFrameLag(incoming, userId, memberId, now) < SYNC_STATUS_INTERVAL_TOLERANCE)
  {
    && userId in incoming
    && incoming[memberId].timestamp + incoming[memberId].serverTimeOffset
       > now + incoming[userId].serverTimeOffset - SYNC_STATUS_INTERVAL_TOLERANCE
  }

  /** How far, in server-frame milliseconds, a member's sample lies behind this client's present. */
  function ServerFrameLag(incoming: map<string, SyncSample>, userId: string, memberId: string, now: int): int
    requires memberId in incoming && userId in incoming
  {
    (now + incoming[userId].serverTimeOffset) - (incoming[memberId].timestamp + incoming[memberId].serverTimeOffset)
  }

  /** The status entry of one member: online or not, with the member's own server time offset. */
  function StatusOf(incoming: map<string, SyncSample>, userId: string, memberId: string, now: int): (r: MemberStatus)
    requires memberId in incoming
    ensures r.serverTimeOffset == incoming[memberId].serverTimeOffset
    ensures r.online ==> userId in incoming
    ensures userId in incoming ==> (r.online <==> ServerFrameLag(incoming, userId, memberId, now) < SYNC_STATUS_INTERVAL_TOLERANCE)
  {
    MemberStatus(IsOnline(incoming, userId, memberId, now), incoming[memberId].serverTimeOffset)
  }

  /** The member-status map the handler publishes: one entry per member of the message. */
  function MemberStatuses(incoming: map<string, SyncSample>, userId: string, now: int): (r: map<string, MemberStatus>)
    ensures r.Keys == incoming.Keys
    ensures forall id :: id in r ==> r[id].serverTimeOffset == incoming[id].serverTimeOffset
    ensures forall id :: id in r ==> (r[id].online <==> IsOnline(incoming, userId, id, now))
  {
    map id | id in incoming :: StatusOf(incoming, userId, id, now)
  }

  /**
   * The delta row for member `id`, when there is one: only while this client's
   * own sample is present, never for this client itself, and only for ids of
   * party members (with the first such member's username).
   */
  function PeerEntry(id: string, incoming: map<string, SyncSample>, userId: string,
                     members: seq<PartyMember>, delta: string -> real): (r: Option<SyncStatusReceiveMember>)
    ensures r.Some? <==> userId in incoming && id != userId && exists j :: 0 <= j < |members| && members[j].id == id
    ensures r.Some? ==> r.value.id == id && r.value.delta == delta(id)
    ensures r.Some? ==> r.value.username == FindMember(members, id).value.username
    ensures r.Some? ==> exists j :: 0 <= j < |members| && members[j].id == id && members[j].username == r.value.username
  {
    if userId in incoming && id != userId then
      match FindMember(members, id)
      case Some(m) => Some(SyncStatusReceiveMember(id, m.username, delta(id)))
      case None => None
    else None
  }

  /** The delta rows for the members `ids`, in that order. */
  function PeerDeltas(ids: seq<string>, incoming: map<string, SyncSample>, userId: string,
                      members: seq<PartyMember>, delta: string -> real): (r: seq<SyncStatusReceiveMember>)
    ensures |r| <= |ids|
    ensures forall k :: 0 <= k < |r| ==> r[k].id != userId
  {
    if ids == [] then []
    else
      var prev := PeerDeltas(ids[..|ids| - 1], incoming, userId, members, delta);
      match PeerEntry(ids[|ids| - 1], incoming, userId, members, delta)
      case Some(e) => prev + [e]
      case None => prev
  }

  /**
   * The sync-status handler's computation: one pass over the member ids that
   * fills the member-status map and appends the delta rows.
   * `delta` stands for the delta computation of the shared helpers, applied to
   * this message and the current player state.
   */
  method ComputeSyncStatus(incoming: map<string, SyncSample>, ids: seq<string>, userId: string,
                           members: seq<PartyMember>, now: int, delta: string -> real)
    returns (memberStatus: map<string, MemberStatus>, syncStatus: seq<SyncStatusReceiveMember>)
    requires ObjectKeys(incoming, ids)
    ensures memberStatus == MemberStatuses(incoming, userId, now)
    ensures syncStatus == PeerDeltas(ids, incoming, userId, members, delta)
    ensures forall k :: 0 <= k < |syncStatus| ==> syncStatus[k].id != userId && syncStatus[k].id in incoming
    ensures userId !in incoming ==> syncStatus == []
  {
    memberStatus, syncStatus := map[], [];
    var i := 0;
    while i < |ids|
      invariant 0 <= i <= |ids|
      invariant forall id :: id in memberStatus <==> id in ids[..i]
      invariant forall id :: id in memberStatus ==> id in incoming && memberStatus[id] == StatusOf(incoming, userId, id, now)
      invariant syncStatus == PeerDeltas(ids[..i], incoming, userId, members, delta)
    {
      var id := ids[i];
      assert ids[..i + 1] == ids[..i] + [id];
      memberStatus := memberStatus[id := MemberStatus(false, incoming[id].serverTimeOffset)];
      if userId in incoming
         && incoming[id].timestamp + incoming[id].serverTimeOffset
            > now + incoming[userId].serverTimeOffset - SYNC_STATUS_INTERVAL_TOLERANCE
      {
        memberStatus := memberStatus[id := memberStatus[id].(online := true)];
      }
      assert memberStatus[id] == StatusOf(incoming, userId, id, now);
      if userId in incoming && id != userId {
        var d := delta(id);
        var member := FindMember(members, id);
        if member.Some? {
          syncStatus := syncStatus + [SyncStatusReceiveMember(id, member.value.username, d)];
        }
      }
      assert ids[..i + 1][..i] == ids[..i];
      i := i + 1;
    }
    assert ids[..i] == ids;
    StatusesAgree(memberStatus, incoming, ids, userId, now);
    PeerDeltasSound(ids, incoming, userId, members, delta);
    if userId !in incoming {
      PeerDeltasWithoutOwnSample(ids, incoming, userId, members, delta);
    }
  }

  /** A map holding the status of exactly the members of the message is the published member-status map. */
  lemma StatusesAgree(memberStatus: map<string, MemberStatus>, incoming: map<string, SyncSample>, ids: seq<string>,
                      userId: string, now: int)
    requires ObjectKeys(incoming, ids)
    requires forall id :: id in memberStatus <==> id in ids
    requires forall id :: id in memberStatus ==> id in incoming && memberStatus[id] == StatusOf(incoming, userId, id, now)
    ensures memberStatus == MemberStatuses(incoming, userId, now)
  {
    var expected := MemberStatuses(incoming, userId, now);
    assert memberStatus.Keys == expected.Keys;
    forall id | id in memberStatus ensures memberStatus[id] == expected[id] {
      assert expected[id] == StatusOf(incoming, userId, id, now);
    }
  }

  /** Every delta row belongs to one of `ids` and is exactly that member's entry. */
  lemma {:induction false} PeerDeltasSound(ids: seq<string>, incoming: map<string, SyncSample>, userId: string,
                                           members: seq<PartyMember>, delta: string -> real)
    ensures forall k :: 0 <= k < |PeerDeltas(ids, incoming, userId, members, delta)| ==>
              var e := PeerDeltas(ids, incoming, userId, members, delta)[k];
              e.id in ids && PeerEntry(e.id, incoming, userId, members, delta) == Some(e)
  {
    if ids != [] {
      var init := ids[..|ids| - 1];
      PeerDeltasSound(init, incoming, userId, members, delta);
      forall id | id in init ensures id in ids {
        var j :| 0 <= j < |init| && init[j] == id;
        assert ids[j] == id;
      }
    }
  }

  /** Every member of `ids` that has an entry has its row in the list. */
  lemma {:induction false} PeerDeltasComplete(ids: seq<string>, incoming: map<string, SyncSample>, userId: string,
                                              members: seq<PartyMember>, delta: string -> real, id: string)
    requires id in ids
    requires PeerEntry(id, incoming, userId, members, delta).Some?
    ensures PeerEntry(id, incoming, userId, members, delta).value in PeerDeltas(ids, incoming, userId, members, delta)
  {
    var init := ids[..|ids| - 1];
    if id != ids[|ids| - 1] {
      assert id in init by {
        var j :| 0 <= j < |ids| && ids[j] == id;
        assert init[j] == id;
      }
      PeerDeltasComplete(init, incoming, userId, members, delta, id);
    }
  }

  /** Without this client's own sample the delta list is empty. */
  lemma {:induction false} PeerDeltasWithoutOwnSample(ids: seq<string>, incoming: map<string, SyncSample>, userId: string,
                                                      members: seq<PartyMember>, delta: string -> real)
    requires userId !in incoming
    ensures PeerDeltas(ids, incoming, userId, members, delta) == []
  {
    if ids != [] {
      PeerDeltasWithoutOwnSample(ids[..|ids| - 1], incoming, userId, members, delta);
    }
  }

  /** No two rows are for the same member. */
  predicate DistinctRows(rows: seq<SyncStatusReceiveMember>)
  {
    forall i, j :: 0 <= i < j < |rows| ==> rows[i].id != rows[j].id
  }

  /** A row names a member of `ids` at most once when the ids are distinct. */
  lemma {:induction false} PeerDeltasDistinct(ids: seq<string>, incoming: map<string, SyncSample>, userId: string,
                                              members: seq<PartyMember>, delta: string -> real)
    requires forall i, j :: 0 <= i < j < |ids| ==> ids[i] != ids[j]
    ensures DistinctRows(PeerDeltas(ids, incoming, userId, members, delta))
  {
    if ids != [] {
      var init := ids[..|ids| - 1];
      PeerDeltasDistinct(init, incoming, userId, members, delta);
      PeerDeltasSound(init, incoming, userId, members, delta);
      var last := ids[|ids| - 1];
      assert forall j :: 0 <= j < |init| ==> init[j] == ids[j] && init[j] != last;
      assert last !in init;
      var prev := PeerDeltas(init, incoming, userId, members, delta);
      var entry := PeerEntry(last, incoming, userId, members, delta);
      if entry.Some? {
        var r := prev + [entry.value];
        assert PeerDeltas(ids, incoming, userId, members, delta) == r;
        forall i, j | 0 <= i < j < |r| ensures r[i].id != r[j].id {
          if j == |prev| {
            assert r[i] == prev[i] && r[j] == entry.value;
            var e := prev[i];
            assert e.id in init && PeerEntry(e.id, incoming, userId, members, delta) == Some(e);
          } else {
            assert r[i] == prev[i] && r[j] == prev[j];
          }
        }
      }
    }
  }

  /** Online means: own sample present and the member lags this client by less than the tolerance. */
  lemma OnlineIffWithinTolerance(incoming: map<string, SyncSample>, userId: string, memberId: string, now: int)
    requires memberId in incoming
    ensures IsOnline(incoming, userId, memberId, now) <==>
              userId in incoming && ServerFrameLag(incoming, userId, memberId, now) < SYNC_STATUS_INTERVAL_TOLERANCE
  {
  }

  /** The tolerance boundary is strict: a lag of 1499 ms is online, a lag of 1500 ms is not. */
  lemma OnlineBoundary(incoming: map<string, SyncSample>, userId: string, memberId: string, now: int)
    requires memberId in incoming && userId in incoming
    ensures ServerFrameLag(incoming, userId, memberId, now) == 1499 ==> IsOnline(incoming, userId, memberId, now)
    ensures ServerFrameLag(incoming, userId, memberId, now) >= 1500 ==> !IsOnline(incoming, userId, memberId, now)
  {
  }
}
