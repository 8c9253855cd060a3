/** Join requests to the channel (bot/handlers/join_request_handlers.py):
    the in-memory ledger of users waiting for approval, keyed by user id. */
module JoinRequests {
  import opened Text
  import opened Documents
  import opened Users
  import opened InviteLinks

  /** Entries older than this many seconds (7 days) are swept. */
  const ExpirySeconds: int := 7 * 24 * 60 * 60

  /** A Telegram user id; those of users are positive. */
  type UserId = nat

  /** A ledger entry. The Telegram join-request handle itself is not part of
      the model; its `approve()` is an outcome the caller supplies. */
  datatype PendingEntry = PendingEntry(source: Value, timestamp: int)

  /** An entry is swept when it is strictly older than seven days. */
  predicate IsExpired(e: PendingEntry, now: int) {
    now - e.timestamp > ExpirySeconds
  }

  /** The ids the sweep removes. */
  function ExpiredIds(entries: map<UserId, PendingEntry>, now: int): (r: set<UserId>)
    ensures r <= entries.Keys
    ensures forall u :: u in r <==> u in entries && IsExpired(entries[u], now)
  {
    set u | u in entries && IsExpired(entries[u], now)
  }

  /** The ledger the sweep leaves: the entries not expired, unchanged. */
  function Kept(entries: map<UserId, PendingEntry>, now: int): (r: map<UserId, PendingEntry>)
    ensures forall u :: u in r <==> u in entries && !IsExpired(entries[u], now)
    ensures forall u :: u in r ==> r[u] == entries[u]
  {
    map u | u in entries && !IsExpired(entries[u], now) :: entries[u]
  }

  /** The fields `approve_join_request` passes to `update_user`. */
  function ApprovalUpdate(now: int): Doc {
    map["status" := Str("active"), "activated_at" := Time(now), "last_interaction" := Time(now)]
  }

  /** The approval, once stamped, activates the user at `now`, and leaves
      `user_id` alone. */
  lemma ApprovalActivates(now: int)
    ensures var a := StampUpdate(ApprovalUpdate(now), now);
      && Get(a, "status") == Str("active") && Get(a, "activated_at") == Time(now)
      && Get(a, "last_interaction") == Time(now) && "user_id" !in a
  {
    var d := ApprovalUpdate(now);
    assert Get(d, "status") == Str("active");
    assert "user_id" !in d;
  }

  class PendingApprovals {
    /** The `pending_approvals` dict. */
    var entries: map<UserId, PendingEntry>

    constructor ()
      ensures entries == map[]
    {
      entries := map[];
    }

    /** `process_join_request`: look up the link's source (counting a use),
        save the user as "pending" and record (or overwrite) the entry. A
        failure of the lookup lands in the handler's `except`: nothing more
        is written. The prompt sent to the user may fail without effect. */
    method ProcessJoinRequest(users: UserStore, links: InviteLinkStore, userId: UserId, username: Value,
                              firstName: Value, lastName: Value, link: Option<string>, now: int)
      modifies this, users, links
      ensures !Given(link) ==> unchanged(links)
      ensures Given(link) ==> links.docs == LookupEffect(old(links.docs), link.value, now)
      ensures var lookup := if Given(link) then LookupOf(old(links.docs), link.value) else Unknown;
        if lookup.WriteFailed? then
          && entries == old(entries) && users.docs == old(users.docs)
        else
          && entries == old(entries)[userId := PendingEntry(SourceOf(lookup), now)]
          && users.docs == AddUserEffect(old(users.docs), userId, username, firstName, lastName,
                                         SourceOf(lookup), "pending", now)
    {
      ghost var lookup := if Given(link) then LookupOf(links.docs, link.value) else Unknown;
      var source := Null;
      if link.Some? && link.value != "" {
        var r := links.GetSourceByLink(link.value, now);
        assert r == lookup;
        match r {
          case Found(s) => source := s;
          case Unknown =>
          case WriteFailed(_) => return;
        }
      }
      assert source == SourceOf(lookup) && !lookup.WriteFailed?;
      var _ := users.AddUser(userId, username, firstName, lastName, source, "pending", now);
      entries := entries[userId := PendingEntry(source, now)];
    }

    /** `approve_join_request`. `approveFails` says whether the Telegram
        `approve()` call raises (the handler then answers False). */
    method ApproveJoinRequest(users: UserStore, userId: UserId, approveFails: bool, now: int) returns (ok: bool)
      modifies this, users
      ensures userId !in old(entries) ==> !ok && entries == old(entries) && users.docs == old(users.docs)
      ensures userId in old(entries) && approveFails ==> !ok && entries == old(entries) && users.docs == old(users.docs)
      ensures userId in old(entries) && !approveFails && old(users.GetUser(userId)).None? ==>
        !ok && entries == old(entries) && users.docs == old(users.docs)
      ensures userId in old(entries) && !approveFails && old(users.GetUser(userId)).Some? ==>
        && ok
        && entries == old(entries) - {userId}
        && users.docs == UpdateFirst(old(users.docs), IdQuery(userId), StampUpdate(ApprovalUpdate(now), now))
      ensures ok <==> userId in old(entries) && !approveFails && old(users.GetUser(userId)).Some?
    {
      if userId !in entries {
        return false;
      }
      if approveFails {
        return false;
      }
      var userData := users.GetUser(userId);
      if userData.None? {
        return false;
      }
      var _, _ := users.UpdateUser(userId, ApprovalUpdate(now), now);
      entries := entries - {userId};
      ok := true;
    }

    /** The first loop of `clean_old_pending_approvals`: the ids of the
        expired entries, each once. */
    method CollectExpired(now: int) returns (expired: seq<UserId>)
      ensures forall u :: u in expired <==> u in ExpiredIds(entries, now)
      ensures |expired| == |ExpiredIds(entries, now)|
    {
      expired := [];
      ghost var collected: set<UserId> := {};
      var remaining := entries.Keys;
      while remaining != {}
        invariant remaining <= entries.Keys
        invariant collected == ExpiredIds(entries, now) - remaining
        invariant forall u :: u in expired <==> u in collected
        invariant |expired| == |collected|
        decreases |remaining|
      {
        var id :| id in remaining;
        if IsExpired(entries[id], now) {
          expired := expired + [id];
          collected := collected + {id};
        }
        remaining := remaining - {id};
      }
    }

    /** `clean_old_pending_approvals`: collect the expired ids, then delete
        them; answer the number left and the number removed. */
    method CleanOldPendingApprovals(now: int) returns (totalPending: nat, cleaned: nat)
      modifies this
      ensures entries == Kept(old(entries), now)
      ensures cleaned == |ExpiredIds(old(entries), now)|
      ensures totalPending == |entries|
    {
      var expired := CollectExpired(now);
      var j := 0;
      while j < |expired|
        invariant 0 <= j <= |expired|
        invariant forall u :: u in entries <==> u in old(entries) && u !in expired[..j]
        invariant forall u :: u in entries ==> entries[u] == old(entries)[u]
      {
        entries := entries - {expired[j]};
        assert expired[..j + 1] == expired[..j] + [expired[j]];
        j := j + 1;
      }
      assert expired[..j] == expired;
      forall u ensures u in entries <==> u in Kept(old(entries), now) {
        assert u in expired <==> u in ExpiredIds(old(entries), now);
      }
      assert entries == Kept(old(entries), now);
      SweepCounts(old(entries), now);
      totalPending, cleaned := |entries|, |expired|;
    }
  }

  /** The sweep partitions the ledger: what it removes and what it keeps add
      up to what was there. */
  lemma SweepCounts(entries: map<UserId, PendingEntry>, now: int)
    ensures |ExpiredIds(entries, now)| + |Kept(entries, now)| == |entries|
  {
    var e := ExpiredIds(entries, now);
    var k := Kept(entries, now);
    assert k.Keys == entries.Keys - e;
    assert |k.Keys| == |k|;
    assert |entries.Keys| == |entries|;
  }

  /** An entry exactly seven days old survives the sweep; one a second older
      does not. */
  lemma SweepBoundary(entries: map<UserId, PendingEntry>, u: UserId, now: int)
    requires u in entries
    ensures now - entries[u].timestamp == ExpirySeconds ==> u in Kept(entries, now)
    ensures now - entries[u].timestamp == ExpirySeconds + 1 ==> u !in Kept(entries, now)
  {
  }
}
