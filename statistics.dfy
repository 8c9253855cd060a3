/** The counting behind the statistics reports (bot/utils/statistics.py):
    loading users page by page, and the number of broadcasts each user was
    among the recipients of. The spreadsheet itself is not modelled. */
module Statistics {
  import opened Text
  import opened Documents
  import opened Users
  import opened Broadcasts

  const UserBatchSize: nat := 1000
  const BroadcastBatchSize: nat := 500

  /** Load every user (or every user of a status) in pages of 1000 with an
      advancing skip, stopping on an empty or short page. The result is the
      whole query result, in order. */
  method LoadUsersPaged(store: UserStore, status: Option<string>) returns (all: seq<Doc>)
    ensures all == Select(store.docs, StatusQuery(status))
  {
    ghost var sel := Select(store.docs, StatusQuery(status));
    all := [];
    var skip: nat := 0;
    while true
      invariant skip <= |sel| && all == sel[..skip]
      decreases |sel| - skip
    {
      var batch := NextUserPage(store, status, skip, sel);
      if batch == [] {
        break;
      }
      all := all + batch;
      skip := skip + UserBatchSize;
      if |batch| < UserBatchSize {
        break;
      }
    }
  }

  /** One page of the loading loop: the next (at most) 1000 users of the
      query result. */
  method NextUserPage(store: UserStore, status: Option<string>, skip: nat, ghost sel: seq<Doc>)
    returns (batch: seq<Doc>)
    requires sel == Select(store.docs, StatusQuery(status)) && skip <= |sel|
    ensures skip + |batch| <= |sel| && batch == sel[skip..skip + |batch|]
    ensures |batch| == if |sel| - skip < UserBatchSize then |sel| - skip else UserBatchSize
  {
    batch := store.GetAllUsers(status, Some(UserBatchSize), skip);
    PageWindow(sel, skip, UserBatchSize);
  }

  /** The report of active users loads them the same way with status "active". */
  method LoadActiveUsers(store: UserStore) returns (all: seq<Doc>)
    ensures forall d :: d in all <==> d in store.docs && Get(d, "status") == Str("active")
    ensures all == Select(store.docs, map["status" := Str("active")])
  {
    all := LoadUsersPaged(store, Some("active"));
    forall d ensures d in all <==> d in store.docs && Get(d, "status") == Str("active") {
      SelectMembers(store.docs, StatusQuery(Some("active")), d);
    }
  }

  /** Which filter a broadcast counts with, if any: only "completed" and
      "in_progress" broadcasts count; a missing `target_filter` is `{}` and
      matches everyone; a stored None is not a dict and matches nobody. */
  function CountedFilter(b: Broadcast): (r: Option<Query>)
    ensures r.Some? ==> b.status == Completed || b.status == InProgress
    ensures b.targetFilter.FilterNone? ==> r.None?
    ensures (b.status == Completed || b.status == InProgress) && b.targetFilter.FilterAbsent? ==> r == Some(map[])
    ensures (b.status == Completed || b.status == InProgress) && b.targetFilter.FilterDict? ==> r == Some(b.targetFilter.q)
  {
    if b.status != Completed && b.status != InProgress then None
    else match b.targetFilter
      case FilterAbsent => Some(map[])
      case FilterNone => None
      case FilterDict(q) => Some(q)
  }

  /** The key a user's count is kept under (`user.get('user_id')`). */
  function UserKey(u: Doc): Value {
    Get(u, "user_id")
  }

  /** Every loaded user's count starts at 0. */
  function InitCounts(users: seq<Doc>): (m: map<Value, nat>)
    ensures forall k :: k in m <==> exists i :: 0 <= i < |users| && UserKey(users[i]) == k
    ensures forall k :: k in m ==> m[k] == 0
  {
    if users == [] then map[]
    else
      var prev := users[..|users| - 1];
      var m := InitCounts(prev)[UserKey(users[|users| - 1]) := 0];
      assert forall i :: 0 <= i < |prev| ==> prev[i] == users[i];
      m
  }

  /** One user's turn in the inner loop: count the broadcast for them when
      they are a loaded user and equal on every filter key. */
  function CreditOne(counts: map<Value, nat>, u: Doc, q: Query): map<Value, nat> {
    var k := UserKey(u);
    if k in counts && Matches(u, q) then counts[k := counts[k] + 1] else counts
  }

  /** The inner loop over all loaded users, for one broadcast's filter. */
  function CreditUsers(counts: map<Value, nat>, users: seq<Doc>, q: Query): map<Value, nat> {
    if users == [] then counts
    else CreditOne(CreditUsers(counts, users[..|users| - 1], q), users[|users| - 1], q)
  }

  /** The counts after one broadcast. */
  function CountBroadcast(counts: map<Value, nat>, users: seq<Doc>, b: Broadcast): map<Value, nat> {
    match CountedFilter(b)
    case None => counts
    case Some(q) => CreditUsers(counts, users, q)
  }

  /** The counts after a run of broadcasts, in collection order. */
  function CountAll(counts: map<Value, nat>, users: seq<Doc>, bs: seq<Broadcast>): map<Value, nat> {
    if bs == [] then counts
    else CountBroadcast(CountAll(counts, users, bs[..|bs| - 1]), users, bs[|bs| - 1])
  }

  /** The per-user broadcast count of `generate_users_statistics_excel`:
      initialise every loaded user at 0, then read the broadcasts in pages of
      500 (stopping on an empty or short page) and credit each counted one to
      the users its filter matches. */
  method CountBroadcastsPerUser(allUsers: seq<Doc>, table: BroadcastTable) returns (counts: map<Value, nat>)
    ensures counts == CountAll(InitCounts(allUsers), allUsers, table.records)
  {
    counts := ZeroCounts(allUsers);
    ghost var init := counts;
    var skip: nat := 0;
    while true
      invariant skip <= |table.records|
      invariant counts == CountAll(init, allUsers, table.records[..skip])
      decreases |table.records| - skip
    {
      var batch := Page(table.records, skip, Some(BroadcastBatchSize));
      if batch == [] {
        break;
      }
      counts := CountBatch(counts, allUsers, init, table.records, skip, batch);
      skip := skip + BroadcastBatchSize;
      if |batch| < BroadcastBatchSize {
        break;
      }
    }
    assert table.records[..|table.records|] == table.records;
  }

  /** The first loop: every loaded user at 0. */
  method ZeroCounts(allUsers: seq<Doc>) returns (counts: map<Value, nat>)
    ensures counts == InitCounts(allUsers)
  {
    counts := map[];
    for i := 0 to |allUsers|
      invariant counts == InitCounts(allUsers[..i])
    {
      assert allUsers[..i + 1][..i] == allUsers[..i];
      counts := counts[UserKey(allUsers[i]) := 0];
    }
    assert allUsers[..|allUsers|] == allUsers;
  }

  /** One page of broadcasts: credit each counted one in turn. */
  method CountBatch(counts: map<Value, nat>, allUsers: seq<Doc>, ghost init: map<Value, nat>,
                    ghost records: seq<Broadcast>, ghost skip: nat, batch: seq<Broadcast>)
    returns (r: map<Value, nat>)
    requires skip + |batch| <= |records| && batch == records[skip..skip + |batch|]
    requires counts == CountAll(init, allUsers, records[..skip])
    ensures r == CountAll(init, allUsers, records[..skip + |batch|])
  {
    r := counts;
    for j := 0 to |batch|
      invariant r == CountAll(init, allUsers, records[..skip + j])
    {
      assert records[..skip + j + 1][..skip + j] == records[..skip + j];
      assert records[..skip + j + 1][skip + j] == batch[j];
      var b := batch[j];
      if b.status != Completed && b.status != InProgress {
        continue;
      }
      var targetFilter: Query;
      match b.targetFilter {
        case FilterAbsent => targetFilter := map[];
        case FilterNone => continue;
        case FilterDict(q) => targetFilter := q;
      }
      r := CreditLoop(r, allUsers, targetFilter);
    }
  }

  /** The loop over the loaded users for one counted broadcast. */
  method CreditLoop(counts: map<Value, nat>, allUsers: seq<Doc>, q: Query) returns (r: map<Value, nat>)
    ensures r == CreditUsers(counts, allUsers, q)
  {
    r := counts;
    for i := 0 to |allUsers|
      invariant r == CreditUsers(counts, allUsers[..i], q)
    {
      assert allUsers[..i + 1][..i] == allUsers[..i];
      var k := UserKey(allUsers[i]);
      if k in r && Matches(allUsers[i], q) {
        r := r[k := r[k] + 1];
      }
    }
    assert allUsers[..|allUsers|] == allUsers;
  }

  // ---------------------------------------------------------------------
  // What the counts mean

  /** The number of loaded users under key `k` that a filter matches. */
  function MatchCount(users: seq<Doc>, k: Value, q: Query): nat {
    if users == [] then 0
    else MatchCount(users[..|users| - 1], k, q) + (if UserKey(users[|users| - 1]) == k && Matches(users[|users| - 1], q) then 1 else 0)
  }

  /** The number of broadcasts that count for user `u`. */
  function Received(u: Doc, bs: seq<Broadcast>): (n: nat)
    ensures n <= |bs|
  {
    if bs == [] then 0
    else
      var b := bs[|bs| - 1];
      Received(u, bs[..|bs| - 1]) + (if CountedFilter(b).Some? && Matches(u, CountedFilter(b).value) then 1 else 0)
  }

  /** The inner loop adds, under each key, the number of users with that key
      whom the filter matches, and adds no key. */
  lemma {:induction false} CreditUsersAdds(counts: map<Value, nat>, users: seq<Doc>, q: Query, k: Value)
    ensures CreditUsers(counts, users, q).Keys == counts.Keys
    ensures k in counts ==> CreditUsers(counts, users, q)[k] == counts[k] + MatchCount(users, k, q)
  {
    if users != [] {
      CreditUsersAdds(counts, users[..|users| - 1], q, k);
    }
  }

  /** A key no user carries gets no matches. */
  lemma {:induction false} MatchCountAbsent(users: seq<Doc>, k: Value, q: Query)
    requires forall i :: 0 <= i < |users| ==> UserKey(users[i]) != k
    ensures MatchCount(users, k, q) == 0
  {
    if users != [] {
      MatchCountAbsent(users[..|users| - 1], k, q);
    }
  }

  /** With distinct user ids, a user's key gets exactly one match when the
      filter matches that user and none otherwise. */
  lemma {:induction false} MatchCountUnique(users: seq<Doc>, i: nat, q: Query)
    requires UniqueIds(users) && i < |users|
    ensures MatchCount(users, UserKey(users[i]), q) == if Matches(users[i], q) then 1 else 0
  {
    var n := |users|;
    var prev := users[..n - 1];
    assert forall j :: 0 <= j < n - 1 ==> prev[j] == users[j];
    if i == n - 1 {
      MatchCountAbsent(prev, UserKey(users[i]), q);
    } else {
      MatchCountUnique(prev, i, q);
    }
  }

  /** With distinct user ids, each loaded user's final count is the number of
      counted broadcasts whose filter matches them, so it grows by at most
      one per broadcast and never exceeds the number of broadcasts. */
  lemma {:induction false} CountIsReceived(users: seq<Doc>, bs: seq<Broadcast>, i: nat)
    requires UniqueIds(users) && i < |users|
    ensures UserKey(users[i]) in CountAll(InitCounts(users), users, bs)
    ensures CountAll(InitCounts(users), users, bs)[UserKey(users[i])] == Received(users[i], bs)
    ensures CountAll(InitCounts(users), users, bs)[UserKey(users[i])] <= |bs|
  {
    var k := UserKey(users[i]);
    if bs == [] {
      assert k in InitCounts(users);
    } else {
      var prev := bs[..|bs| - 1];
      var b := bs[|bs| - 1];
      CountIsReceived(users, prev, i);
      var before := CountAll(InitCounts(users), users, prev);
      match CountedFilter(b) {
        case None =>
        case Some(q) =>
          CreditUsersAdds(before, users, q, k);
          MatchCountUnique(users, i, q);
      }
    }
  }
}
