/** The broadcasts collection: one record per broadcast job, written by the
    send loop (bot/services/notifications.py) and by the scheduler tick
    (bot/utils/scheduler.py). A record's id is its position in the
    collection; records are never deleted. */
module Broadcasts {
  import opened Text
  import opened Documents

  datatype Status = Scheduled | InProgress | Completed | Error

  /** The stored `target_filter` field: absent, None, or a dict. */
  datatype StoredFilter = FilterAbsent | FilterNone | FilterDict(q: Query)

  datatype Broadcast = Broadcast(
    messageText: string,
    targetFilter: StoredFilter,
    totalUsers: Option<nat>,
    createdAt: int,
    scheduleTime: Option<int>,
    status: Status,
    sentCount: nat,
    failedCount: nat,
    completedAt: Option<int>,
    error: Option<string>)

  /** How a `target_filter` argument (None or a dict) is stored. */
  function Stored(targetFilter: Option<Query>): StoredFilter {
    match targetFilter
    case None => FilterNone
    case Some(q) => FilterDict(q)
  }

  /** `broadcast.get("target_filter")` read back as an argument. */
  function FilterArgument(f: StoredFilter): (r: Option<Query>)
    ensures r.Some? <==> f.FilterDict?
  {
    match f
    case FilterDict(q) => Some(q)
    case _ => None
  }

  /** A filter stored by this code reads back as the filter it was given. */
  lemma FilterRoundTrip(targetFilter: Option<Query>)
    ensures FilterArgument(Stored(targetFilter)) == targetFilter
  {
  }

  /** The scheduler's due query: status "scheduled" and `schedule_time <= now`
      (a record without a schedule time never matches `$lte`). */
  predicate IsDue(b: Broadcast, now: int) {
    b.status == Scheduled && b.scheduleTime.Some? && b.scheduleTime.value <= now
  }

  /** The ids of the due records at or after `from`, in collection order. */
  function DueFrom(records: seq<Broadcast>, now: int, from: nat): (r: seq<nat>)
    requires from <= |records|
    ensures forall k :: 0 <= k < |r| ==> from <= r[k] < |records| && IsDue(records[r[k]], now)
    ensures forall i :: from <= i < |records| && IsDue(records[i], now) ==> i in r
    ensures forall k, l :: 0 <= k < l < |r| ==> r[k] < r[l]
    decreases |records| - from
  {
    if from == |records| then []
    else if IsDue(records[from], now) then [from] + DueFrom(records, now, from + 1)
    else DueFrom(records, now, from + 1)
  }

  /** `find({"status": "scheduled", "schedule_time": {"$lte": now}})`. */
  function DueIds(records: seq<Broadcast>, now: int): (r: seq<nat>)
    ensures forall i :: i in r <==> 0 <= i < |records| && IsDue(records[i], now)
    ensures forall k, l :: 0 <= k < l < |r| ==> r[k] < r[l]
  {
    DueFrom(records, now, 0)
  }

  class BroadcastTable {
    /** The collection's records; a record's id is its index. */
    var records: seq<Broadcast>

    constructor (initial: seq<Broadcast>)
      ensures records == initial
    {
      records := initial;
    }

    /** `insert_one`: the new record's id. */
    method Insert(b: Broadcast) returns (id: nat)
      modifies this
      ensures records == old(records) + [b]
      ensures id == |old(records)|
    {
      id := |records|;
      records := records + [b];
    }

    /** `update_one({"_id": id}, {"$inc": {"sent_count": 1}})`. */
    method IncrementSent(id: nat)
      modifies this
      ensures id < |old(records)| ==>
        records == old(records)[id := old(records)[id].(sentCount := old(records)[id].sentCount + 1)]
      ensures id >= |old(records)| ==> records == old(records)
    {
      if id < |records| {
        records := records[id := records[id].(sentCount := records[id].sentCount + 1)];
      }
    }

    /** `update_one({"_id": id}, {"$inc": {"failed_count": 1}})`. */
    method IncrementFailed(id: nat)
      modifies this
      ensures id < |old(records)| ==>
        records == old(records)[id := old(records)[id].(failedCount := old(records)[id].failedCount + 1)]
      ensures id >= |old(records)| ==> records == old(records)
    {
      if id < |records| {
        records := records[id := records[id].(failedCount := records[id].failedCount + 1)];
      }
    }

    /** `update_one({"_id": id}, {"$set": {"status": status}})`. */
    method SetStatus(id: nat, status: Status)
      modifies this
      ensures id < |old(records)| ==> records == old(records)[id := old(records)[id].(status := status)]
      ensures id >= |old(records)| ==> records == old(records)
    {
      if id < |records| {
        records := records[id := records[id].(status := status)];
      }
    }

    /** `$set: {"status": "completed", "completed_at": at}`. */
    method MarkCompleted(id: nat, at: int)
      modifies this
      ensures id < |old(records)| ==>
        records == old(records)[id := old(records)[id].(status := Completed, completedAt := Some(at))]
      ensures id >= |old(records)| ==> records == old(records)
    {
      if id < |records| {
        records := records[id := records[id].(status := Completed, completedAt := Some(at))];
      }
    }

    /** `$set: {"status": "error", "error": message}`. */
    method MarkError(id: nat, message: string)
      modifies this
      ensures id < |old(records)| ==>
        records == old(records)[id := old(records)[id].(status := Error, error := Some(message))]
      ensures id >= |old(records)| ==> records == old(records)
    {
      if id < |records| {
        records := records[id := records[id].(status := Error, error := Some(message))];
      }
    }
  }
}
