/** The scheduler (bot/utils/scheduler.py): a process-wide singleton and the
    periodic tick that sends the broadcasts whose time has come. */
module Scheduler {
  import opened Text
  import opened Documents
  import opened Users
  import opened Broadcasts
  import opened Notifications

  /** The job runner; only whether it was started is modelled. */
  class JobRunner {
    var running: bool

    constructor ()
      ensures !running
    {
      running := false;
    }

    method Start()
      modifies this
      ensures running
    {
      running := true;
    }
  }

  /** The module-level `_scheduler` slot. */
  class SchedulerSlot {
    var current: JobRunner?

    constructor ()
      ensures current == null
    {
      current := null;
    }

    /** `setup_scheduler`: create and start the runner on the first call,
        return the same one on every later call. */
    method SetupScheduler() returns (s: JobRunner)
      modifies this
      ensures old(current) != null ==> s == old(current) && current == old(current) && unchanged(old(current))
      ensures old(current) == null ==> fresh(s) && s.running && current == s
    {
      if current == null {
        var runner := new JobRunner();
        runner.Start();
        current := runner;
      }
      s := current;
    }
  }

  /** The state a due record is left in once the tick has run its
      `send_broadcast(save_to_db=False)`: "completed" and stamped with the
      clock when the run finishes, "error" with the exception text when it
      raises. Its counters are never touched. */
  function Finalized(b: Broadcast, outcome: SendResult, completedAt: int): (r: Broadcast)
    ensures r.status == Completed || r.status == Error
    ensures r.status == Completed <==> outcome.Finished?
    ensures r.sentCount == b.sentCount && r.failedCount == b.failedCount
    ensures r.messageText == b.messageText && r.targetFilter == b.targetFilter
    ensures r.scheduleTime == b.scheduleTime && r.totalUsers == b.totalUsers && r.createdAt == b.createdAt
    ensures outcome.Finished? ==> r.completedAt == Some(completedAt) && r.error == b.error
    ensures outcome.Raised? ==> r.error == Some(outcome.message) && r.completedAt == b.completedAt
  {
    match outcome
    case Finished(_, _, _) => b.(status := Completed, completedAt := Some(completedAt))
    case Raised(message) => b.(status := Error, error := Some(message))
  }

  /** The run a due record gets: its own text and stored filter, sent to the
      current users. */
  function RunFor(b: Broadcast, docs: seq<Doc>, send: nat -> SendOutcome, fault: Option<string>): SendResult {
    BroadcastRun(docs, FilterArgument(b.targetFilter), send, fault)
  }

  /** One iteration of the tick's loop: claim record `id` ("in_progress"),
      run `send_broadcast(save_to_db=False)` on its text and stored filter,
      then record the outcome. `claimed` is the table while the send runs:
      the record is "in_progress" and nothing else differs. */
  method ProcessOne(table: BroadcastTable, users: UserStore, id: nat, now: int,
                    send: nat -> SendOutcome, fault: Option<string>, completedAt: int)
    returns (ghost claimed: seq<Broadcast>)
    modifies table
    requires id < |table.records|
    ensures claimed == old(table.records)[id := old(table.records)[id].(status := InProgress)]
    ensures table.records == claimed[id := Finalized(claimed[id], RunFor(claimed[id], users.docs, send, fault), completedAt)]
    ensures table.records == old(table.records)[id := Finalized(old(table.records)[id], RunFor(old(table.records)[id], users.docs, send, fault), completedAt)]
  {
    table.SetStatus(id, InProgress);
    claimed := table.records;
    var result, _ := SendBroadcast(users, table, table.records[id].messageText,
                                   FilterArgument(table.records[id].targetFilter), false, now, send, fault);
    match result {
      case Finished(_, _, _) =>
        table.MarkCompleted(id, completedAt);
      case Raised(message) =>
        table.MarkError(id, message);
    }
  }

  /** Every id in `due` names a record. */
  predicate IdsIn(records: seq<Broadcast>, due: seq<nat>) {
    forall j :: 0 <= j < |due| ==> due[j] < |records|
  }

  predicate Increasing(due: seq<nat>) {
    forall j, l :: 0 <= j < l < |due| ==> due[j] < due[l]
  }

  /** The table after the tick has processed the first `n` of the due ids. */
  function TickPrefix(records: seq<Broadcast>, due: seq<nat>, n: nat, docs: seq<Doc>,
                      send: nat -> nat -> SendOutcome, fault: nat -> Option<string>,
                      clock: nat -> int): (r: seq<Broadcast>)
    requires n <= |due| && IdsIn(records, due)
    ensures |r| == |records|
  {
    if n == 0 then records
    else
      var id := due[n - 1];
      TickPrefix(records, due, n - 1, docs, send, fault, clock)[
        id := Finalized(records[id], RunFor(records[id], docs, send(n - 1), fault(n - 1)), clock(n - 1))]
  }

  /** With the due ids strictly increasing, the k-th due record holds its
      own outcome once processed and is as it was before. */
  lemma {:induction false} TickPrefixAt(records: seq<Broadcast>, due: seq<nat>, n: nat, docs: seq<Doc>,
                                        send: nat -> nat -> SendOutcome, fault: nat -> Option<string>,
                                        clock: nat -> int, k: nat)
    requires n <= |due| && k < |due| && IdsIn(records, due) && Increasing(due)
    ensures TickPrefix(records, due, n, docs, send, fault, clock)[due[k]] ==
      if k < n then Finalized(records[due[k]], RunFor(records[due[k]], docs, send(k), fault(k)), clock(k))
      else records[due[k]]
  {
    if n > 0 && k != n - 1 {
      assert due[k] != due[n - 1];
      TickPrefixAt(records, due, n - 1, docs, send, fault, clock, k);
    }
  }

  /** A record that is not due is never touched. */
  lemma {:induction false} TickPrefixElsewhere(records: seq<Broadcast>, due: seq<nat>, n: nat, docs: seq<Doc>,
                                               send: nat -> nat -> SendOutcome, fault: nat -> Option<string>,
                                               clock: nat -> int, i: nat)
    requires n <= |due| && i < |records| && i !in due && IdsIn(records, due)
    ensures TickPrefix(records, due, n, docs, send, fault, clock)[i] == records[i]
  {
    if n > 0 {
      assert due[n - 1] in due && due[n - 1] != i;
      TickPrefixElsewhere(records, due, n - 1, docs, send, fault, clock, i);
    }
  }

  /** `check_scheduled_broadcasts`. `queryFails` is a failure of the due
      query itself (logged, nothing written); for the k-th due record,
      `send(k)` and `fault(k)` drive its send run and `clock(k)` is the
      `utcnow()` stamped on completion. Returns the due ids it processed. */
  method CheckScheduledBroadcasts(table: BroadcastTable, users: UserStore, now: int, queryFails: bool,
                                  send: nat -> nat -> SendOutcome, fault: nat -> Option<string>,
                                  clock: nat -> int)
    returns (due: seq<nat>)
    modifies table
    ensures queryFails ==> due == [] && table.records == old(table.records)
    ensures !queryFails ==> due == DueIds(old(table.records), now)
    ensures !queryFails ==> table.records == TickPrefix(old(table.records), due, |due|, users.docs, send, fault, clock)
  {
    if queryFails {
      return [];
    }
    due := DueIds(table.records, now);
    DueIdsAreIds(table.records, now);
    var idx := 0;
    while idx < |due|
      invariant 0 <= idx <= |due|
      invariant table.records == TickPrefix(old(table.records), due, idx, users.docs, send, fault, clock)
    {
      TickStep(table, users, now, old(table.records), due, idx, send, fault, clock);
      idx := idx + 1;
    }
  }

  lemma DueIdsAreIds(records: seq<Broadcast>, now: int)
    ensures IdsIn(records, DueIds(records, now)) && Increasing(DueIds(records, now))
  {
  }

  /** The loop body of the tick: process the `idx`-th due record. */
  method TickStep(table: BroadcastTable, users: UserStore, now: int, ghost records: seq<Broadcast>, due: seq<nat>,
                  idx: nat, send: nat -> nat -> SendOutcome, fault: nat -> Option<string>, clock: nat -> int)
    modifies table
    requires idx < |due| && IdsIn(records, due) && Increasing(due)
    requires table.records == TickPrefix(records, due, idx, users.docs, send, fault, clock)
    ensures table.records == TickPrefix(records, due, idx + 1, users.docs, send, fault, clock)
  {
    TickPrefixAt(records, due, idx, users.docs, send, fault, clock, idx);
    var id := due[idx];
    ghost var claimed := ProcessOne(table, users, id, now, send(idx), fault(idx), clock(idx));
  }

  /** What the tick promises, record by record: each due record carries the
      outcome of its own run, and every other record is untouched. */
  lemma TickEffect(records: seq<Broadcast>, now: int, docs: seq<Doc>, send: nat -> nat -> SendOutcome,
                   fault: nat -> Option<string>, clock: nat -> int)
    ensures var due := DueIds(records, now);
      var after := TickPrefix(records, due, |due|, docs, send, fault, clock);
      && (forall k :: 0 <= k < |due| ==>
            after[due[k]] == Finalized(records[due[k]], RunFor(records[due[k]], docs, send(k), fault(k)), clock(k)))
      && (forall i :: 0 <= i < |records| && !IsDue(records[i], now) ==> after[i] == records[i])
  {
    var due := DueIds(records, now);
    forall k | 0 <= k < |due|
      ensures TickPrefix(records, due, |due|, docs, send, fault, clock)[due[k]] ==
                Finalized(records[due[k]], RunFor(records[due[k]], docs, send(k), fault(k)), clock(k))
    {
      TickPrefixAt(records, due, |due|, docs, send, fault, clock, k);
    }
    forall i | 0 <= i < |records| && !IsDue(records[i], now)
      ensures TickPrefix(records, due, |due|, docs, send, fault, clock)[i] == records[i]
    {
      TickPrefixElsewhere(records, due, |due|, docs, send, fault, clock, i);
    }
  }

  /** After a tick that ran its query nothing is due any more, so a record
      is sent by at most one tick; and the tick never changes a record's
      `sent_count` or `failed_count` (its run does not persist). */
  lemma TickLeavesNothingDue(records: seq<Broadcast>, now: int, docs: seq<Doc>,
                             send: nat -> nat -> SendOutcome, fault: nat -> Option<string>,
                             clock: nat -> int)
    ensures var due := DueIds(records, now);
      var after := TickPrefix(records, due, |due|, docs, send, fault, clock);
      && DueIds(after, now) == []
      && forall i :: 0 <= i < |after| ==>
           after[i].sentCount == records[i].sentCount && after[i].failedCount == records[i].failedCount
  {
    var due := DueIds(records, now);
    var after := TickPrefix(records, due, |due|, docs, send, fault, clock);
    TickEffect(records, now, docs, send, fault, clock);
    forall i | 0 <= i < |after|
      ensures !IsDue(after[i], now)
      ensures after[i].sentCount == records[i].sentCount && after[i].failedCount == records[i].failedCount
    {
      if IsDue(records[i], now) {
        assert i in due;
        var k :| 0 <= k < |due| && due[k] == i;
      }
    }
    NoneDueFrom(after, now, 0);
  }

  lemma {:induction false} NoneDueFrom(records: seq<Broadcast>, now: int, from: nat)
    requires from <= |records|
    requires forall i :: from <= i < |records| ==> !IsDue(records[i], now)
    ensures DueFrom(records, now, from) == []
    decreases |records| - from
  {
    if from < |records| {
      NoneDueFrom(records, now, from + 1);
    }
  }
}
