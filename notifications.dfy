/** The broadcast send loop and scheduled-record creation
    (bot/services/notifications.py). The Telegram send is an oracle: `send(i)`
    is what happened when the i-th recipient was messaged. */
module Notifications {
  import opened Text
  import opened Documents
  import opened Users
  import opened Broadcasts

  /** The Telegram errors the loop catches by name. */
  datatype ApiError = BotBlocked | UserDeactivated | ChatNotFound | Unauthorized | CantInitiateConversation

  /** The outcome of one `bot.send_message`. */
  datatype SendOutcome = Delivered | ApiFailure(err: ApiError) | OtherFailure(typeName: string)

  /** `type(e).__name__` of a failed send. */
  function ErrorTypeName(o: SendOutcome): string
    requires !o.Delivered?
  {
    match o
    case ApiFailure(e) =>
      (match e
       case BotBlocked => "BotBlocked"
       case UserDeactivated => "UserDeactivated"
       case ChatNotFound => "ChatNotFound"
       case Unauthorized => "Unauthorized"
       case CantInitiateConversation => "CantInitiateConversation")
    case OtherFailure(name) => name
  }

  /** What `send_broadcast` returns, or the exception that escapes it. */
  datatype SendResult = Finished(total: nat, sent: nat, failed: nat) | Raised(message: string)

  /** The message of the KeyError raised by `user['user_id']` on a user
      document without that field (its log line re-raises inside the handler). */
  const MissingIdMessage: string := "'user_id'"

  /** The recipients: a truthy (non-empty) filter selects the users equal on
      every key; otherwise every user, of every status. */
  function Recipients(docs: seq<Doc>, targetFilter: Option<Query>): seq<Doc> {
    if targetFilter.Some? && |targetFilter.value| > 0 then Select(docs, targetFilter.value)
    else docs
  }

  /** How many recipients the loop gets through before a document without a
      `user_id` aborts it (all of them when there is none). */
  function Reached(rs: seq<Doc>): (p: nat)
    ensures p <= |rs|
    ensures forall j :: 0 <= j < p ==> "user_id" in rs[j]
    ensures p < |rs| ==> "user_id" !in rs[p]
  {
    if rs == [] then 0
    else if "user_id" !in rs[0] then 0
    else 1 + Reached(rs[1..])
  }

  /** Deliveries among the first k attempts. */
  function SentIn(send: nat -> SendOutcome, k: nat): (n: nat)
    ensures n <= k
  {
    if k == 0 then 0 else SentIn(send, k - 1) + (if send(k - 1).Delivered? then 1 else 0)
  }

  /** `errors_by_type[name] += 1`, creating the entry at 0 first. */
  function Bump(m: map<string, nat>, name: string): map<string, nat> {
    m[name := (if name in m then m[name] else 0) + 1]
  }

  /** The error tally after the first k attempts. */
  function Tally(send: nat -> SendOutcome, k: nat): map<string, nat> {
    if k == 0 then map[]
    else if send(k - 1).Delivered? then Tally(send, k - 1)
    else Bump(Tally(send, k - 1), ErrorTypeName(send(k - 1)))
  }

  /** The outcome of sending to the recipients `rs`: the counts once every
      one was reached, the KeyError otherwise. */
  function RunOver(rs: seq<Doc>, send: nat -> SendOutcome): SendResult {
    if Reached(rs) < |rs| then Raised(MissingIdMessage)
    else Finished(|rs|, SentIn(send, |rs|), |rs| - SentIn(send, |rs|))
  }

  /** The outcome of one run of `send_broadcast` over the user documents
      `docs`, independent of `save_to_db`. `fault` is a failure of the
      recipient query itself (the store unreachable), which escapes. */
  function BroadcastRun(docs: seq<Doc>, targetFilter: Option<Query>,
                        send: nat -> SendOutcome, fault: Option<string>): SendResult
  {
    if fault.Some? then Raised(fault.value) else RunOver(Recipients(docs, targetFilter), send)
  }

  /** The record `send_broadcast` inserts: "in_progress", `total_users`
      set and zero counters. */
  function Opened(messageText: string, targetFilter: Option<Query>, total: nat, now: int): Broadcast {
    Broadcast(messageText, Stored(targetFilter), Some(total), now, None, InProgress, 0, 0, None, None)
  }

  /** A record after `$inc`-ing its counters by `sent` and `failed`. */
  function Counted(b: Broadcast, sent: nat, failed: nat): Broadcast {
    b.(sentCount := b.sentCount + sent, failedCount := b.failedCount + failed)
  }

  /** The record left behind after sending to `rs`: inserted "in_progress"
      with `total_users` and zero counters, one `$inc` per recipient reached,
      and "completed" only once the loop has ended. */
  function PersistedOver(rs: seq<Doc>, messageText: string, targetFilter: Option<Query>,
                         send: nat -> SendOutcome, now: int): Broadcast
  {
    var p := Reached(rs);
    var b := Counted(Opened(messageText, targetFilter, |rs|, now), SentIn(send, p), p - SentIn(send, p));
    if p == |rs| then b.(status := Completed) else b
  }

  /** The record a persisting `send_broadcast` leaves behind. */
  function PersistedRecord(docs: seq<Doc>, messageText: string, targetFilter: Option<Query>,
                           send: nat -> SendOutcome, now: int): Broadcast
  {
    PersistedOver(Recipients(docs, targetFilter), messageText, targetFilter, send, now)
  }

  /** Replacing the element just appended. */
  lemma ReplaceLast<T>(a: seq<T>, x: T, y: T)
    ensures (a + [x])[|a| := y] == a + [y]
  {
  }

  /** The recipient query: `get_users_by_filter` for a truthy filter,
      otherwise `get_all_users()`. */
  method FetchRecipients(users: UserStore, targetFilter: Option<Query>) returns (rs: seq<Doc>)
    ensures rs == Recipients(users.docs, targetFilter)
  {
    if targetFilter.Some? && |targetFilter.value| > 0 {
      rs := users.GetUsersByFilter(targetFilter.value, None, 0);
      ByFilterIsExact(users, targetFilter.value, map[]);
    } else {
      rs := users.GetAllUsers(None, None, 0);
      AllUsersUnfiltered(users);
    }
  }

  /** `send_broadcast(bot, message_text, target_filter, save_to_db)`.
      Also returns the local `errors_by_type` tally, which the source only logs. */
  method SendBroadcast(users: UserStore, table: BroadcastTable, messageText: string,
                       targetFilter: Option<Query>, saveToDb: bool, now: int,
                       send: nat -> SendOutcome, fault: Option<string>)
    returns (result: SendResult, errorsByType: map<string, nat>)
    modifies table
    ensures result == BroadcastRun(users.docs, targetFilter, send, fault)
    ensures errorsByType == if fault.Some? then map[] else Tally(send, Reached(Recipients(users.docs, targetFilter)))
    ensures saveToDb && fault.None? ==>
      table.records == old(table.records) + [PersistedRecord(users.docs, messageText, targetFilter, send, now)]
    ensures !saveToDb || fault.Some? ==> table.records == old(table.records)
  {
    if fault.Some? {
      return Raised(fault.value), map[];
    }
    var rs := FetchRecipients(users, targetFilter);
    result, errorsByType := BroadcastTo(table, rs, messageText, targetFilter, saveToDb, now, send);
  }

  /** The body of `send_broadcast` once the recipients are fetched: insert
      the record when persisting, run the loop, then mark it "completed". */
  method BroadcastTo(table: BroadcastTable, rs: seq<Doc>, messageText: string,
                     targetFilter: Option<Query>, saveToDb: bool, now: int, send: nat -> SendOutcome)
    returns (result: SendResult, errorsByType: map<string, nat>)
    modifies table
    ensures result == RunOver(rs, send)
    ensures errorsByType == Tally(send, Reached(rs))
    ensures saveToDb ==> table.records == old(table.records) + [PersistedOver(rs, messageText, targetFilter, send, now)]
    ensures !saveToDb ==> table.records == old(table.records)
  {
    ghost var initial := Opened(messageText, targetFilter, |rs|, now);
    var id: nat := 0;
    if saveToDb {
      id := table.Insert(Opened(messageText, targetFilter, |rs|, now));
    }
    var reached, sentCount, failedCount;
    reached, sentCount, failedCount, errorsByType := SendEach(table, rs, saveToDb, id, send);
    if saveToDb {
      ReplaceLast(old(table.records), initial, Counted(initial, sentCount, failedCount));
    }
    if reached < |rs| {
      return Raised(MissingIdMessage), errorsByType;
    }
    if saveToDb {
      table.SetStatus(id, Completed);
      ReplaceLast(old(table.records), Counted(initial, sentCount, failedCount),
                  Counted(initial, sentCount, failedCount).(status := Completed));
    }
    result := Finished(|rs|, sentCount, failedCount);
  }

  /** The `for user in users` loop: message each recipient in turn, counting
      (and, when persisting, `$inc`-ing on record `id`) a delivery or a
      failure, until a recipient without a `user_id` aborts the loop. */
  method SendEach(table: BroadcastTable, rs: seq<Doc>, saveToDb: bool, id: nat, send: nat -> SendOutcome)
    returns (reached: nat, sentCount: nat, failedCount: nat, errorsByType: map<string, nat>)
    modifies table
    requires saveToDb ==> id < |table.records|
    ensures reached == Reached(rs)
    ensures sentCount == SentIn(send, reached) && failedCount == reached - sentCount
    ensures errorsByType == Tally(send, reached)
    ensures saveToDb ==> table.records == old(table.records)[id := Counted(old(table.records)[id], sentCount, failedCount)]
    ensures !saveToDb ==> table.records == old(table.records)
  {
    errorsByType := map[];
    sentCount, failedCount := 0, 0;
    reached := 0;
    while reached < |rs|
      invariant 0 <= reached <= |rs|
      invariant forall j :: 0 <= j < reached ==> "user_id" in rs[j]
      invariant sentCount == SentIn(send, reached) && failedCount == reached - sentCount
      invariant errorsByType == Tally(send, reached)
      invariant saveToDb ==> table.records == old(table.records)[id := Counted(old(table.records)[id], sentCount, failedCount)]
      invariant !saveToDb ==> table.records == old(table.records)
    {
      if "user_id" !in rs[reached] {
        return;
      }
      var outcome := send(reached);
      if outcome.Delivered? {
        sentCount := sentCount + 1;
        if saveToDb {
          table.IncrementSent(id);
        }
      } else {
        // both except branches: tally the error's type name and count a failure
        errorsByType := Bump(errorsByType, ErrorTypeName(outcome));
        failedCount := failedCount + 1;
        if saveToDb {
          table.IncrementFailed(id);
        }
      }
      reached := reached + 1;
    }
  }

  /** `schedule_broadcast`: insert a "scheduled" record with zero counters
      and return its id (the source returns it as a string). */
  method ScheduleBroadcast(table: BroadcastTable, messageText: string, scheduleTime: int,
                           targetFilter: Option<Query>, now: int) returns (id: nat)
    modifies table
    ensures id == |old(table.records)|
    ensures table.records == old(table.records) +
      [Broadcast(messageText, Stored(targetFilter), None, now, Some(scheduleTime), Scheduled, 0, 0, None, None)]
  {
    id := table.Insert(Broadcast(messageText, Stored(targetFilter), None, now, Some(scheduleTime),
                                 Scheduled, 0, 0, None, None));
  }

  // ---------------------------------------------------------------------
  // Properties of the send loop

  /** The sum of a tally's counts. */
  ghost function MapSum(m: map<string, nat>): nat
    decreases |m|
  {
    if m == map[] then 0
    else
      var k :| k in m;
      m[k] + MapSum(m - {k})
  }

  /** MapSum does not depend on which key it takes first. */
  lemma {:induction false} MapSumRemove(m: map<string, nat>, k: string)
    requires k in m
    ensures MapSum(m) == m[k] + MapSum(m - {k})
    decreases |m|
  {
    var j :| j in m && MapSum(m) == m[j] + MapSum(m - {j});
    if j != k {
      assert k in m - {j};
      MapSumRemove(m - {j}, k);
      assert j in m - {k};
      MapSumRemove(m - {k}, j);
      assert m - {j} - {k} == m - {k} - {j};
    }
  }

  lemma MapSumBump(m: map<string, nat>, name: string)
    ensures MapSum(Bump(m, name)) == MapSum(m) + 1
  {
    var b := Bump(m, name);
    MapSumRemove(b, name);
    if name in m {
      MapSumRemove(m, name);
      assert b - {name} == m - {name};
    } else {
      assert b - {name} == m;
    }
  }

  /** Each failure adds exactly one under its error kind, so the tally's
      counts add up to the failures. */
  lemma {:induction false} TallySumsToFailures(send: nat -> SendOutcome, k: nat)
    ensures MapSum(Tally(send, k)) == k - SentIn(send, k)
  {
    if k > 0 {
      TallySumsToFailures(send, k - 1);
      if !send(k - 1).Delivered? {
        MapSumBump(Tally(send, k - 1), ErrorTypeName(send(k - 1)));
      }
    }
  }

  /** A finished run attempted every recipient once: sent + failed == total ==
      the number of recipients, and the error tally adds up to the failures. */
  lemma FinishedRunAccounts(docs: seq<Doc>, targetFilter: Option<Query>, send: nat -> SendOutcome)
    ensures var r := BroadcastRun(docs, targetFilter, send, None);
      r.Finished? ==>
        && r.total == |Recipients(docs, targetFilter)|
        && r.sent + r.failed == r.total
        && MapSum(Tally(send, r.total)) == r.failed
  {
    TallySumsToFailures(send, |Recipients(docs, targetFilter)|);
  }

  /** With no filter (None or an empty dict) the broadcast goes to every
      user, whatever the status; with a filter, to exactly the users equal
      on every key. */
  lemma RecipientsAre(docs: seq<Doc>, targetFilter: Option<Query>, d: Doc)
    ensures (targetFilter.None? || targetFilter.value == map[]) ==> Recipients(docs, targetFilter) == docs
    ensures targetFilter.Some? ==> (d in Recipients(docs, targetFilter) <==> d in docs && Matches(d, targetFilter.value))
  {
    if targetFilter.Some? && |targetFilter.value| > 0 {
      SelectMembers(docs, targetFilter.value, d);
    }
  }

  /** The stored counters of a persisted record never exceed its total, and
      add up to it once it is "completed". */
  lemma PersistedCounters(docs: seq<Doc>, messageText: string, targetFilter: Option<Query>,
                          send: nat -> SendOutcome, now: int)
    ensures var b := PersistedRecord(docs, messageText, targetFilter, send, now);
      && b.totalUsers.Some?
      && b.sentCount + b.failedCount <= b.totalUsers.value
      && (b.status == Completed ==> b.sentCount + b.failedCount == b.totalUsers.value)
      && (b.status == Completed <==> BroadcastRun(docs, targetFilter, send, None).Finished?)
  {
  }
}
