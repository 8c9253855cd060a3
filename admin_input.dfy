/** What the admin dialogues (bot/handlers/admin_handlers.py) read from
    callback data and typed text, the filter they preview the audience with,
    and the two confirmation steps that start a broadcast. */
module AdminInput {
  import opened Text
  import opened Documents
  import opened Users
  import opened Broadcasts
  import opened Notifications

  const TargetSourcePrefix: string := "target_source_"
  const ScheduledTargetSourcePrefix: string := "schedule_target_source_"

  // ---------------------------------------------------------------------
  // Callback data

  /** The audience a target button stands for: `{"source": s}` after the
      prefix, and no filter (everybody) for anything else. */
  function ParseTargetWith(prefix: string, data: string): (r: Option<Query>)
    ensures r.Some? <==> |prefix| <= |data| && data[..|prefix|] == prefix
    ensures r.Some? ==> r.value == map["source" := Str(data[|prefix|..])]
  {
    if |prefix| <= |data| && data[..|prefix|] == prefix then Some(map["source" := Str(data[|prefix|..])])
    else None
  }

  /** `process_broadcast_target`: the 14-character prefix. */
  function ParseTarget(data: string): (r: Option<Query>)
    ensures r.Some? <==> |data| >= 14 && data[..14] == "target_source_"
    ensures r.Some? ==> r.value == map["source" := Str(data[14..])]
  {
    ParseTargetWith(TargetSourcePrefix, data)
  }

  /** `process_scheduled_broadcast_target`: the 23-character prefix. */
  function ParseScheduledTarget(data: string): (r: Option<Query>)
    ensures r.Some? <==> |data| >= 23 && data[..23] == "schedule_target_source_"
    ensures r.Some? ==> r.value == map["source" := Str(data[23..])]
  {
    ParseTargetWith(ScheduledTargetSourcePrefix, data)
  }

  /** A source button's data reads back as the filter for that source, in
      both dialogues; "target_all" reads as no filter. */
  lemma TargetRoundTrip(source: string)
    ensures ParseTarget(TargetSourcePrefix + source) == Some(map["source" := Str(source)])
    ensures ParseScheduledTarget(ScheduledTargetSourcePrefix + source) == Some(map["source" := Str(source)])
    ensures ParseTarget("target_all") == None
    ensures ParseScheduledTarget("schedule_target_all") == None
  {
    assert (TargetSourcePrefix + source)[..14] == TargetSourcePrefix;
    assert (TargetSourcePrefix + source)[14..] == source;
    assert (ScheduledTargetSourcePrefix + source)[..23] == ScheduledTargetSourcePrefix;
    assert (ScheduledTargetSourcePrefix + source)[23..] == source;
  }

  /** What a press on a navigation button asks for. */
  datatype PageRequest = IgnoreInfo | ShowPage(page: int) | Malformed

  /** The page in a navigation button's data: the label button is ignored,
      otherwise `int(data.split("_")[index])`; a missing field or a
      non-number raises (Malformed). */
  function ParsePageWith(infoData: string, index: nat, data: string): (r: PageRequest)
    ensures data == infoData <==> r.IgnoreInfo?
    ensures r.ShowPage? <==> data != infoData && index < |Split(data, '_')| && ParseInt(Split(data, '_')[index]).Some?
    ensures r.ShowPage? ==> ParseInt(Split(data, '_')[index]) == Some(r.page)
  {
    if data == infoData then IgnoreInfo
    else
      var pieces := Split(data, '_');
      if |pieces| <= index then Malformed
      else match ParseInt(pieces[index])
        case None => Malformed
        case Some(p) => ShowPage(p)
  }

  /** The navigation buttons' data: "target_page_" and
      "schedule_target_page_" followed by the page number, or by "info" for
      the label between them. */
  const PagePrefix: string := "target_page_"
  const ScheduledPagePrefix: string := "schedule_" + PagePrefix

  /** `process_target_pagination`: field 2 of "target_page_X". */
  function ParsePage(data: string): (r: PageRequest)
    ensures r.IgnoreInfo? <==> data == "target_page_info"
    ensures r.ShowPage? ==> 2 < |Split(data, '_')| && ParseInt(Split(data, '_')[2]) == Some(r.page)
  {
    ParsePageWith(PagePrefix + "info", 2, data)
  }

  /** `process_scheduled_target_pagination`: field 3 of "schedule_target_page_X". */
  function ParseScheduledPage(data: string): (r: PageRequest)
    ensures r.IgnoreInfo? <==> data == "schedule_target_page_info"
    ensures r.ShowPage? ==> 3 < |Split(data, '_')| && ParseInt(Split(data, '_')[3]) == Some(r.page)
  {
    ParsePageWith(ScheduledPagePrefix + "info", 3, data)
  }

  /** A number's text never reads as the "info" label. */
  lemma IntTextIsNotInfo(p: int, prefix: string)
    ensures prefix + IntToString(p) != prefix + "info"
  {
    var n := IntToString(p);
    NoSeparatorInNumber(p, 'i');
    assert "info"[0] == 'i';
    assert n != "info";
    assert (prefix + n)[|prefix|..] == n;
    assert (prefix + "info")[|prefix|..] == "info";
  }

  lemma TargetPageFields(n: string)
    requires '_' !in n
    ensures Split(PagePrefix + n, '_') == ["target", "page", n]
  {
    SplitNoSep(n, '_');
    SplitAfterField("page", n, '_');
    SplitAfterField("target", "page" + ['_'] + n, '_');
    assert PagePrefix == "target" + ['_'] + "page" + ['_'];
    assert PagePrefix + n == "target" + ['_'] + ("page" + ['_'] + n);
  }

  lemma ScheduledPageFields(n: string)
    requires '_' !in n
    ensures Split(ScheduledPagePrefix + n, '_') == ["schedule", "target", "page", n]
  {
    TargetPageFields(n);
    SplitAfterField("schedule", PagePrefix + n, '_');
    assert "schedule_" == "schedule" + ['_'];
    assert ScheduledPagePrefix + n == "schedule" + ['_'] + (PagePrefix + n);
  }

  /** A page field that parses gives that page. */
  lemma PageField(infoData: string, index: nat, data: string, p: int)
    requires data != infoData
    requires index < |Split(data, '_')| && ParseInt(Split(data, '_')[index]) == Some(p)
    ensures ParsePageWith(infoData, index, data) == ShowPage(p)
  {
  }

  /** The data of the "back"/"forward" buttons reads back as the page it was
      made from. */
  lemma PageRoundTrip(p: int)
    ensures ParsePage(PagePrefix + IntToString(p)) == ShowPage(p)
  {
    var n := IntToString(p);
    NoSeparatorInNumber(p, '_');
    IntRoundTrip(p);
    IntTextIsNotInfo(p, PagePrefix);
    TargetPageFields(n);
    PageField(PagePrefix + "info", 2, PagePrefix + n, p);
  }

  /** The same in the scheduling dialogue. */
  lemma ScheduledPageRoundTrip(p: int)
    ensures ParseScheduledPage(ScheduledPagePrefix + IntToString(p)) == ShowPage(p)
  {
    var n := IntToString(p);
    NoSeparatorInNumber(p, '_');
    IntRoundTrip(p);
    IntTextIsNotInfo(p, ScheduledPagePrefix);
    ScheduledPageFields(n);
    PageField(ScheduledPagePrefix + "info", 3, ScheduledPagePrefix + n, p);
  }

  // ---------------------------------------------------------------------
  // The audience preview

  /** `combined_filter = target_filter.copy(); combined_filter["status"] = "active"`.
      The target filter itself is a value and stays as it was. */
  function CombinedFilter(targetFilter: Query): (q: Query)
    ensures q.Keys == targetFilter.Keys + {"status"}
    ensures q["status"] == Str("active")
    ensures forall k :: k in targetFilter && k != "status" ==> q[k] == targetFilter[k]
  {
    targetFilter["status" := Str("active")]
  }

  /** The users the confirmation message counts: the active users matching
      a truthy filter, or every active user. */
  function PreviewAudience(store: UserStore, targetFilter: Option<Query>): seq<Doc>
    reads store
  {
    if targetFilter.Some? && |targetFilter.value| > 0 then store.GetUsersByFilter(CombinedFilter(targetFilter.value), None, 0)
    else store.GetAllUsers(Some("active"), None, 0)
  }

  /** The preview counts exactly the active users among the recipients of
      the send (for a filter without a "status" key, as every target button
      produces), while the send itself also reaches the users of every other
      status. */
  lemma PreviewIsActiveRecipients(store: UserStore, targetFilter: Option<Query>, d: Doc)
    requires targetFilter.Some? ==> "status" !in targetFilter.value
    ensures d in PreviewAudience(store, targetFilter) <==>
              d in Recipients(store.docs, targetFilter) && Get(d, "status") == Str("active")
  {
    RecipientsAre(store.docs, targetFilter, d);
    if targetFilter.Some? && |targetFilter.value| > 0 {
      var q := targetFilter.value;
      ByFilterIsExact(store, CombinedFilter(q), d);
      MatchesExtend(d, q, "status", Str("active"));
      assert q - {"status"} == q;
      assert CombinedFilter(q) == q["status" := Str("active")];
    } else {
      SelectMembers(store.docs, StatusQuery(Some("active")), d);
      if targetFilter.None? {
        assert Recipients(store.docs, targetFilter) == store.docs;
      } else {
        assert targetFilter.value == map[];
      }
    }
  }

  // ---------------------------------------------------------------------
  // Typed answers

  /** A send (or a schedule) is confirmed iff the lowercased answer is one of
      "да", "yes", "y", "д". */
  predicate IsConfirmed(text: string) {
    Lower(text) in {"да", "yes", "y", "д"}
  }

  /** The invite link's description: None iff the lowercased answer is one
      of "нет", "no", "-", "n"; otherwise the answer as typed. */
  function Description(text: string): (r: Option<string>)
    ensures r.None? <==> Lower(text) in {"нет", "no", "-", "n"}
    ensures r.Some? ==> r.value == text
  {
    if Lower(text) in {"нет", "no", "-", "n"} then None else Some(text)
  }

  /** Both classifications ignore case: lowering the answer first changes
      nothing. */
  lemma AnswersIgnoreCase(text: string)
    ensures IsConfirmed(Lower(text)) == IsConfirmed(text)
    ensures Description(Lower(text)).None? == Description(text).None?
  {
    LowerIdempotent(text);
  }

  /** No answer both confirms and means "no": a confirming answer, kept as a
      description, is kept as typed. Every confirming answer has one to three
      letters. */
  lemma ConfirmingAnswers(text: string)
    ensures IsConfirmed(text) ==> Description(text) == Some(text)
    ensures IsConfirmed(text) ==> 1 <= |text| <= 3
  {
    if IsConfirmed(text) {
      assert |Lower(text)| == |text|;
    }
  }

  // ---------------------------------------------------------------------
  // The confirmation steps

  /** What a confirmation step ends in. */
  datatype Confirmation =
    | Cancelled                        // "Рассылка отменена." and the dialogue ends
    | CallFailed(message: string)      // an exception escapes the handler
    | Sent(result: SendResult)         // the broadcast ran (or raised inside the send)
    | ScheduledAs(id: nat)             // the scheduled record's id

  const SendMediaError: string := "send_broadcast() got an unexpected keyword argument 'media'"
  const ScheduleMediaError: string := "schedule_broadcast() got an unexpected keyword argument 'media'"

  /** `process_broadcast_confirmation` as written: on "yes" it calls
      `send_broadcast(..., media=..., media_type=...)`, keywords the function
      does not take, so the call fails before anything is sent to the
      recipients or stored; an answer that does not confirm cancels. Either
      way the broadcasts collection is left as it was. */
  method ConfirmBroadcastAsWritten(users: UserStore, table: BroadcastTable, text: string, messageText: string,
                                   targetFilter: Option<Query>, now: int, send: nat -> SendOutcome,
                                   fault: Option<string>) returns (r: Confirmation)
    modifies table
    ensures !IsConfirmed(text) ==> r == Cancelled
    ensures IsConfirmed(text) ==> r == CallFailed(SendMediaError)
    ensures table.records == old(table.records)
  {
    if IsConfirmed(text) {
      r := CallFailed(SendMediaError);
    } else {
      r := Cancelled;
    }
  }

  /** `process_schedule_confirmation` as written: the same for
      `schedule_broadcast`; no "scheduled" record is ever inserted. */
  method ConfirmScheduleAsWritten(table: BroadcastTable, text: string, messageText: string, scheduleTime: int,
                                  targetFilter: Option<Query>, now: int) returns (r: Confirmation)
    modifies table
    ensures !IsConfirmed(text) ==> r == Cancelled
    ensures IsConfirmed(text) ==> r == CallFailed(ScheduleMediaError)
    ensures table.records == old(table.records)
  {
    if IsConfirmed(text) {
      r := CallFailed(ScheduleMediaError);
    } else {
      r := Cancelled;
    }
  }

  /** The answers "да" and "yes" confirm, so each reaches the failing call. */
  lemma FailingAnswers()
    ensures IsConfirmed("да") && IsConfirmed("yes")
  {
    assert Lower("да") == "да";
    assert Lower("yes") == "yes";
  }

  /** The confirmation step as evidently intended: on "yes", send the text to
      the chosen audience (persisting the record); otherwise change nothing. */
  method ConfirmBroadcast(users: UserStore, table: BroadcastTable, text: string, messageText: string,
                          targetFilter: Option<Query>, now: int, send: nat -> SendOutcome,
                          fault: Option<string>) returns (r: Confirmation)
    modifies table
    ensures !IsConfirmed(text) ==> r == Cancelled && table.records == old(table.records)
    ensures IsConfirmed(text) ==> r == Sent(BroadcastRun(users.docs, targetFilter, send, fault))
    ensures IsConfirmed(text) && fault.Some? ==> table.records == old(table.records)
    ensures IsConfirmed(text) && fault.None? ==>
      table.records == old(table.records) + [PersistedRecord(users.docs, messageText, targetFilter, send, now)]
  {
    if !IsConfirmed(text) {
      return Cancelled;
    }
    var result, _ := SendBroadcast(users, table, messageText, targetFilter, true, now, send, fault);
    r := Sent(result);
  }

  /** The scheduling confirmation as evidently intended: on "yes", store one
      "scheduled" record and answer its id. */
  method ConfirmSchedule(table: BroadcastTable, text: string, messageText: string, scheduleTime: int,
                         targetFilter: Option<Query>, now: int) returns (r: Confirmation)
    modifies table
    ensures !IsConfirmed(text) ==> r == Cancelled && table.records == old(table.records)
    ensures IsConfirmed(text) ==> r == ScheduledAs(|old(table.records)|)
    ensures IsConfirmed(text) ==>
      table.records == old(table.records) + [Broadcast(messageText, Stored(targetFilter), None, now,
                                                       Some(scheduleTime), Scheduled, 0, 0, None, None)]
  {
    if !IsConfirmed(text) {
      return Cancelled;
    }
    var id := ScheduleBroadcast(table, messageText, scheduleTime, targetFilter, now);
    r := ScheduledAs(id);
  }
}
