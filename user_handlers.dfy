/** The commands of ordinary users (bot/handlers/user_handlers.py): every
    one stamps the user's last interaction; /start also registers the user
    and approves a waiting join request. Replies are named, their texts are
    not modelled. */
module UserHandlers {
  import opened Text
  import opened Documents
  import opened Users
  import opened JoinRequests

  /** What the bot answers. */
  datatype Reply =
    | Approved(firstName: Value)     // "Спасибо, <имя>! Ваш запрос ... одобрен."
    | JoinHint(firstName: Value)     // /start join without an approved request
    | Greeting(firstName: Value)     // the standard /start greeting
    | StartHint                      // "отправьте команду /start"
    | HelpText
    | AboutText
    | Silent                         // no answer

  /** The dict every handler passes to `update_user`. */
  function InteractionUpdate(now: int): Doc {
    map["last_interaction" := Time(now)]
  }

  /** The stamp a handler leaves on the users collection. */
  function Touch(docs: seq<Doc>, userId: int, now: int): seq<Doc> {
    UpdateFirst(docs, IdQuery(userId), StampUpdate(InteractionUpdate(now), now))
  }

  /** The users collection after /start: registered as "pending" (an
      existing user keeps status and source), stamped, and approved when the
      join request was. */
  function StartEffect(docs: seq<Doc>, userId: int, username: Value, firstName: Value, lastName: Value,
                       approved: bool, now: int): seq<Doc>
  {
    var touched := Touch(AddUserEffect(docs, userId, username, firstName, lastName, Null, "pending", now), userId, now);
    if approved then UpdateFirst(touched, IdQuery(userId), StampUpdate(ApprovalUpdate(now), now)) else touched
  }

  /** An update that does not set `user_id` leaves the user where it was,
      and it is that user who gets the fields. */
  lemma UpdateKeepsUser(docs: seq<Doc>, userId: int, s: Doc)
    requires "user_id" !in s
    ensures FindFirst(UpdateFirst(docs, IdQuery(userId), s), IdQuery(userId)) == FindFirst(docs, IdQuery(userId))
    ensures FindFirst(docs, IdQuery(userId)).Some? ==>
      var i := FindFirst(docs, IdQuery(userId)).value;
      UpdateFirst(docs, IdQuery(userId), s)[i] == SetFields(docs[i], s)
  {
    var q := IdQuery(userId);
    var r := UpdateFirst(docs, q, s);
    match FindFirst(docs, q) {
      case None =>
      case Some(i) =>
        assert Get(r[i], "user_id") == Get(docs[i], "user_id");
        assert Matches(r[i], q);
        FirstAfter(r, q, i);
    }
  }

  /** The interaction stamp changes nothing but `last_interaction` and
      `updated_at`, and only on the user's own document. */
  lemma TouchOnlyStamps(docs: seq<Doc>, userId: int, now: int)
    ensures |Touch(docs, userId, now)| == |docs|
    ensures FindFirst(Touch(docs, userId, now), IdQuery(userId)) == FindFirst(docs, IdQuery(userId))
    ensures forall j, k :: 0 <= j < |docs| && k != "last_interaction" && k != "updated_at" ==>
              Get(Touch(docs, userId, now)[j], k) == Get(docs[j], k)
    ensures FindFirst(docs, IdQuery(userId)).Some? ==>
              Get(Touch(docs, userId, now)[FindFirst(docs, IdQuery(userId)).value], "last_interaction") == Time(now)
  {
    var s := StampUpdate(InteractionUpdate(now), now);
    assert s.Keys == {"last_interaction", "updated_at"};
    UpdateKeepsUser(docs, userId, s);
  }

  /** `add_user(..., status="pending")` leaves the user present: a new one
      "pending", an existing one with the status it had. */
  lemma PendingRegistration(docs: seq<Doc>, userId: int, username: Value, firstName: Value, lastName: Value, now: int)
    ensures var added := AddUserEffect(docs, userId, username, firstName, lastName, Null, "pending", now);
      && FindFirst(added, IdQuery(userId)).Some?
      && var d := added[FindFirst(added, IdQuery(userId)).value];
      && (FindFirst(docs, IdQuery(userId)).None? ==> Get(d, "status") == Str("pending"))
      && (FindFirst(docs, IdQuery(userId)).Some? ==>
            Get(d, "status") == Get(docs[FindFirst(docs, IdQuery(userId)).value], "status"))
  {
    var q := IdQuery(userId);
    var added := AddUserEffect(docs, userId, username, firstName, lastName, Null, "pending", now);
    match FindFirst(docs, q) {
      case Some(j) =>
        var upd := ExistingUserUpdate(docs[j], username, firstName, lastName, Null, "pending", now);
        assert added == UpdateFirst(docs, q, upd);
        UpdateKeepsUser(docs, userId, upd);
      case None =>
        var d := NewUserDoc(userId, username, firstName, lastName, Null, "pending", now);
        assert added == docs + [d];
        assert forall j :: 0 <= j < |docs| ==> added[j] == docs[j];
        FirstAfter(added, q, |docs|);
    }
  }

  /** After /start the user exists and was stamped; an approval leaves it
      active, otherwise a new user is "pending" and an existing one keeps
      its status. */
  lemma StartStatus(docs: seq<Doc>, userId: int, username: Value, firstName: Value, lastName: Value,
                    approved: bool, now: int)
    ensures var r := StartEffect(docs, userId, username, firstName, lastName, approved, now);
      && FindFirst(r, IdQuery(userId)).Some?
      && var d := r[FindFirst(r, IdQuery(userId)).value];
      && Get(d, "last_interaction") == Time(now)
      && (approved ==> Get(d, "status") == Str("active") && Get(d, "activated_at") == Time(now))
      && (!approved && FindFirst(docs, IdQuery(userId)).None? ==> Get(d, "status") == Str("pending"))
      && (!approved && FindFirst(docs, IdQuery(userId)).Some? ==>
            Get(d, "status") == Get(docs[FindFirst(docs, IdQuery(userId)).value], "status"))
  {
    var added := AddUserEffect(docs, userId, username, firstName, lastName, Null, "pending", now);
    PendingRegistration(docs, userId, username, firstName, lastName, now);
    var touched := Touch(added, userId, now);
    TouchOnlyStamps(added, userId, now);
    ApprovalActivates(now);
    UpdateKeepsUser(touched, userId, StampUpdate(ApprovalUpdate(now), now));
  }

  /** `start_cmd`. `approveFails` says whether Telegram's `approve()` of a
      waiting request raises. */
  method StartCmd(ledger: PendingApprovals, users: UserStore, userId: UserId, username: Value,
                  firstName: Value, lastName: Value, args: string, approveFails: bool, now: int)
    returns (reply: Reply)
    modifies ledger, users
    ensures reply.Approved? <==> userId in old(ledger.entries) && !approveFails
    ensures reply.Approved? ==> reply == Approved(firstName) && ledger.entries == old(ledger.entries) - {userId}
    ensures !reply.Approved? ==> ledger.entries == old(ledger.entries)
    ensures !reply.Approved? && args == "join" ==> reply == JoinHint(firstName)
    ensures !reply.Approved? && args != "join" ==> reply == Greeting(firstName)
    ensures users.docs == StartEffect(old(users.docs), userId, username, firstName, lastName, reply.Approved?, now)
  {
    var _ := users.AddUser(userId, username, firstName, lastName, Null, "pending", now);
    ghost var added := users.docs;
    var _, _ := users.UpdateUser(userId, InteractionUpdate(now), now);
    assert users.docs == Touch(added, userId, now);
    if userId in ledger.entries {
      TouchOnlyStamps(added, userId, now);
      var approved := ledger.ApproveJoinRequest(users, userId, approveFails, now);
      if approved {
        return Approved(firstName);
      }
    }
    if args == "join" {
      return JoinHint(firstName);
    }
    return Greeting(firstName);
  }

  /** `help_cmd`: stamp, then the help text. */
  method HelpCmd(users: UserStore, userId: UserId, now: int) returns (reply: Reply)
    modifies users
    ensures reply == HelpText
    ensures users.docs == Touch(old(users.docs), userId, now)
  {
    var _, _ := users.UpdateUser(userId, InteractionUpdate(now), now);
    reply := HelpText;
  }

  /** `about_cmd`: stamp, then the channel description. */
  method AboutCmd(users: UserStore, userId: UserId, now: int) returns (reply: Reply)
    modifies users
    ensures reply == AboutText
    ensures users.docs == Touch(old(users.docs), userId, now)
  {
    var _, _ := users.UpdateUser(userId, InteractionUpdate(now), now);
    reply := AboutText;
  }

  /** `any_message_handler`: stamp; answer only a user whose join request is
      waiting, pointing them to /start. The ledger is left as it is. */
  method AnyMessage(ledger: PendingApprovals, users: UserStore, userId: UserId, now: int) returns (reply: Reply)
    modifies users
    ensures reply != Silent <==> userId in ledger.entries
    ensures reply != Silent ==> reply == StartHint
    ensures users.docs == Touch(old(users.docs), userId, now)
  {
    var _, _ := users.UpdateUser(userId, InteractionUpdate(now), now);
    reply := if userId in ledger.entries then StartHint else Silent;
  }
}
