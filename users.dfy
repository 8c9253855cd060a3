/** The users collection (bot/database/users.py): one document per Telegram
    user, keyed by its `user_id` field. */
module Users {
  import opened Text
  import opened Documents

  function IdQuery(userId: int): Query {
    map["user_id" := Int(userId)]
  }

  /** The query `get_all_users` builds: by status only when one is given. */
  function StatusQuery(status: Option<string>): (q: Query)
    ensures Given(status) ==> q == map["status" := Str(status.value)]
    ensures !Given(status) ==> q == map[]
  {
    var q := map[];
    if Given(status) then q["status" := Str(status.value)] else q
  }

  /** No two documents carry the same `user_id`. */
  ghost predicate UniqueIds(docs: seq<Doc>) {
    forall i, j :: 0 <= i < j < |docs| ==> Get(docs[i], "user_id") != Get(docs[j], "user_id")
  }

  /** The `$set` that `add_user` sends for a user who already exists: the
      names and `updated_at` always; status and `activated_at` only when the
      user becomes active; the source only when it had none. */
  function ExistingUserUpdate(existing: Doc, username: Value, firstName: Value, lastName: Value,
                              source: Value, status: string, now: int): (s: Doc)
    ensures s.Keys <= {"username", "first_name", "last_name", "updated_at", "status", "activated_at", "source"}
    ensures "username" in s && s["username"] == username
    ensures "first_name" in s && s["first_name"] == firstName
    ensures "last_name" in s && s["last_name"] == lastName
    ensures "updated_at" in s && s["updated_at"] == Time(now)
    ensures ("status" in s) <==> Get(existing, "status") != Str("active") && status == "active"
    ensures ("activated_at" in s) <==> ("status" in s)
    ensures "status" in s ==> s["status"] == Str("active") && s["activated_at"] == Time(now)
    ensures ("source" in s) <==> !Truthy(Get(existing, "source")) && Truthy(source)
    ensures "source" in s ==> s["source"] == source
  {
    var s := map["username" := username, "first_name" := firstName, "last_name" := lastName,
                 "updated_at" := Time(now)];
    var s := if Get(existing, "status") != Str("active") && status == "active"
             then s["status" := Str(status)]["activated_at" := Time(now)]
             else s;
    if !Truthy(Get(existing, "source")) && Truthy(source) then s["source" := source] else s
  }

  /** The merge rules of `add_user` on an existing user: the names and
      `updated_at` are overwritten; the status is never downgraded and only
      ever changes to "active", stamping `activated_at`; an existing source
      is never overwritten and an empty one is filled in; `user_id` stays. */
  lemma UpsertRules(existing: Doc, username: Value, firstName: Value, lastName: Value,
                    source: Value, status: string, now: int)
    ensures var m := SetFields(existing, ExistingUserUpdate(existing, username, firstName, lastName, source, status, now));
      && Get(m, "username") == username && Get(m, "first_name") == firstName
      && Get(m, "last_name") == lastName && Get(m, "updated_at") == Time(now)
      && Get(m, "user_id") == Get(existing, "user_id")
      && (Get(existing, "status") == Str("active") ==> Get(m, "status") == Str("active"))
      && (Get(m, "status") != Get(existing, "status") ==>
            status == "active" && Get(m, "status") == Str("active") && Get(m, "activated_at") == Time(now))
      && (Get(existing, "status") != Str("active") && status == "active" ==> Get(m, "status") == Str("active"))
      && (Truthy(Get(existing, "source")) ==> Get(m, "source") == Get(existing, "source"))
      && (!Truthy(Get(existing, "source")) && Truthy(source) ==> Get(m, "source") == source)
      && (Get(m, "source") != Get(existing, "source") ==> Truthy(source))
  {
  }

  /** The document `add_user` inserts for a user it has not seen. */
  function NewUserDoc(userId: int, username: Value, firstName: Value, lastName: Value,
                      source: Value, status: string, now: int): (d: Doc)
    ensures Matches(d, IdQuery(userId))
    ensures Get(d, "status") == Str(status) && Get(d, "source") == source
    ensures Get(d, "username") == username && Get(d, "first_name") == firstName && Get(d, "last_name") == lastName
    ensures Get(d, "created_at") == Time(now) && Get(d, "updated_at") == Time(now)
    ensures ("activated_at" in d) <==> status == "active"
    ensures "activated_at" in d ==> d["activated_at"] == Time(now)
  {
    var d := map["user_id" := Int(userId), "username" := username, "first_name" := firstName,
                 "last_name" := lastName, "source" := source, "status" := Str(status),
                 "created_at" := Time(now), "updated_at" := Time(now)];
    if status == "active" then d["activated_at" := Time(now)] else d
  }

  /** `update_user` adds its own stamps to the caller's dict before `$set`. */
  function StampUpdate(data: Doc, now: int): (s: Doc)
    ensures Get(s, "updated_at") == Time(now)
    ensures Get(data, "status") == Str("active") ==> Get(s, "activated_at") == Time(now)
    ensures ("activated_at" in s) <==> ("activated_at" in data || Get(data, "status") == Str("active"))
    ensures forall k :: k != "updated_at" && k != "activated_at" ==> Get(s, k) == Get(data, k)
    ensures s.Keys == data.Keys + {"updated_at"} + (if Get(data, "status") == Str("active") then {"activated_at"} else {})
  {
    var s := data["updated_at" := Time(now)];
    if Get(s, "status") == Str("active") then s["activated_at" := Time(now)] else s
  }

  /** The `$set` of `update_user_status`. */
  function StatusUpdate(status: string, reason: Option<string>, now: int): (s: Doc)
    ensures Get(s, "status") == Str(status) && Get(s, "updated_at") == Time(now)
    ensures ("status_reason" in s) <==> Given(reason)
    ensures Given(reason) ==> s["status_reason"] == Str(reason.value)
    ensures ("activated_at" in s) <==> status == "active"
    ensures ("deactivated_at" in s) <==> status == "inactive"
    ensures "activated_at" in s ==> s["activated_at"] == Time(now)
    ensures "deactivated_at" in s ==> s["deactivated_at"] == Time(now)
    ensures s.Keys <= {"status", "updated_at", "status_reason", "activated_at", "deactivated_at"}
  {
    var s := map["status" := Str(status), "updated_at" := Time(now)];
    var s := if Given(reason) then s["status_reason" := Str(reason.value)] else s;
    var s := if status == "active" then s["activated_at" := Time(now)] else s;
    if status == "inactive" then s["deactivated_at" := Time(now)] else s
  }

  /** What `add_user` does to the users collection, as a value. */
  function AddUserEffect(docs: seq<Doc>, userId: int, username: Value, firstName: Value, lastName: Value,
                         source: Value, status: string, now: int): (r: seq<Doc>)
    ensures FindFirst(r, IdQuery(userId)).Some?
  {
    match FindFirst(docs, IdQuery(userId))
    case Some(i) =>
      var updated := SetFields(docs[i], ExistingUserUpdate(docs[i], username, firstName, lastName, source, status, now));
      assert Matches(updated, IdQuery(userId));
      assert docs[i := updated][i] == updated;
      docs[i := updated]
    case None =>
      var d := NewUserDoc(userId, username, firstName, lastName, source, status, now);
      assert (docs + [d])[|docs|] == d;
      docs + [d]
  }

  class UserStore {
    /** The collection's documents in natural order. */
    var docs: seq<Doc>

    constructor (initial: seq<Doc>)
      ensures docs == initial
    {
      docs := initial;
    }

    /** `get_user`: the first document with that `user_id`, or None. */
    function GetUser(userId: int): (r: Option<Doc>)
      reads this
      ensures r.Some? <==> exists i :: 0 <= i < |docs| && Matches(docs[i], IdQuery(userId))
      ensures r.Some? ==> r.value in docs && Get(r.value, "user_id") == Int(userId)
    {
      match FindFirst(docs, IdQuery(userId))
      case None => None
      case Some(i) => assert "user_id" in IdQuery(userId); Some(docs[i])
    }

    /** `add_user`: update the user if it exists, otherwise insert it. */
    method AddUser(userId: int, username: Value, firstName: Value, lastName: Value,
                   source: Value, status: string, now: int) returns (user: Doc)
      modifies this
      ensures docs == AddUserEffect(old(docs), userId, username, firstName, lastName, source, status, now)
      ensures GetUser(userId) == Some(user)
      ensures UniqueIds(old(docs)) ==> UniqueIds(docs)
    {
      AddUserKeepsUniqueIds(docs, userId, username, firstName, lastName, source, status, now);
      var found := FindFirst(docs, IdQuery(userId));
      if found.Some? {
        var i := found.value;
        var update := ExistingUserUpdate(docs[i], username, firstName, lastName, source, status, now);
        docs := docs[i := SetFields(docs[i], update)];
      } else {
        docs := docs + [NewUserDoc(userId, username, firstName, lastName, source, status, now)];
      }
      assert docs == AddUserEffect(old(docs), userId, username, firstName, lastName, source, status, now);
      user := docs[FindFirst(docs, IdQuery(userId)).value];
    }

    /** `update_user`: stamp the caller's dict and `$set` it on the user.
        Returns whether a document changed, and the stamped dict. */
    method UpdateUser(userId: int, data: Doc, now: int) returns (modified: bool, stamped: Doc)
      modifies this
      ensures stamped == StampUpdate(data, now)
      ensures docs == UpdateFirst(old(docs), IdQuery(userId), stamped)
      ensures modified <==> docs != old(docs)
    {
      stamped := StampUpdate(data, now);
      var before := docs;
      docs := UpdateFirst(docs, IdQuery(userId), stamped);
      modified := docs != before;
    }

    /** `update_user_status`. */
    method UpdateUserStatus(userId: int, status: string, reason: Option<string>, now: int) returns (modified: bool)
      modifies this
      ensures docs == UpdateFirst(old(docs), IdQuery(userId), StatusUpdate(status, reason, now))
      ensures modified <==> docs != old(docs)
    {
      var before := docs;
      docs := UpdateFirst(docs, IdQuery(userId), StatusUpdate(status, reason, now));
      modified := docs != before;
    }

    /** `get_all_users(status, limit, skip)`. */
    function GetAllUsers(status: Option<string>, limit: Option<nat>, skip: nat): (r: seq<Doc>)
      reads this
      ensures forall d :: d in r ==> d in docs && (Given(status) ==> Get(d, "status") == Str(status.value))
      ensures !Unlimited(limit) ==> |r| <= limit.value
      ensures |r| <= |docs|
    {
      PageSelectMatches(docs, StatusQuery(status), skip, limit);
      Page(Select(docs, StatusQuery(status)), skip, limit)
    }

    /** `get_users_by_filter(filter_query, limit, skip)`. */
    function GetUsersByFilter(q: Query, limit: Option<nat>, skip: nat): (r: seq<Doc>)
      reads this
      ensures forall d :: d in r ==> d in docs && Matches(d, q)
      ensures !Unlimited(limit) ==> |r| <= limit.value
    {
      PageSelectMatches(docs, q, skip, limit);
      Page(Select(docs, q), skip, limit)
    }
  }

  /** Upserting a user keeps the `user_id`s distinct. */
  lemma AddUserKeepsUniqueIds(docs: seq<Doc>, userId: int, username: Value, firstName: Value, lastName: Value,
                              source: Value, status: string, now: int)
    ensures UniqueIds(docs) ==> UniqueIds(AddUserEffect(docs, userId, username, firstName, lastName, source, status, now))
  {
    if !UniqueIds(docs) {
      return;
    }
    var r := AddUserEffect(docs, userId, username, firstName, lastName, source, status, now);
    match FindFirst(docs, IdQuery(userId)) {
      case Some(i) =>
        UpsertRules(docs[i], username, firstName, lastName, source, status, now);
        assert forall j :: 0 <= j < |docs| ==> Get(r[j], "user_id") == Get(docs[j], "user_id");
      case None =>
        forall j | 0 <= j < |docs| ensures Get(docs[j], "user_id") != Int(userId) {
          assert !Matches(docs[j], IdQuery(userId));
        }
        assert Get(r[|docs|], "user_id") == Int(userId);
    }
  }

  /** If the first `n` documents do not match and the n-th does, it is the
      first match. */
  lemma FirstAfter(docs: seq<Doc>, q: Query, n: nat)
    requires n < |docs| && Matches(docs[n], q)
    requires forall j :: 0 <= j < n ==> !Matches(docs[j], q)
    ensures FindFirst(docs, q) == Some(n)
  {
    var f := FindFirst(docs, q);
    assert f.Some?;
    assert !(f.value < n);
    assert !(f.value > n);
  }

  /** Unlimited, unskipped, `get_users_by_filter` returns exactly the users
      equal on every filter key, in store order. */
  lemma ByFilterIsExact(store: UserStore, q: Query, d: Doc)
    ensures store.GetUsersByFilter(q, None, 0) == Select(store.docs, q)
    ensures d in store.GetUsersByFilter(q, None, 0) <==> d in store.docs && Matches(d, q)
  {
    SelectMembers(store.docs, q, d);
  }

  /** Unfiltered, unlimited `get_all_users()` returns every user, whatever its status. */
  lemma AllUsersUnfiltered(store: UserStore)
    ensures store.GetAllUsers(None, None, 0) == store.docs
  {
    SelectAll(store.docs);
  }
}
