/** The audience picker of the broadcast dialogue
    (`show_target_selection` in bot/handlers/admin_handlers.py): active users
    tallied by acquisition source, sources ordered by size, five to a page. */
module AdminTargets {
  import opened Text
  import opened Documents

  /** The label of users whose document has no `source` field. */
  const UnknownSource: string := "Неизвестно"

  const SourcesPerPage: nat := 5

  /** `user.get("source", "Неизвестно")`: a missing field is "Неизвестно",
      a present None stays None. */
  function SourceKey(u: Doc): Value {
    if "source" in u then u["source"] else Str(UnknownSource)
  }

  /** The number of users tallied under `k`. */
  function CountKey(users: seq<Doc>, k: Value): nat {
    if users == [] then 0
    else CountKey(users[..|users| - 1], k) + (if SourceKey(users[|users| - 1]) == k then 1 else 0)
  }

  /** A tally: (source, count) pairs in first-seen order, as the dict keeps them. */
  type Tally = seq<(Value, nat)>

  predicate HasKey(t: Tally, k: Value) {
    exists j :: 0 <= j < |t| && t[j].0 == k
  }

  predicate DistinctKeys(t: Tally) {
    forall i, j :: 0 <= i < j < |t| ==> t[i].0 != t[j].0
  }

  function TallySum(t: Tally): nat {
    if t == [] then 0 else TallySum(t[..|t| - 1]) + t[|t| - 1].1
  }

  /** The dict lookup `source in sources`, as the entry's position. */
  function KeyIndex(t: Tally, k: Value): (r: Option<nat>)
    ensures r.Some? ==> r.value < |t| && t[r.value].0 == k
    ensures r.None? ==> !HasKey(t, k)
  {
    if t == [] then None
    else if t[|t| - 1].0 == k then Some(|t| - 1)
    else
      var r := KeyIndex(t[..|t| - 1], k);
      assert forall j :: 0 <= j < |t| - 1 ==> t[..|t| - 1][j] == t[j];
      r
  }

  /** Bumping one entry raises the sum by one. */
  lemma {:induction false} TallySumBump(t: Tally, j: nat)
    requires j < |t|
    ensures TallySum(t[j := (t[j].0, t[j].1 + 1)]) == TallySum(t) + 1
  {
    var u := t[j := (t[j].0, t[j].1 + 1)];
    if j < |t| - 1 {
      assert u[..|u| - 1] == t[..|t| - 1][j := (t[j].0, t[j].1 + 1)];
      TallySumBump(t[..|t| - 1], j);
    } else {
      assert u[..|u| - 1] == t[..|t| - 1];
    }
  }

  /** What a tally of `users` must be: one entry per distinct source key,
      each holding that key's count, adding up to the number of users. */
  predicate IsTallyOf(t: Tally, users: seq<Doc>) {
    && DistinctKeys(t)
    && (forall j :: 0 <= j < |t| ==> t[j].1 == CountKey(users, t[j].0) && t[j].1 > 0)
    && (forall l :: 0 <= l < |users| ==> HasKey(t, SourceKey(users[l])))
    && TallySum(t) == |users|
  }

  /** The tally loop over the active users: each user adds one under its
      source key, a key first seen gets a new entry (at 0) at the end. */
  method SourceTally(activeUsers: seq<Doc>) returns (sources: Tally)
    ensures IsTallyOf(sources, activeUsers)
  {
    sources := [];
    for i := 0 to |activeUsers|
      invariant IsTallyOf(sources, activeUsers[..i])
    {
      ghost var before := sources;
      sources := CountSource(sources, SourceKey(activeUsers[i]));
      TallyNext(before, activeUsers, i);
    }
    assert activeUsers[..|activeUsers|] == activeUsers;
  }

  /** The loop body: a key first seen gets an entry at 0 at the end, then
      its entry goes up by one. */
  method CountSource(sources: Tally, source: Value) returns (r: Tally)
    ensures r == AddToTally(sources, source)
  {
    r := sources;
    var found := KeyIndex(r, source);
    if found.None? {
      r := r + [(source, 0)];
      found := Some(|r| - 1);
    }
    var j := found.value;
    r := r[j := (source, r[j].1 + 1)];
  }

  /** One user's turn, as a value. */
  function AddToTally(t: Tally, k: Value): Tally {
    match KeyIndex(t, k)
    case Some(j) => t[j := (k, t[j].1 + 1)]
    case None => (t + [(k, 0)])[|t| := (k, 1)]
  }

  /** The loop's step, stated on prefixes of the user list. */
  lemma TallyNext(t: Tally, users: seq<Doc>, i: nat)
    requires i < |users| && IsTallyOf(t, users[..i])
    ensures IsTallyOf(AddToTally(t, SourceKey(users[i])), users[..i + 1])
  {
    TallyStep(t, users[..i], users[i]);
    assert users[..i] + [users[i]] == users[..i + 1];
  }

  /** One more user keeps the tally a tally. */
  lemma TallyStep(t: Tally, users: seq<Doc>, u: Doc)
    requires IsTallyOf(t, users)
    ensures IsTallyOf(AddToTally(t, SourceKey(u)), users + [u])
  {
    var k := SourceKey(u);
    var users' := users + [u];
    assert users'[..|users|] == users;
    match KeyIndex(t, k) {
      case Some(j) =>
        TallyBumped(t, users, u, j);
      case None =>
        TallyExtended(t, users, u);
    }
  }

  /** A seen key: its entry goes up by one. */
  lemma TallyBumped(t: Tally, users: seq<Doc>, u: Doc, j: nat)
    requires IsTallyOf(t, users)
    requires j < |t| && t[j].0 == SourceKey(u)
    ensures IsTallyOf(t[j := (t[j].0, t[j].1 + 1)], users + [u])
  {
    var t' := t[j := (t[j].0, t[j].1 + 1)];
    var users' := users + [u];
    assert users'[..|users|] == users;
    TallySumBump(t, j);
    KeysKept(t, t', users);
    assert HasKey(t', SourceKey(u)) by { assert t'[j].0 == SourceKey(u); }
  }

  /** A new key: a fresh entry at the end holding one. */
  lemma TallyExtended(t: Tally, users: seq<Doc>, u: Doc)
    requires IsTallyOf(t, users)
    requires !HasKey(t, SourceKey(u))
    ensures IsTallyOf((t + [(SourceKey(u), 0)])[|t| := (SourceKey(u), 1)], users + [u])
  {
    var k := SourceKey(u);
    var ext := t + [(k, 0)];
    var t' := ext[|t| := (k, 1)];
    var users' := users + [u];
    assert users'[..|users|] == users;
    assert ext[..|t|] == t;
    TallySumBump(ext, |t|);
    CountKeyAbsent(users, k, t);
    KeysKept(t, t', users);
    assert HasKey(t', k) by { assert t'[|t|].0 == k; }
  }

  /** Entries that keep their keys keep every user's key present. */
  lemma KeysKept(t: Tally, t': Tally, users: seq<Doc>)
    requires |t| <= |t'| && forall m :: 0 <= m < |t| ==> t'[m].0 == t[m].0
    requires forall l :: 0 <= l < |users| ==> HasKey(t, SourceKey(users[l]))
    ensures forall l :: 0 <= l < |users| ==> HasKey(t', SourceKey(users[l]))
  {
    forall l | 0 <= l < |users| ensures HasKey(t', SourceKey(users[l])) {
      var m :| 0 <= m < |t| && t[m].0 == SourceKey(users[l]);
      assert t'[m].0 == t[m].0;
    }
  }

  /** A key the tally does not hold yet has not been seen. */
  lemma {:induction false} CountKeyAbsent(users: seq<Doc>, k: Value, t: Tally)
    requires forall l :: 0 <= l < |users| ==> HasKey(t, SourceKey(users[l]))
    requires !HasKey(t, k)
    ensures CountKey(users, k) == 0
  {
    if users != [] {
      assert forall l :: 0 <= l < |users| - 1 ==> users[..|users| - 1][l] == users[l];
      CountKeyAbsent(users[..|users| - 1], k, t);
    }
  }

  // ---------------------------------------------------------------------
  // Ordering by size

  predicate NonIncreasing(t: Tally) {
    forall i, j :: 0 <= i < j < |t| ==> t[i].1 >= t[j].1
  }

  /** Insert after every entry at least as large, so entries of equal size
      keep their order. */
  function InsertByCount(sorted: Tally, x: (Value, nat)): (r: Tally)
    ensures |r| == |sorted| + 1
  {
    if sorted == [] then [x]
    else if sorted[|sorted| - 1].1 >= x.1 then sorted + [x]
    else InsertByCount(sorted[..|sorted| - 1], x) + [sorted[|sorted| - 1]]
  }

  /** `sorted(sources.items(), key=count, reverse=True)`. */
  function SortByCount(t: Tally): (r: Tally)
    ensures |r| == |t|
  {
    if t == [] then [] else InsertByCount(SortByCount(t[..|t| - 1]), t[|t| - 1])
  }

  /** Inserting adds exactly the one entry. */
  lemma {:induction false} InsertByCountPermutes(sorted: Tally, x: (Value, nat))
    ensures multiset(InsertByCount(sorted, x)) == multiset(sorted) + multiset{x}
  {
    if sorted != [] {
      var n := |sorted|;
      assert sorted == sorted[..n - 1] + [sorted[n - 1]];
      if sorted[n - 1].1 < x.1 {
        InsertByCountPermutes(sorted[..n - 1], x);
      }
    }
  }

  lemma {:induction false} InsertByCountSorted(sorted: Tally, x: (Value, nat))
    requires NonIncreasing(sorted)
    ensures NonIncreasing(InsertByCount(sorted, x))
  {
    if sorted != [] {
      var n := |sorted|;
      var last := sorted[n - 1];
      var init := sorted[..n - 1];
      if last.1 < x.1 {
        InsertByCountSorted(init, x);
        InsertByCountAbove(init, x, last.1);
        AppendSmaller(InsertByCount(init, x), last);
      }
    }
  }

  /** Inserting an entry of at least `b` among entries of at least `b`
      leaves every entry at least `b`. */
  lemma {:induction false} InsertByCountAbove(sorted: Tally, x: (Value, nat), b: nat)
    requires forall i :: 0 <= i < |sorted| ==> sorted[i].1 >= b
    requires x.1 >= b
    ensures forall i :: 0 <= i < |InsertByCount(sorted, x)| ==> InsertByCount(sorted, x)[i].1 >= b
  {
    if sorted != [] {
      var n := |sorted|;
      if sorted[n - 1].1 < x.1 {
        InsertByCountAbove(sorted[..n - 1], x, b);
      }
    }
  }

  lemma AppendSmaller(t: Tally, x: (Value, nat))
    requires NonIncreasing(t)
    requires forall i :: 0 <= i < |t| ==> t[i].1 >= x.1
    ensures NonIncreasing(t + [x])
  {
  }

  /** The ordered sources are non-increasing by count and are the same
      entries as the tally. */
  lemma {:induction false} SortByCountCorrect(t: Tally)
    ensures NonIncreasing(SortByCount(t))
    ensures multiset(SortByCount(t)) == multiset(t)
  {
    if t != [] {
      SortByCountCorrect(t[..|t| - 1]);
      InsertByCountSorted(SortByCount(t[..|t| - 1]), t[|t| - 1]);
      InsertByCountPermutes(SortByCount(t[..|t| - 1]), t[|t| - 1]);
      assert t == t[..|t| - 1] + [t[|t| - 1]];
    }
  }

  // ---------------------------------------------------------------------
  // Pages

  /** `max(1, ceil(n / 5))`. */
  function TotalPages(n: nat): (t: nat)
    ensures t >= 1
    ensures n == 0 ==> t == 1
    ensures n > 0 ==> (t - 1) * SourcesPerPage < n <= t * SourcesPerPage
  {
    var t := (n + SourcesPerPage - 1) / SourcesPerPage;
    if t < 1 then 1 else t
  }

  /** The requested page clamped into `[0, total_pages - 1]`. */
  function ClampPage(page: int, totalPages: nat): (p: nat)
    requires totalPages >= 1
    ensures p < totalPages
    ensures 0 <= page < totalPages ==> p == page
    ensures page < 0 ==> p == 0
    ensures page >= totalPages ==> p == totalPages - 1
  {
    if page < 0 then 0 else if page > totalPages - 1 then totalPages - 1 else page
  }

  /** The entries shown on a (clamped) page: `[5*page : min(5*page+5, n)]`. */
  function PageSlice<T>(s: seq<T>, page: nat): (w: seq<T>)
    requires page < TotalPages(|s|)
    ensures |w| <= SourcesPerPage
    ensures |s| > 0 ==> |w| >= 1
    ensures forall i :: 0 <= i < |w| ==> page * SourcesPerPage + i < |s| && w[i] == s[page * SourcesPerPage + i]
  {
    var start := page * SourcesPerPage;
    var end := if start + SourcesPerPage < |s| then start + SourcesPerPage else |s|;
    s[start..end]
  }

  /** Every entry is shown on exactly one page, in its place. */
  lemma EveryEntryOnItsPage<T>(s: seq<T>, i: nat)
    requires i < |s|
    ensures i / SourcesPerPage < TotalPages(|s|)
    ensures var w := PageSlice(s, i / SourcesPerPage);
      i % SourcesPerPage < |w| && w[i % SourcesPerPage] == s[i]
  {
  }

  /** The audience keyboard, by what it offers. */
  datatype Keyboard = Keyboard(
    allUsers: bool,                 // the "all users" button
    sourceButtons: seq<(Value, nat)>,
    navigation: bool,               // the navigation row
    back: Option<nat>,              // page the "back" button opens
    forward: Option<nat>,           // page the "forward" button opens
    position: Option<(nat, nat)>)   // the "page/total" label, in the navigation row

  /** The entries that get a button: falsy sources are skipped. */
  function Buttons(w: Tally): (r: Tally)
    ensures forall e :: e in r <==> e in w && Truthy(e.0)
    ensures |r| <= |w|
  {
    if w == [] then []
    else if Truthy(w[0].0) then [w[0]] + Buttons(w[1..])
    else Buttons(w[1..])
  }

  /** `show_target_selection(page)` over the ordered sources. */
  function TargetKeyboard(sorted: Tally, page: int): (k: Keyboard)
    ensures var total := TotalPages(|sorted|);
      var p := ClampPage(page, total);
      && (k.allUsers <==> p == 0)
      && (k.navigation <==> |sorted| > SourcesPerPage)
      && (k.back.Some? <==> k.navigation && p > 0)
      && (k.back.Some? ==> k.back.value == p - 1)
      && (k.forward.Some? <==> k.navigation && p < total - 1)
      && (k.forward.Some? ==> k.forward.value == p + 1 && k.forward.value < total)
      && (k.position.Some? <==> k.navigation)
      && (k.position.Some? ==> k.position.value == (p + 1, total))
      && k.sourceButtons == Buttons(PageSlice(sorted, p))
      && |k.sourceButtons| <= SourcesPerPage
      && forall e :: e in k.sourceButtons ==> e in sorted && Truthy(e.0)
  {
    var total := TotalPages(|sorted|);
    var p := ClampPage(page, total);
    var nav := |sorted| > SourcesPerPage;
    var w := PageSlice(sorted, p);
    assert forall e :: e in w ==> e in sorted;
    Keyboard(p == 0, Buttons(w), nav,
             if nav && p > 0 then Some(p - 1) else None,
             if nav && p < total - 1 then Some(p + 1) else None,
             if nav then Some((p + 1, total)) else None)
  }

  /** Every source with a truthy name is offered on the page that holds its
      entry, `i / 5`. */
  lemma EverySourceOffered(sorted: Tally, i: nat)
    requires i < |sorted| && Truthy(sorted[i].0)
    ensures sorted[i] in TargetKeyboard(sorted, i / SourcesPerPage).sourceButtons
  {
    EveryEntryOnItsPage(sorted, i);
    var w := PageSlice(sorted, i / SourcesPerPage);
    assert sorted[i] in w;
  }

  /** The "all users" button is offered on the first page only, and every
      page before the last offers a way forward. */
  lemma KeyboardNavigates(sorted: Tally, page: int)
    ensures var k := TargetKeyboard(sorted, page);
      |sorted| > SourcesPerPage && ClampPage(page, TotalPages(|sorted|)) < TotalPages(|sorted|) - 1 ==> k.forward.Some?
    ensures |sorted| <= SourcesPerPage ==> TargetKeyboard(sorted, page).allUsers
  {
  }
}
