/** The document store the bot keeps its users, invite links and broadcasts
    in, as values: a collection is the sequence of its documents in natural
    (insertion) order, a document maps field names to values, and a query is
    an exact-match conjunction over fields. */
module Documents {
  import opened Text

  /** A field value. Timestamps are opaque integers. */
  datatype Value = Null | Str(s: string) | Int(i: int) | Bool(b: bool) | Time(t: int)

  type Doc = map<string, Value>
  type Query = map<string, Value>

  /** `doc.get(key)`: a missing field reads as None. */
  function Get(d: Doc, key: string): Value {
    if key in d then d[key] else Null
  }

  /** Python truthiness of a value (`if value:`). */
  predicate Truthy(v: Value) {
    match v
    case Null => false
    case Str(s) => s != ""
    case Int(i) => i != 0
    case Bool(b) => b
    case Time(_) => true
  }

  /** Python truthiness of an optional string parameter. */
  predicate Given(s: Option<string>) {
    s.Some? && s.value != ""
  }

  /** A document satisfies an equality query when every queried field holds
      the queried value; a query for None also matches a missing field. */
  predicate Matches(d: Doc, q: Query) {
    forall k :: k in q ==> Get(d, k) == q[k]
  }

  /** `collection.find(q)` in natural order. */
  function Select(docs: seq<Doc>, q: Query): (r: seq<Doc>)
    ensures |r| <= |docs|
    ensures forall d :: multiset(r)[d] == if Matches(d, q) then multiset(docs)[d] else 0
  {
    if docs == [] then []
    else
      assert docs == [docs[0]] + docs[1..];
      if Matches(docs[0], q) then [docs[0]] + Select(docs[1..], q)
      else Select(docs[1..], q)
  }

  /** A one-document collection: the document alone if it matches, nothing
      otherwise. With SelectAppend this fixes the order of every selection. */
  lemma SelectOne(d: Doc, q: Query)
    ensures Select([d], q) == if Matches(d, q) then [d] else []
  {
    assert [d][1..] == [];
  }

  /** The documents a query selects are exactly the collection's documents
      that match it. */
  lemma {:induction false} SelectMembers(docs: seq<Doc>, q: Query, d: Doc)
    ensures d in Select(docs, q) <==> d in docs && Matches(d, q)
  {
    if docs != [] {
      SelectMembers(docs[1..], q, d);
      assert docs == [docs[0]] + docs[1..];
    }
  }

  lemma {:induction false} SelectAppend(a: seq<Doc>, b: seq<Doc>, q: Query)
    ensures Select(a + b, q) == Select(a, q) + Select(b, q)
  {
    if a == [] {
      assert a + b == b;
    } else {
      var ab := a + b;
      assert ab[0] == a[0];
      assert ab[1..] == a[1..] + b;
      SelectAppend(a[1..], b, q);
      if Matches(a[0], q) {
        calc {
          Select(ab, q);
          [a[0]] + Select(a[1..] + b, q);
          [a[0]] + (Select(a[1..], q) + Select(b, q));
          ([a[0]] + Select(a[1..], q)) + Select(b, q);
        }
      }
    }
  }

  /** The empty query selects the whole collection, in order. */
  lemma {:induction false} SelectAll(docs: seq<Doc>)
    ensures Select(docs, map[]) == docs
  {
    if docs != [] {
      SelectAll(docs[1..]);
    }
  }

  /** Adding one equality to a query keeps exactly the documents that also
      hold that value. */
  lemma MatchesExtend(d: Doc, q: Query, k: string, v: Value)
    ensures Matches(d, q[k := v]) <==> Matches(d, q - {k}) && Get(d, k) == v
  {
    if Matches(d, q - {k}) && Get(d, k) == v {
      forall j | j in q[k := v] ensures Get(d, j) == q[k := v][j] {
        if j != k { assert j in q - {k}; }
      }
    }
  }

  predicate Unlimited(limit: Option<nat>) {
    limit.None? || limit.value == 0
  }

  /** `cursor.skip(skip)` followed by `cursor.limit(limit)` when the limit is
      truthy: a None or 0 limit does not limit. */
  function Page<T>(s: seq<T>, skip: nat, limit: Option<nat>): (r: seq<T>)
    ensures skip >= |s| ==> r == []
    ensures skip < |s| && Unlimited(limit) ==> |r| == |s| - skip
    ensures skip < |s| && !Unlimited(limit) ==>
              |r| == if limit.value < |s| - skip then limit.value else |s| - skip
    ensures forall i :: 0 <= i < |r| ==> skip + i < |s| && r[i] == s[skip + i]
  {
    var rest := if skip <= |s| then s[skip..] else [];
    if Unlimited(limit) || |rest| <= limit.value then rest else rest[..limit.value]
  }

  /** A limited page that starts inside the sequence is the slice of the
      next `limit` elements, or of all that remain. */
  lemma PageWindow<T>(s: seq<T>, skip: nat, limit: nat)
    requires skip <= |s| && limit > 0
    ensures var n := if |s| - skip < limit then |s| - skip else limit;
      Page(s, skip, Some(limit)) == s[skip..skip + n]
  {
  }

  /** Every document on a page of a query's results is in the collection and
      matches the query. */
  lemma PageSelectMatches(docs: seq<Doc>, q: Query, skip: nat, limit: Option<nat>)
    ensures forall d :: d in Page(Select(docs, q), skip, limit) ==> d in docs && Matches(d, q)
  {
    var sel := Select(docs, q);
    forall d | d in Page(sel, skip, limit) ensures d in docs && Matches(d, q) {
      var i :| 0 <= i < |Page(sel, skip, limit)| && Page(sel, skip, limit)[i] == d;
      assert d in sel;
      SelectMembers(docs, q, d);
    }
  }

  /** The first document a query matches (`find_one`), if any. */
  function FindFirst(docs: seq<Doc>, q: Query): (r: Option<nat>)
    ensures r.Some? ==> r.value < |docs| && Matches(docs[r.value], q)
    ensures r.Some? ==> forall j :: 0 <= j < r.value ==> !Matches(docs[j], q)
    ensures r.None? ==> forall j :: 0 <= j < |docs| ==> !Matches(docs[j], q)
  {
    if docs == [] then None
    else if Matches(docs[0], q) then Some(0)
    else match FindFirst(docs[1..], q)
      case None => None
      case Some(i) => Some(i + 1)
  }

  /** `$set`: the fields of `s` overwrite or add to those of `d`. */
  function SetFields(d: Doc, s: Doc): (r: Doc)
    ensures forall k :: Get(r, k) == (if k in s then s[k] else Get(d, k))
    ensures r.Keys == d.Keys + s.Keys
  {
    d + s
  }

  /** `update_one(q, {"$set": s})`: the first matching document gets the new
      fields, every other document is untouched. */
  function UpdateFirst(docs: seq<Doc>, q: Query, s: Doc): (r: seq<Doc>)
    ensures |r| == |docs|
    ensures FindFirst(docs, q).Some? ==>
              var i := FindFirst(docs, q).value;
              r[i] == SetFields(docs[i], s) && forall j :: 0 <= j < |docs| && j != i ==> r[j] == docs[j]
    ensures FindFirst(docs, q).None? ==> r == docs
  {
    match FindFirst(docs, q)
    case None => docs
    case Some(i) => docs[i := SetFields(docs[i], s)]
  }

  /** `modified_count > 0` of that update: a document matched and changed. */
  function Modified(docs: seq<Doc>, q: Query, s: Doc): bool {
    UpdateFirst(docs, q, s) != docs
  }
}
