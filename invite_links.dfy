/** The invite-links collection (bot/database/invite_links.py): one document
    per tagged channel link, carrying the acquisition source it stands for and
    a use counter. */
module InviteLinks {
  import opened Text
  import opened Documents

  function LinkQuery(link: string): Query {
    map["link" := Str(link)]
  }

  /** The query `get_all_invite_links` builds field by field: `is_active`
      whenever it is not None (False included), `source` only when truthy. */
  function LinksQuery(isActive: Option<bool>, source: Option<string>): (q: Query)
    ensures ("is_active" in q) <==> isActive.Some?
    ensures isActive.Some? ==> q["is_active"] == Bool(isActive.value)
    ensures ("source" in q) <==> Given(source)
    ensures Given(source) ==> q["source"] == Str(source.value)
    ensures q.Keys <= {"is_active", "source"}
  {
    var q := map[];
    var q := if isActive.Some? then q["is_active" := Bool(isActive.value)] else q;
    if Given(source) then q["source" := Str(source.value)] else q
  }

  /** The document `create_invite_link` inserts. */
  function NewLinkDoc(link: string, source: Value, createdBy: int, description: Value,
                      maxUses: Value, expiresAt: Value, now: int): (d: Doc)
    ensures Matches(d, LinkQuery(link))
    ensures Get(d, "source") == source && Get(d, "created_by") == Int(createdBy)
    ensures Get(d, "description") == description && Get(d, "max_uses") == maxUses
    ensures Get(d, "expires_at") == expiresAt
    ensures Get(d, "uses_count") == Int(0) && Get(d, "is_active") == Bool(true)
    ensures Get(d, "created_at") == Time(now) && Get(d, "updated_at") == Time(now)
  {
    map["link" := Str(link), "source" := source, "created_by" := Int(createdBy),
        "description" := description, "max_uses" := maxUses, "expires_at" := expiresAt,
        "created_at" := Time(now), "updated_at" := Time(now),
        "uses_count" := Int(0), "is_active" := Bool(true)]
  }

  /** `$inc: {key: 1}`: a missing field becomes 1, an integer grows by one,
      any other value makes the write fail (None). */
  function Increment(d: Doc, key: string): (r: Option<Doc>)
    ensures key !in d ==> r == Some(d[key := Int(1)])
    ensures r.Some? ==> key in d ==> d[key].Int? && r.value == d[key := Int(d[key].i + 1)]
    ensures key in d && !d[key].Int? ==> r.None?
  {
    if key !in d then Some(d[key := Int(1)])
    else match d[key]
      case Int(n) => Some(d[key := Int(n + 1)])
      case _ => None
  }

  /** What `get_source_by_link` gives back. A failed write raises. */
  datatype Lookup = Found(source: Value) | Unknown | WriteFailed(message: string)

  const IncrementError: string := "Cannot apply $inc to a value of non-numeric type"

  /** The answer of `get_source_by_link` on a collection. */
  function LookupOf(docs: seq<Doc>, link: string): (r: Lookup)
    ensures r.Unknown? <==> FindFirst(docs, LinkQuery(link)).None?
    ensures r.Found? ==> r.source == Get(docs[FindFirst(docs, LinkQuery(link)).value], "source")
  {
    match FindFirst(docs, LinkQuery(link))
    case None => Unknown
    case Some(i) => if Increment(docs[i], "uses_count").None? then WriteFailed(IncrementError)
                    else Found(Get(docs[i], "source"))
  }

  /** The collection after `get_source_by_link`: the first document with the
      link gets one more use and a fresh `updated_at`; an unknown link, or a
      counter `$inc` cannot add to, writes nothing. */
  function LookupEffect(docs: seq<Doc>, link: string, now: int): (r: seq<Doc>)
    ensures |r| == |docs|
    ensures !LookupOf(docs, link).Found? ==> r == docs
    ensures forall j :: 0 <= j < |docs| && FindFirst(docs, LinkQuery(link)) != Some(j) ==> r[j] == docs[j]
    ensures LookupOf(docs, link).Found? ==>
      var i := FindFirst(docs, LinkQuery(link)).value;
      Get(r[i], "updated_at") == Time(now) && Get(r[i], "source") == Get(docs[i], "source") &&
      Get(r[i], "link") == Get(docs[i], "link") &&
      Get(r[i], "uses_count") == Int(if "uses_count" in docs[i] then docs[i]["uses_count"].i + 1 else 1)
  {
    match FindFirst(docs, LinkQuery(link))
    case None => docs
    case Some(i) =>
      match Increment(docs[i], "uses_count")
      case None => docs
      case Some(inc) => docs[i := inc["updated_at" := Time(now)]]
  }

  /** The source a lookup yields to its caller: None unless the link is known. */
  function SourceOf(l: Lookup): Value {
    if l.Found? then l.source else Null
  }

  class InviteLinkStore {
    /** The collection's documents in natural order. */
    var docs: seq<Doc>

    constructor (initial: seq<Doc>)
      ensures docs == initial
    {
      docs := initial;
    }

    /** `create_invite_link`: insert the new link and return its document. */
    method CreateInviteLink(link: string, source: Value, createdBy: int, description: Value,
                            maxUses: Value, expiresAt: Value, now: int) returns (d: Doc)
      modifies this
      ensures d == NewLinkDoc(link, source, createdBy, description, maxUses, expiresAt, now)
      ensures docs == old(docs) + [d]
    {
      d := NewLinkDoc(link, source, createdBy, description, maxUses, expiresAt, now);
      docs := docs + [d];
    }

    /** `get_invite_link`: the first document for that link, or None. */
    function GetInviteLink(link: string): (r: Option<Doc>)
      reads this
      ensures r.Some? ==> r.value in docs && Get(r.value, "link") == Str(link)
      ensures r.None? <==> forall d :: d in docs ==> Get(d, "link") != Str(link)
    {
      match FindFirst(docs, LinkQuery(link))
      case None =>
        assert forall d :: d in docs ==> !Matches(d, LinkQuery(link));
        None
      case Some(i) => assert "link" in LinkQuery(link); Some(docs[i])
    }

    /** `get_source_by_link`: count one use of a known link, refresh its
        `updated_at` and return its source; an unknown link writes nothing. */
    method GetSourceByLink(link: string, now: int) returns (r: Lookup)
      modifies this
      ensures r == LookupOf(old(docs), link)
      ensures docs == LookupEffect(old(docs), link, now)
      ensures FindFirst(old(docs), LinkQuery(link)).None? ==> r == Unknown && docs == old(docs)
      ensures FindFirst(old(docs), LinkQuery(link)).Some? ==>
        var i := FindFirst(old(docs), LinkQuery(link)).value;
        match Increment(old(docs)[i], "uses_count")
        case None => r.WriteFailed? && docs == old(docs)
        case Some(inc) =>
          && r == Found(Get(old(docs)[i], "source"))
          && docs == old(docs)[i := inc["updated_at" := Time(now)]]
    {
      var found := FindFirst(docs, LinkQuery(link));
      if found.None? {
        return Unknown;
      }
      var i := found.value;
      var inc := Increment(docs[i], "uses_count");
      if inc.None? {
        return WriteFailed(IncrementError);
      }
      r := Found(Get(docs[i], "source"));
      docs := docs[i := inc.value["updated_at" := Time(now)]];
    }

    /** `update_invite_link`: stamp the caller's dict and `$set` it on that
        link only; report whether a document changed. */
    method UpdateInviteLink(link: string, data: Doc, now: int) returns (modified: bool, stamped: Doc)
      modifies this
      ensures stamped == data["updated_at" := Time(now)]
      ensures docs == UpdateFirst(old(docs), LinkQuery(link), stamped)
      ensures modified <==> docs != old(docs)
    {
      stamped := data["updated_at" := Time(now)];
      var before := docs;
      docs := UpdateFirst(docs, LinkQuery(link), stamped);
      modified := docs != before;
    }

    /** `get_all_invite_links(is_active, source, limit, skip)`. */
    function GetAllInviteLinks(isActive: Option<bool>, source: Option<string>,
                               limit: Option<nat>, skip: nat): (r: seq<Doc>)
      reads this
      ensures forall d :: d in r ==> d in docs && Matches(d, LinksQuery(isActive, source))
      ensures !Unlimited(limit) ==> |r| <= limit.value
    {
      PageSelectMatches(docs, LinksQuery(isActive, source), skip, limit);
      Page(Select(docs, LinksQuery(isActive, source)), skip, limit)
    }
  }

  /** A known link's counter goes up by exactly one per lookup, and no other
      link changes. */
  lemma {:induction false} LookupCountsOneUse(docs: seq<Doc>, i: nat, n: int, now: int)
    requires i < |docs| && Get(docs[i], "uses_count") == Int(n)
    ensures Increment(docs[i], "uses_count").Some?
    ensures var after := docs[i := Increment(docs[i], "uses_count").value["updated_at" := Time(now)]];
      && Get(after[i], "uses_count") == Int(n + 1)
      && Get(after[i], "updated_at") == Time(now)
      && Get(after[i], "source") == Get(docs[i], "source")
      && forall j :: 0 <= j < |docs| && j != i ==> after[j] == docs[j]
  {
    assert "uses_count" in docs[i];
  }
}
