/** The order in which a document lists its members, peers and administrators changes nothing that is signed. */
module RosterOrder {
  import opened Wrappers
  import opened Peers
  import opened TextOrder
  import opened Roster
  import opened RosterLaws

  lemma SameElements<T>(a: seq<T>, b: seq<T>)
    requires multiset(a) == multiset(b)
    ensures |a| == |b| && forall x :: x in a <==> x in b
  {
    assert |multiset(a)| == |a| && |multiset(b)| == |b|;
    assert forall x :: x in a <==> x in multiset(a);
    assert forall x :: x in b <==> x in multiset(b);
  }

  lemma WithoutOne<T>(items: seq<Json>, parse: Json -> Result<T, Flaw>, i: nat)
    requires i < |items| && ParseEach(items, parse).Ok?
    ensures var ts := ParseEach(items, parse).value;
            ParseEach(items[..i] + items[i + 1..], parse) == Ok(ts[..i] + ts[i + 1..])
  {
    var ts, rest := ParseEach(items, parse).value, items[..i] + items[i + 1..];
    var us := ts[..i] + ts[i + 1..];
    forall k | 0 <= k < |rest| ensures parse(rest[k]) == Ok(us[k]) {
      if k < i { assert parse(items[k]) == Ok(ts[k]); } else { assert parse(items[k + 1]) == Ok(ts[k + 1]); }
    }
    var r := ParseEach(rest, parse);
    assert r.Ok?;
    forall k | 0 <= k < |us| ensures r.value[k] == us[k] { assert parse(rest[k]) == Ok(r.value[k]); }
    assert r.value == us;
  }

  /** Reading shuffled items gives shuffled results. */
  lemma {:induction false} ParseEachShuffled<T>(a: seq<Json>, b: seq<Json>, parse: Json -> Result<T, Flaw>)
    requires multiset(a) == multiset(b) && ParseEach(a, parse).Ok?
    ensures ParseEach(b, parse).Ok? && multiset(ParseEach(a, parse).value) == multiset(ParseEach(b, parse).value)
    decreases |a|
  {
    SameElements(a, b);
    forall i | 0 <= i < |b| ensures parse(b[i]).Ok? {
      assert b[i] in a;
    }
    if a != [] {
      var n := |a| - 1;
      assert a[n] in b;
      var i :| 0 <= i < |b| && b[i] == a[n];
      Removed(a, n);
      Removed(b, i);
      WithoutOne(a, parse, n);
      WithoutOne(b, parse, i);
      ParseEachShuffled(a[..n] + a[n + 1..], b[..i] + b[i + 1..], parse);
      ResultsShuffled(a, b, parse, n, i);
    }
  }

  lemma ResultsShuffled<T>(a: seq<Json>, b: seq<Json>, parse: Json -> Result<T, Flaw>, n: nat, i: nat)
    requires ParseEach(a, parse).Ok? && ParseEach(b, parse).Ok? && n < |a| && i < |b| && a[n] == b[i]
    requires var us, vs := ParseEach(a, parse).value, ParseEach(b, parse).value;
             multiset(us[..n] + us[n + 1..]) == multiset(vs[..i] + vs[i + 1..])
    ensures multiset(ParseEach(a, parse).value) == multiset(ParseEach(b, parse).value)
  {
    var us, vs := ParseEach(a, parse).value, ParseEach(b, parse).value;
    Removed(us, n);
    Removed(vs, i);
    assert parse(a[n]) == Ok(us[n]) && parse(b[i]) == Ok(vs[i]);
  }

  lemma DistinctOnce<T>(ts: seq<T>, key: T -> string, i: nat)
    requires DistinctBy(ts, key) && i < |ts|
    ensures multiset(ts)[ts[i]] == 1
  {
    Removed(ts, i);
    var rest := ts[..i] + ts[i + 1..];
    forall k | 0 <= k < |rest| ensures rest[k] != ts[i] {
      assert rest[k] == ts[if k < i then k else k + 1];
    }
    assert ts[i] !in rest;
  }

  lemma DistinctShuffled<T>(ts: seq<T>, us: seq<T>, key: T -> string)
    requires multiset(ts) == multiset(us) && DistinctBy(ts, key)
    ensures DistinctBy(us, key)
  {
    SameElements(ts, us);
    forall i, j | 0 <= i < j < |us| ensures key(us[i]) != key(us[j]) {
      assert us[i] in ts && us[j] in ts;
      var k :| 0 <= k < |ts| && ts[k] == us[i];
      if us[i] == us[j] {
        TwiceCounts(us, i, j);
        DistinctOnce(ts, key, k);
      } else {
        var l :| 0 <= l < |ts| && ts[l] == us[j];
        if k < l { assert key(ts[k]) != key(ts[l]); } else { assert key(ts[l]) != key(ts[k]); }
      }
    }
  }

  lemma IndexShuffled<T>(ts: seq<T>, us: seq<T>, key: T -> string)
    requires multiset(ts) == multiset(us) && DistinctBy(ts, key)
    ensures DistinctBy(us, key) && IndexBy(us, key) == IndexBy(ts, key)
  {
    var m := IndexBy(ts, key);
    SameElements(ts, us);
    DistinctShuffled(ts, us, key);
    IndexIs(ts, key);
    forall i | 0 <= i < |us| ensures key(us[i]) in m && m[key(us[i])] == us[i] {
      assert us[i] in ts;
    }
    forall k | k in m ensures exists i :: 0 <= i < |us| && key(us[i]) == k {
      var j :| 0 <= j < |ts| && key(ts[j]) == k;
      assert ts[j] in us;
    }
    IndexOfList(us, m, key);
  }

  // ---- documents ----

  /** Both list the same things under `key`, in whatever order. */
  ghost predicate ShuffledAt(d: map<string, Json>, d': map<string, Json>, key: string) {
    var a, b := Get(d, key, Arr([])), Get(d', key, Arr([]));
    a.Arr? && b.Arr? && multiset(a.items) == multiset(b.items)
  }

  predicate AgreeAt(d: map<string, Json>, d': map<string, Json>, key: string, absent: Json) {
    Get(d, key, absent) == Get(d', key, absent)
  }

  ghost predicate Shuffled(d: map<string, Json>, d': map<string, Json>) {
    && ShuffledAt(d, d', "members") && ShuffledAt(d, d', "peers") && ShuffledAt(d, d', "admins")
    && forall key, absent :: key != "members" && key != "peers" && key != "admins" ==> AgreeAt(d, d', key, absent)
  }

  lemma PeopleParts(d: map<string, Json>, memberItems: seq<Json>, peerItems: seq<Json>)
    requires ParsePeople(d).Ok?
    requires Get(d, "members", Arr([])) == Arr(memberItems) && Get(d, "peers", Arr([])) == Arr(peerItems)
    ensures ParseEach(memberItems, ParseMember).Ok? && ParseEach(peerItems, ParsePeer).Ok?
    ensures var ms, ps := ParseEach(memberItems, ParseMember).value, ParseEach(peerItems, ParsePeer).value;
            && DistinctBy(ms, MemberKey) && DistinctBy(ps, PeerKey) && AllKnown(ps, IndexBy(ms, MemberKey))
            && ParsePeople(d) == Ok(People(IndexBy(ms, MemberKey), IndexBy(ps, PeerKey)))
  {
  }

  lemma KnownShuffled(ps: seq<Peer>, qs: seq<Peer>, members: map<MemberId, Member>)
    requires multiset(ps) == multiset(qs) && AllKnown(ps, members)
    ensures AllKnown(qs, members)
  {
    SameElements(ps, qs);
    forall i | 0 <= i < |qs| ensures PeerKnown(qs[i], members) { assert qs[i] in ps; }
  }

  lemma PeopleShuffled(d: map<string, Json>, d': map<string, Json>, ms: seq<Json>, ms': seq<Json>, ps: seq<Json>, ps': seq<Json>)
    requires ParsePeople(d).Ok?
    requires Get(d, "members", Arr([])) == Arr(ms) && Get(d, "peers", Arr([])) == Arr(ps)
    requires Get(d', "members", Arr([])) == Arr(ms') && Get(d', "peers", Arr([])) == Arr(ps')
    requires multiset(ms) == multiset(ms') && multiset(ps) == multiset(ps')
    ensures ParsePeople(d') == ParsePeople(d)
  {
    PeopleParts(d, ms, ps);
    ParseEachShuffled(ms, ms', ParseMember);
    ParseEachShuffled(ps, ps', ParsePeer);
    var members, members' := ParseEach(ms, ParseMember).value, ParseEach(ms', ParseMember).value;
    var peers, peers' := ParseEach(ps, ParsePeer).value, ParseEach(ps', ParsePeer).value;
    IndexShuffled(members, members', MemberKey);
    IndexShuffled(peers, peers', PeerKey);
    KnownShuffled(peers, peers', IndexBy(members, MemberKey));
    PeopleFrom(d', ms', ps', members', peers');
  }

  lemma AdminsShuffled(a: seq<Json>, b: seq<Json>, members: map<MemberId, Member>)
    requires multiset(a) == multiset(b) && ParseAdmins(Arr(a), members).Ok?
    ensures ParseAdmins(Arr(b), members).Ok?
    ensures multiset(ParseAdmins(Arr(a), members).value) == multiset(ParseAdmins(Arr(b), members).value)
  {
    var parse := (j: Json) => ParseAdmin(members, j);
    ParseEachShuffled(a, b, parse);
    SameElements(a, b);
  }

  /** A shuffled document is accepted too, and comes to the same roster but for the order of administrators. */
  lemma ShufflingKeepsRoster(d: map<string, Json>, d': map<string, Json>)
    requires Parse(Obj(d)).Ok? && Shuffled(d, d')
    ensures Parse(Obj(d')).Ok?
    ensures var r, r' := Parse(Obj(d)).value, Parse(Obj(d')).value;
            r' == WithAdmins(r, r'.admins) && multiset(r'.admins) == multiset(r.admins)
  {
    var r := Parse(Obj(d)).value;
    PartsOf(d, r);
    PeopleShuffled(d, d', Get(d, "members", Arr([])).items, Get(d', "members", Arr([])).items,
                   Get(d, "peers", Arr([])).items, Get(d', "peers", Arr([])).items);
    AdminsShuffled(Get(d, "admins", Arr([])).items, Get(d', "admins", Arr([])).items, r.members);
    assert AgreeAt(d, d', "v", Null) && AgreeAt(d, d', "roster_version", Null) && AgreeAt(d, d', "federation_id", Null);
    assert AgreeAt(d, d', "updated", Str("")) && AgreeAt(d, d', "signatures", Arr([]));
    PartsReadBack(d', WithAdmins(r, ParseAdmins(Get(d', "admins", Arr([])), r.members).value));
  }

  /** So shuffling a document leaves what is signed unchanged. */
  lemma BodyIgnoresOrder(d: map<string, Json>, d': map<string, Json>)
    requires Parse(Obj(d)).Ok? && Shuffled(d, d')
    ensures Parse(Obj(d')).Ok? && Body(Parse(Obj(d')).value) == Body(Parse(Obj(d)).value)
  {
    ShufflingKeepsRoster(d, d');
  }
}
