/** What the parser establishes, that writing and reading back loses nothing, and what a signature pins down. */
module RosterLaws {
  import opened Wrappers
  import opened Peers
  import opened TextOrder
  import opened Roster

  // ---- entries ----

  /** A capacity that is not zero and within a hundredth of a GB of the shares. */
  predicate AgreesWithShares(capacity: real, cs: seq<Contribution>) {
    capacity != 0.0 && -0.01 <= capacity - SumGb(cs) <= 0.01
  }

  /** An entry the parser can produce: shares and capacity agree. */
  predicate SoundPeer(p: Peer) {
    && WellFormedPeer(p)
    && (p.contributors == [] || AgreesWithShares(p.capacityGb, p.contributors))
  }

  lemma CapacityAgrees(declared: Json, cs: seq<Contribution>)
    requires ParseCapacity(declared, cs).Ok? && cs != [] && forall i :: 0 <= i < |cs| ==> cs[i].gb > 0.0
    ensures AgreesWithShares(ParseCapacity(declared, cs).value, cs)
  {
    SumGbPositive(cs);
  }

  lemma ContributorsAreSound(j: Json)
    requires ParseContributors(j).Ok?
    ensures var cs := ParseContributors(j).value;
            DistinctMembers(cs) && forall i :: 0 <= i < |cs| ==> cs[i].gb > 0.0
  {
    if Truthy(j) {
      var cs := ParseContributors(j).value;
      var key := (c: Contribution) => c.member;
      assert DistinctBy(cs, key);
      forall i, k | 0 <= i < k < |cs| ensures cs[i].member != cs[k].member {
        assert key(cs[i]) != key(cs[k]);
      }
      assert forall i :: 0 <= i < |cs| ==> ParseContribution(j.items[i]) == Ok(cs[i]);
    }
  }

  // ---- exactly what is accepted, and as what ----

  /** A list of contributors reads as `cs`: every item names a member and a positive share, no member twice. */
  ghost predicate ReadsAsShares(j: Json, cs: seq<Contribution>) {
    if !Truthy(j) then cs == []
    else
      && j.Arr? && |cs| == |j.items| && DistinctMembers(cs)
      && forall i :: 0 <= i < |cs| ==>
           && j.items[i].Obj? && Get(j.items[i].fields, "member", Null) == Str(cs[i].member)
           && IsNumber(Get(j.items[i].fields, "gb", Null)) && AsReal(j.items[i].fields["gb"]) == cs[i].gb > 0.0
  }

  lemma ContributorsExactly(j: Json, cs: seq<Contribution>)
    ensures ParseContributors(j) == Ok(cs) <==> ReadsAsShares(j, cs)
  {
    if Truthy(j) && j.Arr? {
      var r := ParseEach(j.items, ParseContribution);
      if r == Ok(cs) { ContributorsSame(cs); }
      if ReadsAsShares(j, cs) {
        forall i | 0 <= i < |cs| ensures ParseContribution(j.items[i]) == Ok(cs[i]) {}
        forall i | 0 <= i < |cs| ensures r.value[i] == cs[i] { assert ParseContribution(j.items[i]) == Ok(r.value[i]); }
        assert r.value == cs;
        ContributorsSame(cs);
      }
    }
  }

  lemma ContributorsSame(cs: seq<Contribution>)
    ensures DistinctBy(cs, (c: Contribution) => c.member) <==> DistinctMembers(cs)
  {
    var key := (c: Contribution) => c.member;
    assert DistinctBy(cs, key) <==> DistinctBy(cs, (c: Contribution) => c.member);
    if DistinctBy(cs, key) {
      forall i, k | 0 <= i < k < |cs| ensures cs[i].member != cs[k].member { assert key(cs[i]) != key(cs[k]); }
    }
  }

  /** Nothing, null or zero declared means what the shares sum to; anything else must be within a hundredth of it. */
  predicate CapacityOf(declared: Json, shared: bool, sum: real, capacity: real) {
    && (declared == Null || IsNumber(declared))
    && var n := if declared == Null then 0.0 else AsReal(declared);
       if n == 0.0 then capacity == if shared then sum else 0.0
       else capacity == n && (shared ==> -0.01 <= n - sum <= 0.01)
  }

  lemma CapacityExactly(declared: Json, cs: seq<Contribution>, capacity: real)
    ensures ParseCapacity(declared, cs) == Ok(capacity) <==> CapacityOf(declared, cs != [], SumGb(cs), capacity)
  {
  }

  /**
   An entry is accepted as `p` if and only if it names `p`'s five texts, a whole number of slots (one if
   it does not say), contributors and a capacity that read as above, and something to list as shards;
   what else it leaves out is unknown or null.
   */
  lemma ParsePeerExactly(d: map<string, Json>, p: Peer)
    ensures ParsePeer(Obj(d)) == Ok(p) <==>
            && NamesPeer(d, p) && NotesPeer(d, p)
            && Get(d, "max_concurrent", Int(1)) == Int(p.maxConcurrent) && p.maxConcurrent >= 1
            && ReadsAsShares(Get(d, "contributors", Null), p.contributors)
            && CapacityOf(Get(d, "capacity_gb", Null), p.contributors != [], SumGb(p.contributors), p.capacityGb)
            && ItemsOf(Get(d, "shards", Arr([]))) == Ok(p.shards)
  {
    ContributorsExactly(Get(d, "contributors", Null), p.contributors);
    CapacityExactly(Get(d, "capacity_gb", Null), p.contributors, p.capacityGb);
  }

  /** A member is accepted as `m` if and only if it names its three texts; its role is to be a member unless it says otherwise. */
  lemma ParseMemberExactly(d: map<string, Json>, m: Member)
    ensures ParseMember(Obj(d)) == Ok(m) <==>
            && Get(d, "id", Null) == Str(m.id) && Get(d, "sign_pub", Null) == Str(m.signPub) && Get(d, "enc_pub", Null) == Str(m.encPub)
            && Get(d, "role", Str("member")) == m.role && Get(d, "joined", Str("")) == m.joined
  {
  }

  /** Whatever the parser accepts as a peer, the rest of the coordinator can rely on. */
  lemma ParsePeerWellFormed(j: Json)
    requires ParsePeer(j).Ok?
    ensures SoundPeer(ParsePeer(j).value)
  {
    var d, p := j.fields, ParsePeer(j).value;
    ContributorsAreSound(Get(d, "contributors", Null));
    if p.contributors != [] { CapacityAgrees(Get(d, "capacity_gb", Null), p.contributors); }
  }

  lemma EachReadsBack<T>(ts: seq<T>, doc: T -> Json, parse: Json -> Result<T, Flaw>)
    requires forall i :: 0 <= i < |ts| ==> parse(doc(ts[i])) == Ok(ts[i])
    ensures ParseEach(Each(ts, doc), parse) == Ok(ts)
  {
    var items := Each(ts, doc);
    forall i | 0 <= i < |items| ensures parse(items[i]) == Ok(ts[i]) {
      assert items[i] == doc(ts[i]);
    }
    var r := ParseEach(items, parse);
    forall i | 0 <= i < |ts| ensures r.value[i] == ts[i] {
      assert parse(items[i]) == Ok(r.value[i]);
    }
    assert r.value == ts;
  }

  lemma ContributorsReadBack(cs: seq<Contribution>)
    requires cs != [] && DistinctMembers(cs) && forall i :: 0 <= i < |cs| ==> cs[i].gb > 0.0
    ensures ParseContributors(Arr(Each(cs, ContributionDoc))) == Ok(cs)
  {
    forall i | 0 <= i < |cs| ensures ParseContribution(ContributionDoc(cs[i])) == Ok(cs[i]) {}
    EachReadsBack(cs, ContributionDoc, ParseContribution);
  }

  predicate NamesPeer(d: map<string, Json>, p: Peer) {
    && Get(d, "id", Null) == Str(p.id) && Get(d, "owner", Null) == Str(p.owner)
    && Get(d, "enc_pub", Null) == Str(p.encPub) && Get(d, "endpoint", Null) == Str(p.endpoint)
    && Get(d, "model", Null) == Str(p.model)
  }

  predicate SizesPeer(d: map<string, Json>, p: Peer) {
    && Get(d, "capacity_gb", Null) == Real(p.capacityGb)
    && Get(d, "max_concurrent", Int(1)) == Int(p.maxConcurrent)
    && Get(d, "shards", Arr([])) == Arr(p.shards)
    && Get(d, "contributors", Null) == if p.contributors == [] then Null else Arr(Each(p.contributors, ContributionDoc))
  }

  predicate NotesPeer(d: map<string, Json>, p: Peer) {
    && Get(d, "engine", Str("unknown")) == p.engine && Get(d, "engine_version", Str("unknown")) == p.engineVersion
    && Get(d, "hw_class", Str("unknown")) == p.hwClass && Get(d, "availability", Null) == p.availability
    && Get(d, "attestation", Null) == p.attestation
  }

  lemma DocNames(p: Peer)
    ensures NamesPeer(PeerDoc(p).fields, p)
  {
  }

  lemma DocSizes(p: Peer)
    ensures SizesPeer(PeerDoc(p).fields, p)
  {
  }

  lemma DocNotes(p: Peer)
    ensures NotesPeer(PeerDoc(p).fields, p)
  {
  }

  lemma SizesReadBack(d: map<string, Json>, p: Peer)
    requires SoundPeer(p) && SizesPeer(d, p)
    ensures ParseContributors(Get(d, "contributors", Null)) == Ok(p.contributors)
    ensures ParseCapacity(Get(d, "capacity_gb", Null), p.contributors) == Ok(p.capacityGb)
  {
    if p.contributors != [] { ContributorsReadBack(p.contributors); }
  }

  lemma FieldsReadBack(d: map<string, Json>, p: Peer)
    requires NamesPeer(d, p) && SizesPeer(d, p) && NotesPeer(d, p) && p.maxConcurrent >= 1
    requires ParseContributors(Get(d, "contributors", Null)) == Ok(p.contributors)
    requires ParseCapacity(Get(d, "capacity_gb", Null), p.contributors) == Ok(p.capacityGb)
    ensures ParsePeer(Obj(d)) == Ok(p)
  {
  }

  lemma PeerReadsBack(p: Peer)
    requires SoundPeer(p)
    ensures ParsePeer(PeerDoc(p)) == Ok(p)
  {
    DocNames(p);
    DocSizes(p);
    DocNotes(p);
    SizesReadBack(PeerDoc(p).fields, p);
    FieldsReadBack(PeerDoc(p).fields, p);
  }

  /** Writing an entry and reading it back gives the same entry exactly when it is one the parser can produce. */
  lemma PeerRoundTrip(p: Peer)
    ensures ParsePeer(PeerDoc(p)) == Ok(p) <==> SoundPeer(p)
  {
    if SoundPeer(p) { PeerReadsBack(p); }
    if ParsePeer(PeerDoc(p)) == Ok(p) { ParsePeerWellFormed(PeerDoc(p)); }
  }

  lemma MemberReadsBack(m: Member)
    ensures ParseMember(MemberDoc(m)) == Ok(m)
  {
  }

  // ---- dictionaries ----

  lemma {:induction false} IndexIs<T>(ts: seq<T>, key: T -> string)
    requires DistinctBy(ts, key)
    ensures forall i :: 0 <= i < |ts| ==> key(ts[i]) in IndexBy(ts, key) && IndexBy(ts, key)[key(ts[i])] == ts[i]
    ensures forall k :: k in IndexBy(ts, key) ==> exists i :: 0 <= i < |ts| && key(ts[i]) == k
  {
    if ts != [] {
      var n := |ts| - 1;
      IndexIs(ts[..n], key);
      forall k | k in IndexBy(ts, key) ensures exists i :: 0 <= i < |ts| && key(ts[i]) == k {
        if k == key(ts[n]) {
        } else {
          var i :| 0 <= i < n && key(ts[..n][i]) == k;
          assert key(ts[i]) == k;
        }
      }
    }
  }

  ghost predicate KeyedBy<T>(m: map<string, T>, key: T -> string) {
    forall k :: k in m ==> key(m[k]) == k
  }

  lemma Removed<T>(s: seq<T>, i: nat)
    requires i < |s|
    ensures multiset(s) == multiset(s[..i] + s[i + 1..]) + multiset{s[i]}
    ensures multiset(s[..i] + s[i + 1..]) == multiset(s) - multiset{s[i]}
  {
    assert s == s[..i] + [s[i]] + s[i + 1..];
  }

  lemma TwiceCounts<T>(us: seq<T>, i: nat, j: nat)
    requires i < j < |us| && us[i] == us[j]
    ensures multiset(us)[us[i]] >= 2
  {
    Removed(us, i);
    var rest := us[..i] + us[i + 1..];
    assert rest[j - 1] == us[j];
    assert us[j] in multiset(rest);
  }

  lemma NamesDistinct(bag: multiset<string>, keys: set<string>)
    requires bag == multiset(keys)
    ensures forall i, j :: 0 <= i < j < |Arrange(bag)| ==> Arrange(bag)[i] != Arrange(bag)[j]
    ensures forall k :: k in keys <==> k in Arrange(bag)
  {
    var s := Arrange(bag);
    assert forall k :: k in keys <==> k in multiset(s);
    forall i, j | 0 <= i < j < |s| ensures s[i] != s[j] {
      if s[i] == s[j] { TwiceCounts(s, i, j); }
    }
  }

  /** `ts` lists the values of `m`, each once. */
  ghost predicate Lists<T>(ts: seq<T>, m: map<string, T>, key: T -> string) {
    && DistinctBy(ts, key)
    && (forall i :: 0 <= i < |ts| ==> key(ts[i]) in m && m[key(ts[i])] == ts[i])
    && (forall k :: k in m ==> exists i :: 0 <= i < |ts| && key(ts[i]) == k)
  }

  lemma IndexOfList<T>(ts: seq<T>, m: map<string, T>, key: T -> string)
    requires DistinctBy(ts, key)
    ensures Lists(ts, m, key) <==> IndexBy(ts, key) == m
  {
    IndexIs(ts, key);
  }

  lemma InOrderLists<T>(m: map<string, T>, key: T -> string)
    requires KeyedBy(m, key)
    ensures Lists(InOrder(m), m, key)
  {
    var names, ts := Arrange(multiset(m.Keys)), InOrder(m);
    NamesDistinct(multiset(m.Keys), m.Keys);
    forall i | 0 <= i < |ts| ensures names[i] in m && ts[i] == m[names[i]] && key(ts[i]) == names[i] {
      assert names[i] in names;
    }
    forall k | k in m ensures exists i :: 0 <= i < |ts| && key(ts[i]) == k {
      var i :| 0 <= i < |names| && names[i] == k;
      assert key(ts[i]) == k;
    }
  }

  /** Listing a dictionary's values in order and indexing them again gives the dictionary. */
  lemma IndexOfInOrder<T>(m: map<string, T>, key: T -> string)
    requires KeyedBy(m, key)
    ensures DistinctBy(InOrder(m), key) && IndexBy(InOrder(m), key) == m
  {
    InOrderLists(m, key);
    IndexOfList(InOrder(m), m, key);
  }

  // ---- the whole document ----

  ghost predicate SoundPeople(members: map<MemberId, Member>, peers: map<PeerId, Peer>) {
    && KeyedBy(members, MemberKey) && KeyedBy(peers, PeerKey)
    && forall p :: p in peers ==> SoundPeer(peers[p]) && PeerKnown(peers[p], members)
  }

  predicate SoundAdmins(admins: seq<MemberId>, members: map<MemberId, Member>) {
    admins != [] && forall i :: 0 <= i < |admins| ==> admins[i] in members
  }

  /** A roster the parser can produce. */
  ghost predicate SoundRoster(r: Roster) {
    r.version >= 1 && SoundPeople(r.members, r.peers) && SoundAdmins(r.admins, r.members)
  }

  lemma AdminsAreMembers(j: Json, members: map<MemberId, Member>)
    requires ParseAdmins(j, members).Ok?
    ensures SoundAdmins(ParseAdmins(j, members).value, members)
    ensures ItemsOf(j) == Ok(Each(ParseAdmins(j, members).value, TextDoc))
  {
    var parse := (a: Json) => ParseAdmin(members, a);
    var items := ItemsOf(j).value;
    var admins := ParseEach(items, parse).value;
    forall i | 0 <= i < |admins| ensures admins[i] in members && items[i] == TextDoc(admins[i]) {
      assert parse(items[i]) == Ok(admins[i]);
    }
    assert items == Each(admins, TextDoc);
  }

  lemma AllPeersSound(items: seq<Json>, members: map<MemberId, Member>)
    requires ParseEach(items, ParsePeer).Ok? && DistinctBy(ParseEach(items, ParsePeer).value, PeerKey)
    requires AllKnown(ParseEach(items, ParsePeer).value, members)
    ensures var m := IndexBy(ParseEach(items, ParsePeer).value, PeerKey);
            KeyedBy(m, PeerKey) && forall p :: p in m ==> SoundPeer(m[p]) && PeerKnown(m[p], members)
  {
    var ps := ParseEach(items, ParsePeer).value;
    var m := IndexBy(ps, PeerKey);
    IndexIs(ps, PeerKey);
    forall p | p in m ensures PeerKey(m[p]) == p && SoundPeer(m[p]) && PeerKnown(m[p], members) {
      var i :| 0 <= i < |ps| && PeerKey(ps[i]) == p;
      assert ParsePeer(items[i]) == Ok(ps[i]);
      ParsePeerWellFormed(items[i]);
    }
  }

  lemma AllMembersKeyed(ms: seq<Member>)
    requires DistinctBy(ms, MemberKey)
    ensures KeyedBy(IndexBy(ms, MemberKey), MemberKey)
  {
    IndexIs(ms, MemberKey);
  }

  lemma PeopleAreSound(doc: map<string, Json>)
    requires ParsePeople(doc).Ok?
    ensures SoundPeople(ParsePeople(doc).value.members, ParsePeople(doc).value.peers)
  {
    var members := ParseEach(ItemsOf(Get(doc, "members", Arr([]))).value, ParseMember).value;
    AllMembersKeyed(members);
    AllPeersSound(ItemsOf(Get(doc, "peers", Arr([]))).value, IndexBy(members, MemberKey));
  }

  /** What acceptance establishes about a roster. */
  lemma ParseIsSound(j: Json)
    requires Parse(j).Ok?
    ensures SoundRoster(Parse(j).value)
  {
    PeopleAreSound(j.fields);
    AdminsAreMembers(Get(j.fields, "admins", Arr([])), ParsePeople(j.fields).value.members);
  }

  lemma DictNames(r: Roster)
    ensures var d := ToDict(r).fields;
            && Get(d, "v", Null) == Int(1) && Get(d, "roster_version", Null) == Int(r.version)
            && Get(d, "federation_id", Null) == Str(r.federationId) && Get(d, "updated", Str("")) == r.updated
            && Get(d, "signatures", Arr([])) == Arr(r.signatures)
  {
  }

  lemma DictLists(r: Roster)
    ensures var d := ToDict(r).fields;
            && Get(d, "members", Arr([])) == Arr(Each(InOrder(r.members), MemberDoc))
            && Get(d, "peers", Arr([])) == Arr(Each(InOrder(r.peers), PeerDoc))
            && Get(d, "admins", Arr([])) == Arr(Each(Arrange(multiset(r.admins)), TextDoc))
  {
  }

  lemma MembersReadBack(ms: seq<Member>)
    ensures ParseEach(Each(ms, MemberDoc), ParseMember) == Ok(ms)
  {
    forall i | 0 <= i < |ms| ensures ParseMember(MemberDoc(ms[i])) == Ok(ms[i]) { MemberReadsBack(ms[i]); }
    EachReadsBack(ms, MemberDoc, ParseMember);
  }

  lemma PeersReadBack(ps: seq<Peer>)
    requires forall i :: 0 <= i < |ps| ==> SoundPeer(ps[i])
    ensures ParseEach(Each(ps, PeerDoc), ParsePeer) == Ok(ps)
  {
    forall i | 0 <= i < |ps| ensures ParsePeer(PeerDoc(ps[i])) == Ok(ps[i]) { PeerReadsBack(ps[i]); }
    EachReadsBack(ps, PeerDoc, ParsePeer);
  }

  lemma AdminsReadBack(admins: seq<MemberId>, members: map<MemberId, Member>)
    requires SoundAdmins(admins, members)
    ensures ParseAdmins(Arr(Each(admins, TextDoc)), members) == Ok(admins)
  {
    var parse := (a: Json) => ParseAdmin(members, a);
    forall i | 0 <= i < |admins| ensures parse(TextDoc(admins[i])) == Ok(admins[i]) {}
    EachReadsBack(admins, TextDoc, parse);
  }

  lemma PeopleFrom(d: map<string, Json>, memberItems: seq<Json>, peerItems: seq<Json>, ms: seq<Member>, ps: seq<Peer>)
    requires Get(d, "members", Arr([])) == Arr(memberItems) && ParseEach(memberItems, ParseMember) == Ok(ms)
    requires Get(d, "peers", Arr([])) == Arr(peerItems) && ParseEach(peerItems, ParsePeer) == Ok(ps)
    requires DistinctBy(ms, MemberKey) && DistinctBy(ps, PeerKey) && AllKnown(ps, IndexBy(ms, MemberKey))
    ensures ParsePeople(d) == Ok(People(IndexBy(ms, MemberKey), IndexBy(ps, PeerKey)))
  {
  }

  lemma PeopleReadBack(d: map<string, Json>, r: Roster)
    requires SoundPeople(r.members, r.peers)
    requires Get(d, "members", Arr([])) == Arr(Each(InOrder(r.members), MemberDoc))
    requires Get(d, "peers", Arr([])) == Arr(Each(InOrder(r.peers), PeerDoc))
    ensures ParsePeople(d) == Ok(People(r.members, r.peers))
  {
    PeersInOrderSound(r);
    MembersReadBack(InOrder(r.members));
    PeersReadBack(InOrder(r.peers));
    IndexOfInOrder(r.members, MemberKey);
    IndexOfInOrder(r.peers, PeerKey);
    PeopleFrom(d, Each(InOrder(r.members), MemberDoc), Each(InOrder(r.peers), PeerDoc), InOrder(r.members), InOrder(r.peers));
  }

  lemma ListedSound(ps: seq<Peer>, members: map<MemberId, Member>, peers: map<PeerId, Peer>)
    requires Lists(ps, peers, PeerKey) && SoundPeople(members, peers)
    ensures AllKnown(ps, members) && forall i :: 0 <= i < |ps| ==> SoundPeer(ps[i])
  {
    forall i | 0 <= i < |ps| ensures SoundPeer(ps[i]) && PeerKnown(ps[i], members) {
      assert PeerKey(ps[i]) in peers && peers[PeerKey(ps[i])] == ps[i];
    }
  }

  lemma PeersInOrderSound(r: Roster)
    requires SoundPeople(r.members, r.peers)
    ensures AllKnown(InOrder(r.peers), r.members)
    ensures forall i :: 0 <= i < |InOrder(r.peers)| ==> SoundPeer(InOrder(r.peers)[i])
  {
    InOrderLists(r.peers, PeerKey);
    ListedSound(InOrder(r.peers), r.members, r.peers);
  }

  lemma ArrangeHas(admins: seq<string>)
    ensures |Arrange(multiset(admins))| == |admins|
    ensures forall x :: x in Arrange(multiset(admins)) <==> x in admins
  {
    var sorted := Arrange(multiset(admins));
    assert |multiset(sorted)| == |admins|;
    assert forall x :: x in sorted <==> x in multiset(sorted);
    assert forall x :: x in admins <==> x in multiset(admins);
  }

  lemma ByMembership(admins: seq<MemberId>, members: map<MemberId, Member>)
    ensures SoundAdmins(admins, members) <==> |admins| > 0 && forall x :: x in admins ==> x in members
  {
  }

  lemma ArrangeSoundly(admins: seq<MemberId>, members: map<MemberId, Member>)
    ensures SoundAdmins(admins, members) <==> SoundAdmins(Arrange(multiset(admins)), members)
  {
    ArrangeHas(admins);
    ByMembership(admins, members);
    ByMembership(Arrange(multiset(admins)), members);
  }

  function WithAdmins(r: Roster, admins: seq<MemberId>): Roster {
    r.(admins := admins)
  }

  /** A document reads as `r` when each of its parts does. */
  ghost predicate PartsRead(d: map<string, Json>, r: Roster) {
    && Get(d, "v", Null) == Int(1) && Get(d, "roster_version", Null) == Int(r.version) && r.version >= 1
    && Get(d, "federation_id", Null) == Str(r.federationId) && Get(d, "updated", Str("")) == r.updated
    && ItemsOf(Get(d, "signatures", Arr([]))) == Ok(r.signatures)
    && ParsePeople(d) == Ok(People(r.members, r.peers))
    && ParseAdmins(Get(d, "admins", Arr([])), r.members) == Ok(r.admins)
  }

  lemma PartsReadBack(d: map<string, Json>, r: Roster)
    requires PartsRead(d, r)
    ensures Parse(Obj(d)) == Ok(r)
  {
  }

  lemma PartsOf(d: map<string, Json>, r: Roster)
    requires Parse(Obj(d)) == Ok(r)
    ensures PartsRead(d, r)
  {
  }

  /** `d` says all there is to say about `r`. */
  ghost predicate Describes(d: map<string, Json>, r: Roster) {
    && Get(d, "v", Null) == Int(1) && Get(d, "roster_version", Null) == Int(r.version)
    && Get(d, "federation_id", Null) == Str(r.federationId) && Get(d, "updated", Str("")) == r.updated
    && Get(d, "signatures", Arr([])) == Arr(r.signatures)
    && Get(d, "members", Arr([])) == Arr(Each(InOrder(r.members), MemberDoc))
    && Get(d, "peers", Arr([])) == Arr(Each(InOrder(r.peers), PeerDoc))
    && Get(d, "admins", Arr([])) == Arr(Each(r.admins, TextDoc))
  }

  lemma DescriptionReads(d: map<string, Json>, r: Roster)
    requires SoundRoster(r) && Describes(d, r)
    ensures Parse(Obj(d)) == Ok(r)
  {
    PeopleReadBack(d, r);
    AdminsReadBack(r.admins, r.members);
    PartsReadBack(d, r);
  }

  lemma SoundReadsBack(r: Roster)
    requires SoundRoster(r)
    ensures Parse(ToDict(r)) == Ok(WithAdmins(r, Arrange(multiset(r.admins))))
  {
    DictNames(r);
    DictLists(r);
    ArrangeSoundly(r.admins, r.members);
    DescriptionReads(ToDict(r).fields, WithAdmins(r, Arrange(multiset(r.admins))));
  }

  /**
   Written out and read back, every roster the parser accepts is itself, with its administrators in
   order; and no other roster survives the trip.
   */
  lemma RoundTrip(r: Roster)
    ensures Parse(ToDict(r)) == Ok(WithAdmins(r, Arrange(multiset(r.admins)))) <==> SoundRoster(r)
  {
    if SoundRoster(r) { SoundReadsBack(r); }
    if Parse(ToDict(r)) == Ok(WithAdmins(r, Arrange(multiset(r.admins)))) {
      ParseIsSound(ToDict(r));
      ArrangeSoundly(r.admins, r.members);
    }
  }

  lemma ParsedRoundTrip(j: Json)
    requires Parse(j).Ok?
    ensures var r := Parse(j).value; Parse(ToDict(r)) == Ok(WithAdmins(r, Arrange(multiset(r.admins))))
  {
    ParseIsSound(j);
    RoundTrip(Parse(j).value);
  }

  /** What is signed pins down the roster: equal bodies mean equal rosters, but for signatures and the order of administrators. */
  lemma BodyDetermines(r: Roster, r': Roster)
    requires SoundRoster(r) && SoundRoster(r') && Body(r) == Body(r')
    ensures r' == r.(admins := r'.admins, signatures := r'.signatures) && multiset(r.admins) == multiset(r'.admins)
  {
    var a, b := r.(signatures := []), r'.(signatures := []);
    assert Body(a) == Body(r) && Body(b) == Body(r');
    SoundReadsBack(a);
    SoundReadsBack(b);
    assert Arrange(multiset(a.admins)) == Arrange(multiset(b.admins));
  }
}
