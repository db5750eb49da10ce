/** The roster document: what is accepted, what it comes to, and what is written back. */
module Roster {
  import opened Wrappers
  import opened Peers
  import opened TextOrder

  /** A refusal the parser makes, or an exception it does not mean to raise. */
  datatype Flaw = Rejected(field: string) | Crashes

  datatype Member = Member(id: MemberId, signPub: string, encPub: string, role: Json, joined: Json)

  datatype Roster = Roster(
    federationId: string,
    version: int,
    updated: Json,
    admins: seq<MemberId>,
    members: map<MemberId, Member>,
    peers: map<PeerId, Peer>,
    signatures: seq<Json>)

  // ---- reading ----

  function RequireText(d: map<string, Json>, key: string): Result<string, Flaw> {
    if Get(d, key, Null).Str? then Ok(d[key].s) else Err(Rejected(key))
  }

  function RequirePositive(j: Json, key: string): Result<int, Flaw> {
    if j.Int? && j.i >= 1 then Ok(j.i) else Err(Rejected(key))
  }

  predicate IsNumber(j: Json) {
    j.Int? || j.Real?
  }

  function AsReal(j: Json): real
    requires IsNumber(j)
  {
    if j.Int? then j.i as real else j.r
  }

  predicate Truthy(j: Json) {
    match j
    case Null => false
    case Bool(b) => b
    case Int(i) => i != 0
    case Real(r) => r != 0.0
    case Str(s) => s != ""
    case Arr(items) => items != []
    case Obj(fields) => fields != map[]
  }

  function Each<S, T>(s: seq<S>, f: S -> T): seq<T> {
    seq(|s|, i requires 0 <= i < |s| => f(s[i]))
  }

  function TextDoc(s: string): Json { Str(s) }

  /** What iterating gives: a list's items, a text's characters, or an object's keys, here in name order. */
  ghost function ItemsOf(j: Json): Result<seq<Json>, Flaw> {
    match j
    case Arr(items) => Ok(items)
    case Str(s) => Ok(Each(s, (c: char) => Str([c])))
    case Obj(fields) => Ok(Each(Arrange(multiset(fields.Keys)), TextDoc))
    case _ => Err(Crashes)
  }

  /** Read each item in turn; the first that cannot be read stops the parse. */
  function ParseEach<T>(items: seq<Json>, parse: Json -> Result<T, Flaw>): (r: Result<seq<T>, Flaw>)
    ensures r.Ok? ==> |r.value| == |items|
    ensures r.Ok? <==> forall i :: 0 <= i < |items| ==> parse(items[i]).Ok?
    ensures r.Ok? ==> forall i :: 0 <= i < |items| ==> parse(items[i]) == Ok(r.value[i])
  {
    if items == [] then Ok([])
    else
      var before :- ParseEach(items[..|items| - 1], parse);
      var last :- parse(items[|items| - 1]);
      Ok(before + [last])
  }

  predicate DistinctBy<T>(ts: seq<T>, key: T -> string) {
    forall i, j :: 0 <= i < j < |ts| ==> key(ts[i]) != key(ts[j])
  }

  function IndexBy<T>(ts: seq<T>, key: T -> string): map<string, T> {
    if ts == [] then map[] else IndexBy(ts[..|ts| - 1], key)[key(ts[|ts| - 1]) := ts[|ts| - 1]]
  }

  function ParseMember(j: Json): Result<Member, Flaw> {
    if !j.Obj? then Err(Crashes)
    else
      var d := j.fields;
      var id :- RequireText(d, "id");
      var signPub :- RequireText(d, "sign_pub");
      var encPub :- RequireText(d, "enc_pub");
      Ok(Member(id, signPub, encPub, Get(d, "role", Str("member")), Get(d, "joined", Str(""))))
  }

  function ParseContribution(j: Json): Result<Contribution, Flaw> {
    if !j.Obj? then Err(Rejected("contributors"))
    else
      var member :- RequireText(j.fields, "member");
      var gb := Get(j.fields, "gb", Null);
      if IsNumber(gb) && AsReal(gb) > 0.0 then Ok(Contribution(member, AsReal(gb))) else Err(Rejected("gb"))
  }

  const TOLERANCE := 0.01

  predicate Near(a: real, b: real) {
    a - b <= TOLERANCE && b - a <= TOLERANCE
  }

  /** Shares fix the capacity unless a non-zero one is declared, which must then agree with them. */
  function ParseCapacity(declared: Json, cs: seq<Contribution>): Result<real, Flaw> {
    if declared != Null && !IsNumber(declared) then Err(Rejected("capacity_gb"))
    else if cs != [] && (declared == Null || AsReal(declared) == 0.0) then Ok(SumGb(cs))
    else
      var capacity := if declared == Null then 0.0 else AsReal(declared);
      if cs != [] && !Near(capacity, SumGb(cs)) then Err(Rejected("capacity_gb")) else Ok(capacity)
  }

  function ParseContributors(j: Json): Result<seq<Contribution>, Flaw> {
    if !Truthy(j) then Ok([])
    else if !j.Arr? then Err(Rejected("contributors"))
    else
      var cs :- ParseEach(j.items, ParseContribution);
      if DistinctBy(cs, (c: Contribution) => c.member) then Ok(cs) else Err(Rejected("contributors"))
  }

  ghost function ParsePeer(j: Json): Result<Peer, Flaw> {
    if !j.Obj? then Err(Crashes)
    else
      var d := j.fields;
      var id :- RequireText(d, "id");
      var maxConcurrent :- RequirePositive(Get(d, "max_concurrent", Int(1)), "max_concurrent");
      var contributors :- ParseContributors(Get(d, "contributors", Null));
      var capacity :- ParseCapacity(Get(d, "capacity_gb", Null), contributors);
      var owner :- RequireText(d, "owner");
      var encPub :- RequireText(d, "enc_pub");
      var endpoint :- RequireText(d, "endpoint");
      var model :- RequireText(d, "model");
      var shards :- ItemsOf(Get(d, "shards", Arr([])));
      Ok(Peer(id, owner, encPub, endpoint, model, Get(d, "engine", Str("unknown")), Get(d, "engine_version", Str("unknown")),
              Get(d, "hw_class", Str("unknown")), capacity, maxConcurrent, Get(d, "availability", Null), shards,
              Get(d, "attestation", Null), contributors))
  }

  predicate PeerKnown(p: Peer, members: map<MemberId, Member>) {
    p.owner in members && forall i :: 0 <= i < |p.contributors| ==> p.contributors[i].member in members
  }

  predicate AllKnown(ps: seq<Peer>, members: map<MemberId, Member>) {
    forall i :: 0 <= i < |ps| ==> PeerKnown(ps[i], members)
  }

  /** An administrator is the name of a member; an object or list in the place of a name cannot even be looked up. */
  function ParseAdmin(members: map<MemberId, Member>, j: Json): Result<MemberId, Flaw> {
    if j.Arr? || j.Obj? then Err(Crashes)
    else if j.Str? && j.s in members then Ok(j.s)
    else Err(Rejected("admins"))
  }

  datatype People = People(members: map<MemberId, Member>, peers: map<PeerId, Peer>)

  ghost function ParsePeople(doc: map<string, Json>): Result<People, Flaw> {
    var memberItems :- ItemsOf(Get(doc, "members", Arr([])));
    var members :- ParseEach(memberItems, ParseMember);
    var peerItems :- ItemsOf(Get(doc, "peers", Arr([])));
    var peers :- ParseEach(peerItems, ParsePeer);
    if !DistinctBy(members, MemberKey) then Err(Rejected("members"))
    else if !DistinctBy(peers, PeerKey) then Err(Rejected("peers"))
    else if !AllKnown(peers, IndexBy(members, MemberKey)) then Err(Rejected("owner"))
    else Ok(People(IndexBy(members, MemberKey), IndexBy(peers, PeerKey)))
  }

  ghost function ParseAdmins(j: Json, members: map<MemberId, Member>): Result<seq<MemberId>, Flaw> {
    var items :- ItemsOf(j);
    var admins :- ParseEach(items, (a: Json) => ParseAdmin(members, a));
    if admins == [] then Err(Rejected("admins")) else Ok(admins)
  }

  ghost function Parse(j: Json): Result<Roster, Flaw> {
    if !j.Obj? then Err(Rejected("roster"))
    else
      var doc := j.fields;
      if Get(doc, "v", Null) != Int(1) then Err(Rejected("v"))
      else
        var version :- RequirePositive(Get(doc, "roster_version", Null), "roster_version");
        var people :- ParsePeople(doc);
        var admins :- ParseAdmins(Get(doc, "admins", Arr([])), people.members);
        var federationId :- RequireText(doc, "federation_id");
        var signatures :- ItemsOf(Get(doc, "signatures", Arr([])));
        Ok(Roster(federationId, version, Get(doc, "updated", Str("")), admins, people.members, people.peers, signatures))
  }

  function MemberKey(m: Member): string { m.id }

  function PeerKey(p: Peer): string { p.id }

  // ---- writing ----

  function MemberDoc(m: Member): Json {
    Obj(map["id" := Str(m.id), "sign_pub" := Str(m.signPub), "enc_pub" := Str(m.encPub), "role" := m.role, "joined" := m.joined])
  }

  function ContributionDoc(c: Contribution): Json {
    Obj(map["member" := Str(c.member), "gb" := Real(c.gb)])
  }

  /** Contributors are left out when there are none. */
  function PeerDoc(p: Peer): Json {
    var d := map["id" := Str(p.id), "owner" := Str(p.owner), "enc_pub" := Str(p.encPub), "endpoint" := Str(p.endpoint),
                 "model" := Str(p.model), "engine" := p.engine, "engine_version" := p.engineVersion, "hw_class" := p.hwClass,
                 "capacity_gb" := Real(p.capacityGb), "max_concurrent" := Int(p.maxConcurrent),
                 "availability" := p.availability, "shards" := Arr(p.shards), "attestation" := p.attestation];
    Obj(if p.contributors == [] then d
        else d["contributors" := Arr(Each(p.contributors, ContributionDoc))])
  }

  function At<T>(m: map<string, T>, names: seq<string>): seq<T>
    requires forall i :: 0 <= i < |names| ==> names[i] in m
  {
    seq(|names|, i requires 0 <= i < |names| => m[names[i]])
  }

  /** The values of a dictionary, in the order of their names. */
  ghost function InOrder<T>(m: map<string, T>): (ts: seq<T>) {
    var names := Arrange(multiset(m.Keys));
    assert forall i :: 0 <= i < |names| ==> names[i] in multiset(names);
    At(m, names)
  }

  /** What administrators sign: everything but the signatures, each list in a fixed order. */
  ghost function Body(r: Roster): map<string, Json> {
    map["v" := Int(1), "federation_id" := Str(r.federationId), "roster_version" := Int(r.version), "updated" := r.updated,
        "admins" := Arr(Each(Arrange(multiset(r.admins)), TextDoc)),
        "members" := Arr(Each(InOrder(r.members), MemberDoc)),
        "peers" := Arr(Each(InOrder(r.peers), PeerDoc))]
  }

  ghost function ToDict(r: Roster): Json {
    Obj(Body(r)["signatures" := Arr(r.signatures)])
  }
}
