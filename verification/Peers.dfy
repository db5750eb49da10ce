/** Roster entries as the rest of the coordinator sees them, and the split of a peer's residency. */
module Peers {
  type MemberId = string
  type PeerId = string

  /** A JSON value; object key order carries no meaning. */
  datatype Json =
    | Null
    | Bool(b: bool)
    | Int(i: int)
    | Real(r: real)
    | Str(s: string)
    | Arr(items: seq<Json>)
    | Obj(fields: map<string, Json>)

  function Get(d: map<string, Json>, key: string, absent: Json): Json {
    if key in d then d[key] else absent
  }

  datatype Contribution = Contribution(member: MemberId, gb: real)

  datatype Peer = Peer(
    id: PeerId,
    owner: MemberId,
    encPub: string,
    endpoint: string,
    model: string,
    engine: Json,
    engineVersion: Json,
    hwClass: Json,
    capacityGb: real,
    maxConcurrent: int,
    availability: Json,
    shards: seq<Json>,
    attestation: Json,
    contributors: seq<Contribution>)

  datatype Share = Share(member: MemberId, gb: real)

  function SumGb(cs: seq<Contribution>): real {
    if cs == [] then 0.0 else SumGb(cs[..|cs| - 1]) + cs[|cs| - 1].gb
  }

  function SumShares(ss: seq<Share>): real {
    if ss == [] then 0.0 else SumShares(ss[..|ss| - 1]) + ss[|ss| - 1].gb
  }

  function ShareOf(c: Contribution, residentGb: real, total: real): Share
    requires total != 0.0
  {
    Share(c.member, residentGb * c.gb / total)
  }

  function CreditSplit(p: Peer, residentGb: real): seq<Share> {
    var total := SumGb(p.contributors);
    if p.contributors == [] then
      [Share(p.owner, residentGb)]
    else if total <= 0.0 then
      []
    else
      seq(|p.contributors|, i requires 0 <= i < |p.contributors| =>
        ShareOf(p.contributors[i], residentGb, total))
  }

  predicate DistinctMembers(cs: seq<Contribution>) {
    forall i, j :: 0 <= i < j < |cs| ==> cs[i].member != cs[j].member
  }

  /** What `Peer.from_dict` establishes about an entry (see Roster.ParsePeerWellFormed). */
  predicate WellFormedPeer(p: Peer) {
    && p.maxConcurrent >= 1
    && DistinctMembers(p.contributors)
    && forall i :: 0 <= i < |p.contributors| ==> p.contributors[i].gb > 0.0
  }

  predicate NamedBy(cs: seq<Contribution>, m: MemberId) {
    exists i :: 0 <= i < |cs| && cs[i].member == m
  }

  predicate Contributes(p: Peer, m: MemberId) {
    NamedBy(p.contributors, m)
  }

  /** The share the roster declares for `m`: the first entry naming it, if any. */
  function DeclaredFrom(cs: seq<Contribution>, m: MemberId): (gb: real)
  {
    if cs == [] then 0.0 else if cs[0].member == m then cs[0].gb else DeclaredFrom(cs[1..], m)
  }

  function Declared(p: Peer, m: MemberId): real {
    DeclaredFrom(p.contributors, m)
  }

  lemma {:induction false} DeclaredIs(cs: seq<Contribution>, i: nat)
    requires i < |cs| && DistinctMembers(cs)
    ensures DeclaredFrom(cs, cs[i].member) == cs[i].gb
  {
    if i > 0 {
      DeclaredIs(cs[1..], i - 1);
    }
  }

  lemma {:induction false} SumGbPositive(cs: seq<Contribution>)
    requires forall i :: 0 <= i < |cs| ==> cs[i].gb > 0.0
    ensures SumGb(cs) >= 0.0 && (cs != [] ==> SumGb(cs) > 0.0)
    ensures forall i :: 0 <= i < |cs| ==> cs[i].gb <= SumGb(cs)
  {
    if cs != [] {
      SumGbPositive(cs[..|cs| - 1]);
    }
  }

  lemma TimesOver(x: real, t: real)
    requires t != 0.0
    ensures x * t / t == x
  {
  }

  lemma OverSum(x: real, y: real, t: real)
    requires t != 0.0
    ensures x / t + y / t == (x + y) / t
  {
  }

  lemma OneMoreShare(gb: real, x: real, y: real, sum: real, total: real)
    requires total > 0.0 && sum == x + y
    ensures gb * x / total + gb * y / total == gb * sum / total
  {
    assert gb * x + gb * y == gb * sum;
    OverSum(gb * x, gb * y, total);
  }

  lemma {:induction false} SplitSum(cs: seq<Contribution>, ss: seq<Share>, gb: real, sum: real, total: real)
    requires |cs| == |ss| && total > 0.0 && sum == SumGb(cs)
    requires forall i :: 0 <= i < |cs| ==> ss[i] == ShareOf(cs[i], gb, total)
    ensures SumShares(ss) == gb * sum / total
  {
    if cs != [] {
      var n := |cs| - 1;
      var before := SumGb(cs[..n]);
      SplitSum(cs[..n], ss[..n], gb, before, total);
      OneMoreShare(gb, before, cs[n].gb, sum, total);
    }
  }

  /** Dividing residency neither creates nor loses any: the shares sum to what was reported. */
  lemma SplitConserves(p: Peer, gb: real)
    requires WellFormedPeer(p)
    ensures SumShares(CreditSplit(p, gb)) == gb
  {
    if p.contributors == [] {
      var one := CreditSplit(p, gb);
      assert one[..0] == [];
    } else {
      var total := SumGb(p.contributors);
      SumGbPositive(p.contributors);
      SplitSum(p.contributors, CreditSplit(p, gb), gb, total, total);
      TimesOver(gb, total);
    }
  }

  lemma SplitMembers(p: Peer, gb: real)
    requires WellFormedPeer(p)
    ensures var ss := CreditSplit(p, gb);
            && (forall i, j :: 0 <= i < j < |ss| ==> ss[i].member != ss[j].member)
            && (gb > 0.0 ==> forall i :: 0 <= i < |ss| ==> ss[i].gb > 0.0)
            && (forall i :: 0 <= i < |ss| ==>
                  if p.contributors == [] then ss[i] == Share(p.owner, gb)
                  else SumGb(p.contributors) > 0.0 && i < |p.contributors|
                       && ss[i] == ShareOf(p.contributors[i], gb, SumGb(p.contributors)))
  {
    SumGbPositive(p.contributors);
    if p.contributors != [] && gb > 0.0 {
      forall c: Contribution | c.gb > 0.0
        ensures ShareOf(c, gb, SumGb(p.contributors)).gb > 0.0
      {
        QuotientPositive(gb * c.gb, SumGb(p.contributors));
      }
    }
  }

  lemma QuotientPositive(x: real, d: real)
    requires x > 0.0 && d > 0.0
    ensures x / d > 0.0
  {
  }
}
