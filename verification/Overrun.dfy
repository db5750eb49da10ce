/** A run in which expiry reclaims a lease whose relay is still streaming, so a peer runs two at once. */
module Overrun {
  import opened Wrappers
  import opened Peers
  import opened Ledgers
  import opened Registry
  import opened WaitHeap
  import opened Scheduler
  import opened Slots
  import opened Coordinator
  import opened RelayLaws

  /** A peer that takes one request at a time, with leases of five seconds. */
  function OneAtATime(p: Peer): Config {
    Config(map["p" := p], ["p"], 10.0, 5.0, 8)
  }

  predicate SingleSlot(p: Peer) {
    p.id == "p" && p.owner == "owner" && p.model == "m" && p.contributors == [] && p.maxConcurrent == 1
  }

  function Requests(d: Detail): seq<Request> {
    [HeartbeatFrom("owner", "p", 0.0, 0.0, 0.0, true, d),
     LeaseFor("alice", "m", 0.0), InferFor(0, "alice", 1.0), RelayStarts(0),
     LeaseFor("bob", "m", 6.0), InferFor(1, "bob", 6.0), RelayStarts(1)]
  }

  /** The peer is up with `n` slots in use, and nothing else is recorded. */
  function Up(n: int, d: Detail): Reg {
    EMPTY.(states := map["p" := PeerState(0.0, 0.0, n, true, 0, d, 0.0)])
  }

  function Idle(n: int, d: Detail, leases: seq<Lease>, redeemed: set<RequestId>, issued: seq<Lease>): Sched {
    Sched(Up(n, d), leases, redeemed, [], map[], 0, issued)
  }

  const FIRST := Lease(0, "alice", "p", 5.0)
  const SECOND := Lease(1, "bob", "p", 11.0)

  lemma BeatArrives(p: Peer, d: Detail)
    requires SingleSlot(p)
    ensures Handle(OneAtATime(p), BOOT, Requests(d)[0]) == BOOT.(sched := Idle(0, d, [], {}, []))
  {
  }

  lemma Observed(p: Peer, s: Sched)
    requires "p" in s.reg.states
    ensures Observe(OneAtATime(p), s) == s
  {
    var cfg := OneAtATime(p);
    assert cfg.order[..0] == [];
    assert LookAll(cfg, s.reg, []) == s.reg;
  }

  lemma PickIs(p: Peer, d: Detail, now: real)
    requires SingleSlot(p) && now <= 10.0
    ensures Pick(OneAtATime(p), Up(0, d).states, "m", now) == Some("p")
    ensures AnyLive(OneAtATime(p), Up(0, d).states, "m", now)
  {
    var cfg := OneAtATime(p);
    assert cfg.order[..0] == [];
    assert Offers(cfg, Up(0, d).states, cfg.order[0], "m", now);
    assert PickFrom(cfg, Up(0, d).states, "m", now, []) == None;
  }

  lemma Grants(p: Peer, d: Detail, issued: seq<Lease>, member: MemberId, now: real)
    requires SingleSlot(p) && now <= 10.0
    ensures var l := Lease(|issued|, member, "p", now + 5.0);
            Acquire(OneAtATime(p), Idle(0, d, [], {}, issued), member, "m", now) == Idle(1, d, [l], {}, issued + [l])
    ensures AcquireOutcome(OneAtATime(p), Idle(0, d, [], {}, issued), member, "m", now).Granted?
  {
    PickIs(p, d, now);
  }

  lemma OnlyOneStale()
    ensures StaleIds([FIRST], 6.0) == [0]
  {
    assert [FIRST][..0] == [] && StaleIds([], 6.0) == [];
  }

  lemma GivesBack(d: Detail)
    ensures GiveBack(Idle(1, d, [FIRST], {0}, [FIRST]), 0) == Idle(0, d, [], {}, [FIRST])
  {
    assert {0} - {0} == {};
  }

  lemma ReleasesOne(cfg: Config, s: Sched)
    requires GiveBack(s, 0).waiting == []
    ensures ReleaseAll(cfg, s, [0], 6.0) == GiveBack(s, 0)
  {
    assert [0][..0] == [] && ReleaseAll(cfg, s, [], 6.0) == s;
    var mid := GiveBack(s, 0);
    assert ServeAll(cfg, mid.(waiting := []), [], 6.0) == mid;
  }

  /** The expired lease goes, although its relay is still running. */
  lemma Reclaims(p: Peer, d: Detail)
    requires SingleSlot(p)
    ensures ExpireStale(OneAtATime(p), Idle(1, d, [FIRST], {0}, [FIRST]), 6.0) == Idle(0, d, [], {}, [FIRST])
  {
    var cfg, s := OneAtATime(p), Idle(1, d, [FIRST], {0}, [FIRST]);
    OnlyOneStale();
    GivesBack(d);
    ReleasesOne(cfg, s);
  }

  /** Alice's lease is granted; then it is redeemed by her and its relay has begun. */
  function AliceLeased(d: Detail): Coord {
    Coord(Idle(1, d, [FIRST], {}, [FIRST]), map[], map[], [])
  }

  function AliceRelayed(d: Detail): Coord {
    Coord(Idle(1, d, [FIRST], {0}, [FIRST]), map[], map[0 := Stream("alice", "p")], [Redemption(0, "alice")])
  }

  lemma FirstLeaseGranted(p: Peer, d: Detail)
    requires SingleSlot(p)
    ensures Serve(OneAtATime(p), Requests(d)[..2]) == AliceLeased(d)
  {
    var cfg, qs := OneAtATime(p), Requests(d);
    NextRequest(cfg, qs, 0);
    NextRequest(cfg, qs, 1);
    BeatArrives(p, d);
    var s := Idle(0, d, [], {}, []);
    assert StaleIds([], 0.0) == [] && ReleaseAll(cfg, s, [], 0.0) == s;
    Grants(p, d, [], "alice", 0.0);
    Observed(p, Idle(1, d, [FIRST], {}, [FIRST]));
  }

  /** Redeeming the one lease there is, and then starting its relay. */
  lemma RedeemsAndStarts(p: Peer, d: Detail, c: Coord, l: Lease, now: real)
    requires SingleSlot(p) && l.peer == "p" && now <= l.expiresAt && l.id !in c.accepted
    requires c.sched == Idle(1, d, [l], {}, c.sched.issued)
    ensures var cfg, st := OneAtATime(p), Stream(l.member, "p");
            Handle(cfg, Handle(cfg, c, InferFor(l.id, l.member, now)), RelayStarts(l.id)) ==
            Coord(Idle(1, d, [l], {l.id}, c.sched.issued), c.accepted, c.running[l.id := st],
                  c.redemptions + [Redemption(l.id, l.member)])
  {
    var cfg := OneAtATime(p);
    Observed(p, Idle(1, d, [l], {l.id}, c.sched.issued));
    assert c.accepted[l.id := Stream(l.member, "p")] - {l.id} == c.accepted;
  }

  lemma AliceRedeems(p: Peer, d: Detail)
    requires SingleSlot(p)
    ensures var cfg := OneAtATime(p);
            Handle(cfg, Handle(cfg, AliceLeased(d), InferFor(0, "alice", 1.0)), RelayStarts(0)) == AliceRelayed(d)
  {
    RedeemsAndStarts(p, d, AliceLeased(d), FIRST, 1.0);
  }

  lemma FirstRelayRuns(p: Peer, d: Detail)
    requires SingleSlot(p)
    ensures Serve(OneAtATime(p), Requests(d)[..4]) == AliceRelayed(d)
  {
    var cfg, qs := OneAtATime(p), Requests(d);
    FirstLeaseGranted(p, d);
    NextRequest(cfg, qs, 2);
    NextRequest(cfg, qs, 3);
    AliceRedeems(p, d);
  }

  lemma SecondLeaseGranted(p: Peer, d: Detail, c: Coord)
    requires SingleSlot(p) && c.sched == Idle(1, d, [FIRST], {0}, [FIRST])
    ensures Handle(OneAtATime(p), c, LeaseFor("bob", "m", 6.0)) == c.(sched := Idle(1, d, [SECOND], {}, [FIRST, SECOND]))
  {
    Reclaims(p, d);
    Grants(p, d, [FIRST], "bob", 6.0);
    assert [FIRST] + [SECOND] == [FIRST, SECOND];
    Observed(p, Idle(1, d, [SECOND], {}, [FIRST, SECOND]));
  }

  lemma SecondRelayRuns(p: Peer, d: Detail)
    requires SingleSlot(p)
    ensures Serve(OneAtATime(p), Requests(d)[..7]).running == map[0 := Stream("alice", "p")][1 := Stream("bob", "p")]
  {
    var cfg, qs := OneAtATime(p), Requests(d);
    FirstRelayRuns(p, d);
    var c := Serve(cfg, qs[..4]);
    NextRequest(cfg, qs, 4);
    NextRequest(cfg, qs, 5);
    NextRequest(cfg, qs, 6);
    SecondLeaseGranted(p, d, c);
    RedeemsAndStarts(p, d, c.(sched := Idle(1, d, [SECOND], {}, [FIRST, SECOND])), SECOND, 6.0);
  }

  /** Two relays run on a peer that declares one slot: expiry does not spare a redeemed lease. */
  lemma ExpiryCanOverrun(p: Peer, d: Detail)
    requires SingleSlot(p)
    ensures WellFormed(OneAtATime(p)) && Timely(0.0, Requests(d)) && p.maxConcurrent == 1
    ensures RunningOn(Serve(OneAtATime(p), Requests(d)), "p") == {0, 1}
  {
    SecondRelayRuns(p, d);
    RequestsTimely(d);
    assert Requests(d)[..7] == Requests(d);
  }

  lemma RequestsTimely(d: Detail)
    ensures Timely(0.0, Requests(d))
  {
    var qs := Requests(d);
    assert qs[..7] == qs && qs[..0] == [];
    NextReading(0.0, qs, 0);
    NextReading(0.0, qs, 1);
    NextReading(0.0, qs, 2);
    NextReading(0.0, qs, 3);
    NextReading(0.0, qs, 4);
    NextReading(0.0, qs, 5);
    NextReading(0.0, qs, 6);
  }
}
