/** A run in which a newcomer is served before someone who has been waiting for the same model. */
module Overtaking {
  import opened Wrappers
  import opened Peers
  import opened Ledgers
  import opened Registry
  import opened WaitHeap
  import opened Scheduler
  import opened Slots
  import opened Fairness
  import opened Coordinator
  import opened CoordinatorLaws
  import opened RelayLaws

  /** Two peers of one model with one slot each. */
  function TwoPeers(p: Peer, q: Peer): Config {
    Config(map["p" := p, "q" := q], ["p", "q"], 90.0, 300.0, 8)
  }

  predicate Twins(p: Peer, q: Peer) {
    && p.id == "p" && q.id == "q" && p.owner == "owner" && q.owner == "owner" && p.model == "m" && q.model == "m"
    && p.contributors == [] && q.contributors == [] && p.maxConcurrent == 1 && q.maxConcurrent == 1
  }

  function Beats(peer: PeerId, d: Detail): Request {
    HeartbeatFrom("owner", peer, 0.0, 0.0, 0.0, true, d)
  }

  /** Alice takes the one slot, bob waits for it, the other peer comes back, carol asks. */
  function Requests(d: Detail): seq<Request> {
    [Beats("p", d), LeaseFor("alice", "m", 0.0), LeaseFor("bob", "m", 0.0), Beats("q", d), LeaseFor("carol", "m", 0.0)]
  }

  function Live(n: int, d: Detail): PeerState {
    PeerState(0.0, 0.0, n, true, 0, d, 0.0)
  }

  function Known(p: PeerState, q: PeerState): Reg {
    EMPTY.(states := map["p" := p, "q" := q])
  }

  const ALICES := Lease(0, "alice", "p", 300.0)
  const CAROLS := Lease(1, "carol", "q", 300.0)

  function Bob(): Waiter {
    WaiterFor(IDLE, "bob", "m")
  }

  /** Alice is served, bob is in the queue, and the other peer is as `q` says. */
  function BobWaits(d: Detail, q: PeerState): Sched {
    Sched(Known(Live(1, d), q), [ALICES], {}, [Bob()], map[0 := Pending], 1, [ALICES])
  }

  lemma PickFromTwo(cfg: Config, states: map<PeerId, PeerState>, now: real)
    requires cfg.order == ["p", "q"]
    ensures var p, q := Candidate(cfg, states, "p", "m", now), Candidate(cfg, states, "q", "m", now);
            && (p && !q ==> Pick(cfg, states, "m", now) == Some("p"))
            && (q && !p ==> Pick(cfg, states, "m", now) == Some("q"))
            && (!p && !q ==> Pick(cfg, states, "m", now) == None)
    ensures Offers(cfg, states, "p", "m", now) ==> AnyLive(cfg, states, "m", now)
  {
    assert cfg.order[..1] == ["p"] && ["p"][..0] == [];
    assert PickFrom(cfg, states, "m", now, []) == None;
    assert PickFrom(cfg, states, "m", now, ["p"]) == if Candidate(cfg, states, "p", "m", now) then Some("p") else None;
    assert Offers(cfg, states, "p", "m", now) ==> Offers(cfg, states, cfg.order[0], "m", now);
  }

  lemma NothingStale(cfg: Config, s: Sched)
    requires s.leases == [] || s.leases == [ALICES]
    ensures ExpireStale(cfg, s, 0.0) == s
  {
    assert [ALICES][..0] == [] && StaleIds([], 0.0) == [];
    assert StaleIds(s.leases, 0.0) == [];
    assert ReleaseAll(cfg, s, [], 0.0) == s;
  }

  lemma ObserveTwo(cfg: Config, s: Sched)
    requires cfg.order == ["p", "q"] && "p" in cfg.peers && "q" in cfg.peers
    ensures Observe(cfg, s) == s.(reg := EnsureState(EnsureState(s.reg, "p"), "q"))
  {
    assert cfg.order[..1] == ["p"] && ["p"][..0] == [];
    assert LookAll(cfg, s.reg, []) == s.reg;
    assert LookAll(cfg, s.reg, ["p"]) == EnsureState(s.reg, "p");
  }

  lemma AliceIsServed(p: Peer, q: Peer, d: Detail)
    requires Twins(p, q)
    ensures Serve(TwoPeers(p, q), Requests(d)[..2]) ==
            BOOT.(sched := AliceServed(d))
  {
    var cfg, qs := TwoPeers(p, q), Requests(d);
    var s := IDLE.(reg := EMPTY.(states := map["p" := Live(0, d)]));
    assert qs[..0] == [];
    NextRequest(cfg, qs, 0);
    assert Serve(cfg, qs[..1]) == BOOT.(sched := s);
    NextRequest(cfg, qs, 1);
    NothingStale(cfg, s);
    PickFromTwo(cfg, s.reg.states, 0.0);
    ObserveTwo(cfg, Acquire(cfg, s, "alice", "m", 0.0));
  }

  /** Before bob asks. */
  function AliceServed(d: Detail): Sched {
    Sched(Known(Live(1, d), UNSEEN), [ALICES], {}, [], map[], 0, [ALICES])
  }

  lemma BobAsks(p: Peer, q: Peer, d: Detail)
    requires Twins(p, q)
    ensures AcquireOutcome(TwoPeers(p, q), AliceServed(d), "bob", "m", 0.0) == Queued(0)
    ensures Acquire(TwoPeers(p, q), AliceServed(d), "bob", "m", 0.0) == BobWaits(d, UNSEEN)
  {
    PickFromTwo(TwoPeers(p, q), AliceServed(d).reg.states, 0.0);
    assert WaiterFor(AliceServed(d), "bob", "m") == Bob();
    assert Insert([], Bob()) == [Bob()];
  }

  lemma CarolAsks(p: Peer, q: Peer, d: Detail)
    requires Twins(p, q)
    ensures AcquireOutcome(TwoPeers(p, q), BobWaits(d, Live(0, d)), "carol", "m", 0.0) == Granted(CAROLS)
    ensures var s := Acquire(TwoPeers(p, q), BobWaits(d, Live(0, d)), "carol", "m", 0.0);
            s.leases == [ALICES, CAROLS] && s.waiting == [Bob()] && s.futures == map[0 := Pending]
  {
    PickFromTwo(TwoPeers(p, q), BobWaits(d, Live(0, d)).reg.states, 0.0);
  }

  lemma BobQueues(p: Peer, q: Peer, d: Detail)
    requires Twins(p, q)
    ensures Serve(TwoPeers(p, q), Requests(d)[..3]) == BOOT.(sched := BobWaits(d, UNSEEN))
  {
    var cfg, qs := TwoPeers(p, q), Requests(d);
    AliceIsServed(p, q, d);
    NextRequest(cfg, qs, 2);
    NothingStale(cfg, AliceServed(d));
    BobAsks(p, q, d);
  }

  lemma OtherPeerReturns(p: Peer, q: Peer, d: Detail)
    requires Twins(p, q)
    ensures Serve(TwoPeers(p, q), Requests(d)[..4]) == BOOT.(sched := BobWaits(d, Live(0, d)))
  {
    BobQueues(p, q, d);
    NextRequest(TwoPeers(p, q), Requests(d), 3);
    BeatReturns(p, q, d);
  }

  lemma BeatReturns(p: Peer, q: Peer, d: Detail)
    requires Twins(p, q)
    ensures Handle(TwoPeers(p, q), BOOT.(sched := BobWaits(d, UNSEEN)), Requests(d)[3]) == BOOT.(sched := BobWaits(d, Live(0, d)))
  {
    assert Known(Live(1, d), UNSEEN).states["q" := Live(0, d)] == Known(Live(1, d), Live(0, d)).states;
  }

  lemma CarolIsServed(p: Peer, q: Peer, d: Detail)
    requires Twins(p, q)
    ensures var s := Serve(TwoPeers(p, q), Requests(d)).sched;
            CAROLS in s.leases && Bob() in s.waiting && IsPending(s.futures, Bob().ticket)
  {
    var cfg, qs := TwoPeers(p, q), Requests(d);
    OtherPeerReturns(p, q, d);
    NothingStale(cfg, BobWaits(d, Live(0, d)));
    CarolAsks(p, q, d);
    assert qs[..5] == qs;
    NextRequest(cfg, qs, 4);
  }

  /** Carol comes last and is granted a slot on the spot, while bob, who wants the same model, still waits. */
  lemma NewcomerOvertakes(p: Peer, q: Peer, d: Detail)
    requires Twins(p, q)
    ensures WellFormed(TwoPeers(p, q)) && Timely(0.0, Requests(d))
    ensures var cfg, s := TwoPeers(p, q), Serve(TwoPeers(p, q), Requests(d)[..4]).sched;
            && Bob() in s.waiting && Bob().model == "m" && IsPending(s.futures, Bob().ticket)
            && AcquireOutcome(cfg, ExpireStale(cfg, s, 0.0), "carol", "m", 0.0) == Granted(CAROLS)
    ensures var s := Serve(TwoPeers(p, q), Requests(d)).sched;
            CAROLS in s.leases && Bob() in s.waiting && IsPending(s.futures, Bob().ticket)
  {
    CarolIsOffered(p, q, d);
    CarolIsServed(p, q, d);
    RequestsTimely(p, q, d);
  }

  lemma CarolIsOffered(p: Peer, q: Peer, d: Detail)
    requires Twins(p, q)
    ensures var cfg, s := TwoPeers(p, q), Serve(TwoPeers(p, q), Requests(d)[..4]).sched;
            && Bob() in s.waiting && Bob().model == "m" && IsPending(s.futures, Bob().ticket)
            && AcquireOutcome(cfg, ExpireStale(cfg, s, 0.0), "carol", "m", 0.0) == Granted(CAROLS)
  {
    OtherPeerReturns(p, q, d);
    NothingStale(TwoPeers(p, q), BobWaits(d, Live(0, d)));
    CarolAsks(p, q, d);
  }

  lemma RequestsTimely(p: Peer, q: Peer, d: Detail)
    requires Twins(p, q)
    ensures WellFormed(TwoPeers(p, q)) && Timely(0.0, Requests(d))
  {
    var qs := Requests(d);
    assert qs[..5] == qs && qs[..0] == [];
    NextReading(0.0, qs, 0);
    NextReading(0.0, qs, 1);
    NextReading(0.0, qs, 2);
    NextReading(0.0, qs, 3);
    NextReading(0.0, qs, 4);
  }
}
