/**
 A run in which deleting a contributor's heartbeats changes whether a peer is live: not by what they
 say of it, but because credit decides who is served next, and so whose relay runs and fails.
 */
module Rerouting {
  import opened Wrappers
  import opened Peers
  import opened TextOrder
  import opened Ledgers
  import opened Registry
  import opened WaitHeap
  import opened Scheduler
  import opened Slots
  import opened Coordinator
  import opened CoordinatorLaws
  import opened Words

  predicate SharedPeer(p: Peer) {
    && p.id == "p" && p.owner == "bob" && p.model == "m" && p.capacityGb == 10.0 && p.maxConcurrent == 1
    && p.contributors == [Contribution("alice", 10.0)]
  }

  function OneShared(p: Peer): Config {
    Config(map["p" := p], ["p"], 90.0, 300.0, 8)
  }

  /** Bob says the peer is up; alice speaks twice, and is paid for the time between. */
  function Opening(d: Detail): seq<Request> {
    [HeartbeatFrom("bob", "p", 1000.0, 1000.0, 10.0, true, d)]
  }

  function AliceSpeaks(d: Detail): seq<Request> {
    [HeartbeatFrom("alice", "p", 1000.0, 1000.0, 10.0, true, d), HeartbeatFrom("alice", "p", 1036.0, 1036.0, 10.0, true, d)]
  }

  /** Carol is served, dave and alice wait; carol's relay fails; then alice tries the next lease, and her relay fails. */
  const REST := [LeaseFor("carol", "m", 1036.0), LeaseFor("dave", "m", 1036.0), LeaseFor("alice", "m", 1036.0),
                 InferFor(0, "carol", 1036.0), RelayStarts(0), RelayBreaks(0), RelayEnds(0, 1036.0),
                 InferFor(1, "alice", 1036.0), RelayStarts(1), RelayBreaks(1)]

  function ServeFrom(cfg: Config, c: Coord, qs: seq<Request>): Coord
    decreases |qs|
  {
    if qs == [] then c else ServeFrom(cfg, Handle(cfg, c, qs[0]), qs[1..])
  }

  lemma {:induction false} ServeThen(cfg: Config, a: seq<Request>, b: seq<Request>)
    ensures Serve(cfg, a + b) == ServeFrom(cfg, Serve(cfg, a), b)
    decreases |b|
  {
    if b == [] {
      assert a + b == a;
    } else {
      var a1 := a + [b[0]];
      assert a1[..|a|] == a && a1 + b[1..] == a + b;
      ServeThen(cfg, a1, b[1..]);
    }
  }

  lemma {:induction false} OwnersOnlyThen(cfg: Config, a: seq<Request>, b: seq<Request>)
    requires forall i :: 0 <= i < |b| ==> !b[i].HeartbeatFrom?
    ensures OwnersOnly(cfg, a + b) == OwnersOnly(cfg, a) + b
  {
    if b == [] {
      assert a + b == a && OwnersOnly(cfg, a) + b == OwnersOnly(cfg, a);
    } else {
      var front, q := b[..|b| - 1], b[|b| - 1];
      OwnersOnlyThen(cfg, a, front);
      OwnersOnlyKeeps(cfg, a + front, q);
      assert a + front + [q] == a + b;
      assert OwnersOnly(cfg, a) + front + [q] == OwnersOnly(cfg, a) + b;
    }
  }

  lemma OwnersOnlyKeeps(cfg: Config, qs: seq<Request>, q: Request)
    requires !q.HeartbeatFrom?
    ensures OwnersOnly(cfg, qs + [q]) == OwnersOnly(cfg, qs) + [q]
  {
    assert (qs + [q])[..|qs|] == qs;
  }

  // ---- the states the run goes through ----

  /** The registry `r` with the peer up, `n` slots in use and `f` relays failed. */
  function At(r: Reg, d: Detail, n: int, f: nat): Reg {
    r.(states := map["p" := PeerState(1000.0, 10.0, n, true, f, d, 1000.0)])
  }

  const CAROLS := Lease(0, "carol", "p", 1336.0)

  function Dave(r: Reg): Waiter {
    Waiter(-BalanceOf(r.books, "dave").score, 0, "dave", "m")
  }

  function Alice(r: Reg): Waiter {
    Waiter(-BalanceOf(r.books, "alice").score, 1, "alice", "m")
  }

  function Queue(r: Reg): seq<Waiter> {
    if Less(Alice(r), Dave(r)) then [Alice(r), Dave(r)] else [Dave(r), Alice(r)]
  }

  function Ready(r: Reg, d: Detail): Coord {
    Coord(Sched(At(r, d, 0, 0), [], {}, [], map[], 0, []), map[], map[], [])
  }

  function CarolServed(r: Reg, d: Detail): Coord {
    Coord(Sched(At(r, d, 1, 0), [CAROLS], {}, [], map[], 0, [CAROLS]), map[], map[], [])
  }

  function DaveWaits(r: Reg, d: Detail): Coord {
    Coord(Sched(At(r, d, 1, 0), [CAROLS], {}, [Dave(r)], map[0 := Pending], 1, [CAROLS]), map[], map[], [])
  }

  function BothWait(r: Reg, d: Detail): Coord {
    Coord(Sched(At(r, d, 1, 0), [CAROLS], {}, Queue(r), map[0 := Pending, 1 := Pending], 2, [CAROLS]), map[], map[], [])
  }

  function CarolFailed(r: Reg, d: Detail): Coord {
    Coord(Sched(At(r, d, 1, 1), [CAROLS], {0}, Queue(r), map[0 := Pending, 1 := Pending], 2, [CAROLS]),
          map[], map[0 := Stream("carol", "p")], [Redemption(0, "carol")])
  }

  function NextLease(r: Reg): Lease {
    Lease(1, Queue(r)[0].member, "p", 1336.0)
  }

  function NextServed(r: Reg, d: Detail): Coord {
    Coord(Sched(At(r, d, 1, 1), [NextLease(r)], {}, [Queue(r)[1]],
                map[0 := Pending, 1 := Pending][Queue(r)[0].ticket := Done(NextLease(r))], 2, [CAROLS, NextLease(r)]),
          map[], map[], [Redemption(0, "carol")])
  }

  // ---- step by step ----

  lemma PickIs(p: Peer, r: Reg, d: Detail, n: int, f: nat)
    requires SharedPeer(p)
    ensures Pick(OneShared(p), At(r, d, n, f).states, "m", 1036.0) == if n < 1 then Some("p") else None
    ensures AnyLive(OneShared(p), At(r, d, n, f).states, "m", 1036.0)
  {
    var cfg := OneShared(p);
    assert cfg.order[..0] == [] && PickFrom(cfg, At(r, d, n, f).states, "m", 1036.0, []) == None;
    assert Offers(cfg, At(r, d, n, f).states, cfg.order[0], "m", 1036.0);
  }

  lemma Observed(p: Peer, s: Sched)
    requires "p" in s.reg.states
    ensures Observe(OneShared(p), s) == s
  {
    var cfg := OneShared(p);
    assert cfg.order[..0] == [] && LookAll(cfg, s.reg, []) == s.reg;
  }

  lemma NothingStale(cfg: Config, s: Sched)
    requires s.leases == [] || s.leases == [CAROLS]
    ensures ExpireStale(cfg, s, 1036.0) == s
  {
    assert [CAROLS][..0] == [] && StaleIds([], 1036.0) == [];
    assert StaleIds(s.leases, 1036.0) == [] && ReleaseAll(cfg, s, [], 1036.0) == s;
  }

  lemma TakesSlot(r: Reg, d: Detail, f: nat)
    ensures AcquireSlot(At(r, d, 0, f), "p") == At(r, d, 1, f)
    ensures ReleaseSlot(At(r, d, 1, f), "p") == At(r, d, 0, f)
  {
  }

  lemma CarolAsks(p: Peer, r: Reg, d: Detail)
    requires SharedPeer(p)
    ensures Handle(OneShared(p), Ready(r, d), LeaseFor("carol", "m", 1036.0)) == CarolServed(r, d)
  {
    NothingStale(OneShared(p), Ready(r, d).sched);
    PickIs(p, r, d, 0, 0);
    TakesSlot(r, d, 0);
    assert [] + [CAROLS] == [CAROLS];
    Observed(p, CarolServed(r, d).sched);
  }

  lemma DaveAsks(p: Peer, r: Reg, d: Detail)
    requires SharedPeer(p)
    ensures Handle(OneShared(p), CarolServed(r, d), LeaseFor("dave", "m", 1036.0)) == DaveWaits(r, d)
  {
    NothingStale(OneShared(p), CarolServed(r, d).sched);
    PickIs(p, r, d, 1, 0);
    assert Insert([], Dave(r)) == [Dave(r)];
  }

  lemma AliceAsks(p: Peer, r: Reg, d: Detail)
    requires SharedPeer(p)
    ensures Handle(OneShared(p), DaveWaits(r, d), LeaseFor("alice", "m", 1036.0)) == BothWait(r, d)
  {
    NothingStale(OneShared(p), DaveWaits(r, d).sched);
    PickIs(p, r, d, 1, 0);
    assert [Dave(r)][1..] == [] && Insert([], Alice(r)) == [Alice(r)];
    assert Insert([Dave(r)], Alice(r)) == Queue(r);
  }

  /** Carol redeems, her relay starts and fails. */
  lemma CarolFails(p: Peer, r: Reg, d: Detail)
    requires SharedPeer(p)
    ensures var cfg := OneShared(p);
            Handle(cfg, Handle(cfg, Handle(cfg, BothWait(r, d), InferFor(0, "carol", 1036.0)), RelayStarts(0)), RelayBreaks(0)) ==
            CarolFailed(r, d)
  {
    var s := BothWait(r, d).sched;
    Observed(p, s.(redeemed := {0}));
    assert map[0 := Stream("carol", "p")] - {0} == map[];
  }

  lemma DispatchesTwo(cfg: Config, s: Sched, w: Waiter, x: Waiter, now: real)
    ensures Dispatch(cfg, s.(waiting := [w, x]), now) == ServeOne(cfg, ServeOne(cfg, s.(waiting := []), w, now), x, now)
  {
    var s0 := s.(waiting := []);
    assert [w, x][..1] == [w] && [w][..0] == [];
    assert ServeAll(cfg, s0, [], now) == s0;
    assert ServeAll(cfg, s0, [w], now) == ServeOne(cfg, s0, w, now);
  }

  /** Once carol's slot is back. */
  function SlotBack(r: Reg, d: Detail): Sched {
    Sched(At(r, d, 0, 1), [], {}, Queue(r), map[0 := Pending, 1 := Pending], 2, [CAROLS])
  }

  lemma CarolGivesBack(r: Reg, d: Detail)
    ensures GiveBack(CarolFailed(r, d).sched, 0) == SlotBack(r, d)
  {
    TakesSlot(r, d, 1);
    assert {0} - {0} == {};
    assert Without([CAROLS], 0) == [];
  }

  lemma FirstIsServed(p: Peer, r: Reg, d: Detail)
    requires SharedPeer(p)
    ensures ServeOne(OneShared(p), SlotBack(r, d).(waiting := []), Queue(r)[0], 1036.0) == NextServed(r, d).sched.(waiting := [])
  {
    PickIs(p, r, d, 0, 1);
    TakesSlot(r, d, 1);
    assert [] + [NextLease(r)] == [NextLease(r)] && [CAROLS] + [NextLease(r)] == [CAROLS, NextLease(r)];
  }

  lemma SecondWaits(p: Peer, r: Reg, d: Detail)
    requires SharedPeer(p)
    ensures ServeOne(OneShared(p), NextServed(r, d).sched.(waiting := []), Queue(r)[1], 1036.0) == NextServed(r, d).sched
  {
    PickIs(p, r, d, 1, 1);
    assert [] + [Queue(r)[1]] == [Queue(r)[1]];
  }

  lemma CarolReleases(p: Peer, r: Reg, d: Detail)
    requires SharedPeer(p)
    ensures Release(OneShared(p), CarolFailed(r, d).sched, 0, 1036.0) == NextServed(r, d).sched
  {
    CarolGivesBack(r, d);
    assert Queue(r) == [Queue(r)[0], Queue(r)[1]];
    DispatchesTwo(OneShared(p), SlotBack(r, d), Queue(r)[0], Queue(r)[1], 1036.0);
    FirstIsServed(p, r, d);
    SecondWaits(p, r, d);
  }

  lemma CarolEnds(p: Peer, r: Reg, d: Detail)
    requires SharedPeer(p)
    ensures Handle(OneShared(p), CarolFailed(r, d), RelayEnds(0, 1036.0)) == NextServed(r, d)
  {
    CarolReleases(p, r, d);
    Observed(p, NextServed(r, d).sched);
    assert map[0 := Stream("carol", "p")] - {0} == map[];
  }

  /** The next lease is alice's or it is not; if it is, her relay starts, fails, and takes the peer down. */
  lemma AliceFails(p: Peer, r: Reg, d: Detail)
    requires SharedPeer(p)
    ensures var cfg := OneShared(p);
            var c := Handle(cfg, Handle(cfg, Handle(cfg, NextServed(r, d), InferFor(1, "alice", 1036.0)), RelayStarts(1)), RelayBreaks(1));
            IsLive(cfg, c.sched.reg.states, "p", 1036.0) <==> Queue(r)[0].member != "alice"
  {
    var s := NextServed(r, d).sched;
    Observed(p, s.(redeemed := {1}));
  }

  lemma Advance(cfg: Config, c: Coord, i: nat)
    requires i < |REST|
    ensures ServeFrom(cfg, c, REST[i..]) == ServeFrom(cfg, Handle(cfg, c, REST[i]), REST[i + 1..])
  {
    assert REST[i..][0] == REST[i] && REST[i..][1..] == REST[i + 1..];
  }

  lemma AdvanceThrice(cfg: Config, c: Coord, i: nat)
    requires i + 3 <= |REST|
    ensures ServeFrom(cfg, c, REST[i..]) ==
            ServeFrom(cfg, Handle(cfg, Handle(cfg, Handle(cfg, c, REST[i]), REST[i + 1]), REST[i + 2]), REST[i + 3..])
  {
    Advance(cfg, c, i);
    Advance(cfg, Handle(cfg, c, REST[i]), i + 1);
    Advance(cfg, Handle(cfg, Handle(cfg, c, REST[i]), REST[i + 1]), i + 2);
  }

  /** The rest of the run leaves the peer live unless alice, by her score, is next. */
  lemma RestFrom(p: Peer, r: Reg, d: Detail)
    requires SharedPeer(p)
    ensures IsLive(OneShared(p), ServeFrom(OneShared(p), Ready(r, d), REST).sched.reg.states, "p", 1036.0) <==> !Less(Alice(r), Dave(r))
  {
    var cfg := OneShared(p);
    assert REST[0..] == REST && REST[10..] == [];
    AdvanceThrice(cfg, Ready(r, d), 0);
    AdvanceThrice(cfg, BothWait(r, d), 3);
    Advance(cfg, CarolFailed(r, d), 6);
    AdvanceThrice(cfg, NextServed(r, d), 7);
    CarolAsks(p, r, d);
    DaveAsks(p, r, d);
    AliceAsks(p, r, d);
    CarolFails(p, r, d);
    CarolEnds(p, r, d);
    AliceFails(p, r, d);
  }

  // ---- with and without alice's heartbeats ----

  lemma Opened(p: Peer, d: Detail)
    requires SharedPeer(p)
    ensures Serve(OneShared(p), Opening(d)) == Ready(EMPTY, d)
  {
    var cfg := OneShared(p);
    assert Opening(d)[..0] == [] && !Contributes(p, "bob") && HeldOf(p, 10.0) == 10.0;
  }

  /** What the registry remembers of alice's two words. */
  function Paid(): Reg {
    var k := Key("p", "alice");
    Reg(map[], map[k := Attestation(1036.0, 10.0, 1036.0)], Books([Contributed("p", "alice", 10.0, 36.0)], []),
        [Settlement(k, 1000.0, 1000.0, 0.0, OwnWord), Settlement(k, 1000.0, 1036.0, 10.0, OwnWord)])
  }

  function Heard(): Reg {
    var k := Key("p", "alice");
    Reg(map[], map[k := Attestation(1000.0, 10.0, 1000.0)], Books([], []), [Settlement(k, 1000.0, 1000.0, 0.0, OwnWord)])
  }

  lemma AliceIsHeard(p: Peer, d: Detail)
    requires SharedPeer(p)
    ensures Handle(OneShared(p), Ready(EMPTY, d), AliceSpeaks(d)[0]) == Ready(Heard(), d)
    ensures Handle(OneShared(p), Ready(Heard(), d), AliceSpeaks(d)[1]) == Ready(Paid(), d)
  {
    assert p.contributors[0].member == "alice" && Declared(p, "alice") == 10.0;
  }

  lemma AliceIsPaid(p: Peer, d: Detail)
    requires SharedPeer(p)
    ensures Serve(OneShared(p), Opening(d) + AliceSpeaks(d)) == Ready(Paid(), d)
  {
    var cfg, qs := OneShared(p), Opening(d) + AliceSpeaks(d);
    assert qs[..1] == Opening(d) && qs[..3] == qs;
    NextRequest(cfg, qs, 1);
    NextRequest(cfg, qs, 2);
    Opened(p, d);
    AliceIsHeard(p, d);
  }

  lemma Scores()
    ensures !Less(Alice(EMPTY), Dave(EMPTY)) && Less(Alice(Paid()), Dave(Paid()))
  {
    var rows := Paid().books.contributions;
    assert rows[..0] == [] && GbSecondsOf(rows, "alice") == 360.0 && GbSecondsOf(rows, "dave") == 0.0;
  }

  lemma OnlyBobs(p: Peer, d: Detail)
    requires SharedPeer(p)
    ensures OwnersOnly(OneShared(p), Opening(d) + AliceSpeaks(d) + REST) == Opening(d) + REST
  {
    var cfg, qs := OneShared(p), Opening(d) + AliceSpeaks(d);
    OwnersOnlyThen(cfg, qs, REST);
    assert qs[..2][..1] == Opening(d) && Opening(d)[..0] == [];
    assert OwnersOnly(cfg, []) == [] && OwnersOnly(cfg, Opening(d)) == Opening(d);
    assert OwnersOnly(cfg, qs[..2]) == OwnersOnly(cfg, qs[..2][..1]);
    assert OwnersOnly(cfg, qs) == OwnersOnly(cfg, qs[..2]);
  }

  /**
   With alice's heartbeats the peer ends up out of the pool, without them in it: paid for her memory,
   she is served before dave, and it is her relay that fails as the second.
   */
  lemma CreditCanReroute(p: Peer, d: Detail)
    requires SharedPeer(p)
    ensures WellFormed(OneShared(p)) && Timely(0.0, Opening(d) + AliceSpeaks(d) + REST)
    ensures var cfg, qs := OneShared(p), Opening(d) + AliceSpeaks(d) + REST;
            && !IsLive(cfg, Serve(cfg, qs).sched.reg.states, "p", 1036.0)
            && IsLive(cfg, Serve(cfg, OwnersOnly(cfg, qs)).sched.reg.states, "p", 1036.0)
  {
    OnlyBobs(p, d);
    Paying(p, d);
    NotPaying(p, d);
    SharedIsWellFormed(p);
    RunTimely(d);
  }

  lemma {:induction false} TimelyThen(t0: real, a: seq<Request>, b: seq<Request>)
    requires Timely(t0, a) && Now(t0, a) <= 1036.0
    requires forall i :: 0 <= i < |b| ==> TimeAfter(1036.0, b[i]) == 1036.0 && !b[i].HeartbeatFrom?
    ensures Timely(t0, a + b) && Now(t0, a + b) <= 1036.0
  {
    if b == [] {
      assert a + b == a;
    } else {
      TimelyThen(t0, a, b[..|b| - 1]);
      assert (a + b)[..|a + b| - 1] == a + b[..|b| - 1];
    }
  }

  lemma RunTimely(d: Detail)
    ensures Timely(0.0, Opening(d) + AliceSpeaks(d) + REST)
  {
    var qs := Opening(d) + AliceSpeaks(d);
    assert qs[..3] == qs && qs[..0] == [];
    Coordinator.NextReading(0.0, qs, 0);
    Coordinator.NextReading(0.0, qs, 1);
    Coordinator.NextReading(0.0, qs, 2);
    TimelyThen(0.0, qs, REST);
  }

  lemma SharedIsWellFormed(p: Peer)
    requires SharedPeer(p)
    ensures WellFormed(OneShared(p))
  {
  }

  lemma Paying(p: Peer, d: Detail)
    requires SharedPeer(p)
    ensures !IsLive(OneShared(p), Serve(OneShared(p), Opening(d) + AliceSpeaks(d) + REST).sched.reg.states, "p", 1036.0)
  {
    ServeThen(OneShared(p), Opening(d) + AliceSpeaks(d), REST);
    AliceIsPaid(p, d);
    RestFrom(p, Paid(), d);
    Scores();
  }

  lemma NotPaying(p: Peer, d: Detail)
    requires SharedPeer(p)
    ensures IsLive(OneShared(p), Serve(OneShared(p), Opening(d) + REST).sched.reg.states, "p", 1036.0)
  {
    ServeThen(OneShared(p), Opening(d), REST);
    Opened(p, d);
    RestFrom(p, EMPTY, d);
    Scores();
  }
}
