/** Two more laws of whole runs: how many relays a peer can be running, and when a newcomer can overtake. */
module RelayLaws {
  import opened Wrappers
  import opened Peers
  import opened Ledgers
  import opened Registry
  import opened WaitHeap
  import opened Scheduler
  import opened Slots
  import opened Fairness
  import opened Coordinator
  import opened CoordinatorLaws

  // ---- running relays hold leases ----

  predicate HasLease(s: Sched, id: RequestId) {
    FindLease(s.leases, id).Some?
  }

  ghost predicate RunsHold(c: Coord) {
    forall id :: id in c.running ==> HasLease(c.sched, id)
  }

  predicate ExpiredAt(s: Sched, id: RequestId, now: real) {
    HasLease(s, id) && now > FindLease(s.leases, id).value.expiresAt
  }

  ghost predicate SomeRunExpired(c: Coord, now: real) {
    exists id :: id in c.running && ExpiredAt(c.sched, id, now)
  }

  ghost function ExpiredRun(c: Coord, now: real): (id: RequestId)
    requires SomeRunExpired(c, now)
    ensures id in c.running && ExpiredAt(c.sched, id, now)
  {
    var id :| id in c.running && ExpiredAt(c.sched, id, now);
    id
  }

  /** The guard of each step that can part a running relay from its lease. */
  ghost predicate Overruns(c: Coord, q: Request) {
    || (q.LeaseFor? && q.model != "" && SomeRunExpired(c, q.now))
    || (q.InferFor? && q.id in c.running && RedeemCheck(c.sched, q.id, q.sender, q.now) == Some(Expired))
    || (q.RelayStarts? && q.id in c.accepted && !HasLease(c.sched, q.id))
  }

  /** Releasing one id parts that id, and no older one, from its lease. */
  lemma ReleaseParts(cfg: Config, s: Sched, id: RequestId, now: real, other: RequestId)
    requires Sound(cfg, s) && other < |s.issued|
    ensures HasLease(Release(cfg, s, id, now), other) <==> HasLease(s, other) && other != id
  {
    var s' := Release(cfg, s, id, now);
    var s1 := GiveBack(s, id);
    WithoutIs(s.leases, id);
    ScanAddsLeases(cfg, s1.(waiting := []), s1.waiting, now);
    FindIsMember(s.leases, other);
    FindIsMember(s'.leases, other);
  }

  lemma ExpiryParts(cfg: Config, s: Sched, now: real, other: RequestId)
    requires Sound(cfg, s) && other < |s.issued|
    ensures HasLease(ExpireStale(cfg, s, now), other) <==> HasLease(s, other) && !ExpiredAt(s, other, now)
  {
    var s' := ExpireStale(cfg, s, now);
    ExpiryRecovers(cfg, s, now);
    ReleaseAllEvolves(cfg, s, StaleIds(s.leases, now), now);
    FindIsMember(s.leases, other);
    FindIsMember(s'.leases, other);
  }

  lemma AcquireParts(cfg: Config, s: Sched, member: MemberId, model: string, now: real, other: RequestId)
    requires Sound(cfg, s) && other < |s.issued|
    ensures HasLease(Acquire(cfg, s, member, model, now), other) <==> HasLease(s, other)
  {
    FindIsMember(s.leases, other);
    FindIsMember(Acquire(cfg, s, member, model, now).leases, other);
  }

  lemma LeaseForParts(cfg: Config, s: Sched, member: MemberId, model: string, now: real, other: RequestId)
    requires Sound(cfg, s) && other < |s.issued| && model != ""
    ensures HasLease(HandleLease(cfg, s, member, model, now), other) <==> HasLease(s, other) && !ExpiredAt(s, other, now)
  {
    ExpiryParts(cfg, s, now, other);
    ReleaseAllKeeps(cfg, s, StaleIds(s.leases, now), now);
    ReleaseAllEvolves(cfg, s, StaleIds(s.leases, now), now);
    AcquireParts(cfg, ExpireStale(cfg, s, now), member, model, now, other);
  }

  /** What each request does to the lease of another id that has one. */
  predicate Spares(c: Coord, q: Request, other: RequestId) {
    if q.LeaseFor? then q.model == "" || !ExpiredAt(c.sched, other, q.now)
    else if q.InferFor? then !(other == q.id && RedeemCheck(c.sched, q.id, q.sender, q.now) == Some(Expired))
    else if q.RelayEnds? then !(other == q.id && q.id in c.running)
    else true
  }

  lemma InferParts(cfg: Config, c: Coord, id: RequestId, sender: MemberId, now: real, other: RequestId)
    requires Inv(cfg, c) && other < |c.sched.issued|
    ensures HasLease(HandleInfer(cfg, c, id, sender, now).sched, other) <==>
            HasLease(c.sched, other) && Spares(c, InferFor(id, sender, now), other)
  {
    InferLeavesLeases(cfg, c, id, sender, now);
    if RedeemCheck(c.sched, id, sender, now) == Some(Expired) {
      ReleaseParts(cfg, c.sched, id, now, other);
    }
  }

  lemma EndLeavesLeases(cfg: Config, c: Coord, id: RequestId, now: real)
    requires id in c.running
    ensures Handle(cfg, c, RelayEnds(id, now)).sched.leases == Release(cfg, c.sched, id, now).leases
  {
  }

  lemma InferLeavesLeases(cfg: Config, c: Coord, id: RequestId, sender: MemberId, now: real)
    ensures HandleInfer(cfg, c, id, sender, now).sched.leases ==
            if RedeemCheck(c.sched, id, sender, now) == Some(Expired) then Release(cfg, c.sched, id, now).leases else c.sched.leases
  {
  }

  lemma SameLeases(a: Sched, b: Sched, id: RequestId)
    requires a.leases == b.leases
    ensures HasLease(a, id) <==> HasLease(b, id)
  {
  }

  lemma EndParts(cfg: Config, c: Coord, id: RequestId, now: real, other: RequestId)
    requires Inv(cfg, c) && other < |c.sched.issued| && id in c.running
    ensures HasLease(Handle(cfg, c, RelayEnds(id, now)).sched, other) <==> HasLease(c.sched, other) && other != id
  {
    ReleaseParts(cfg, c.sched, id, now, other);
    EndLeavesLeases(cfg, c, id, now);
    SameLeases(Handle(cfg, c, RelayEnds(id, now)).sched, Release(cfg, c.sched, id, now), other);
  }

  /** A request that touches no lease. */
  predicate LeavesLeases(c: Coord, q: Request) {
    !(q.LeaseFor? && q.model != "") && !q.InferFor? && !(q.RelayEnds? && q.id in c.running)
  }

  lemma LeasesStay(cfg: Config, c: Coord, q: Request)
    requires LeavesLeases(c, q)
    ensures Handle(cfg, c, q).sched.leases == c.sched.leases
  {
  }

  /** Each request's effect on the lease of any id issued before: it goes unless spared, and none comes back. */
  lemma HandleParts(cfg: Config, c: Coord, q: Request, other: RequestId)
    requires Inv(cfg, c) && other < |c.sched.issued|
    ensures HasLease(Handle(cfg, c, q).sched, other) <==> HasLease(c.sched, other) && Spares(c, q, other)
  {
    if LeavesLeases(c, q) {
      LeasesStay(cfg, c, q);
      SameLeases(Handle(cfg, c, q).sched, c.sched, other);
    } else if q.LeaseFor? {
      LeaseForParts(cfg, c.sched, q.member, q.model, q.now, other);
    } else if q.InferFor? {
      InferParts(cfg, c, q.id, q.sender, q.now, other);
    } else {
      EndParts(cfg, c, q.id, q.now, other);
    }
  }

  lemma RunningWasIssued(c: Coord, id: RequestId)
    requires BillingSound(c) && id in c.running
    ensures id < |c.sched.issued|
  {
    assert StreamSound(c, id, c.running[id]);
  }

  function NextRunning(c: Coord, q: Request): map<RequestId, Stream> {
    if q.RelayStarts? && q.id in c.accepted then c.running[q.id := c.accepted[q.id]]
    else if q.RelayEnds? then c.running - {q.id}
    else c.running
  }

  lemma HeldIffSpared(c: Coord, q: Request, c': Coord)
    requires RunsHold(c) && c'.running == NextRunning(c, q) && (q.RelayStarts? ==> c'.sched == c.sched)
    requires forall id :: id in c.running ==> (HasLease(c'.sched, id) <==> Spares(c, q, id))
    ensures RunsHold(c') <==> !Overruns(c, q)
  {
    if Overruns(c, q) {
      var id := if q.LeaseFor? then ExpiredRun(c, q.now) else q.id;
      assert id in c'.running && !HasLease(c'.sched, id);
    }
  }

  lemma RunningFollows(cfg: Config, c: Coord, q: Request)
    ensures Handle(cfg, c, q).running == NextRunning(c, q)
    ensures q.RelayStarts? ==> Handle(cfg, c, q).sched == c.sched
  {
  }

  /** One request parts a running relay from its lease exactly when its guard says so. */
  lemma StepHoldsExactly(cfg: Config, c: Coord, q: Request)
    requires Inv(cfg, c) && RunsHold(c)
    ensures RunsHold(Handle(cfg, c, q)) <==> !Overruns(c, q)
  {
    forall id | id in c.running
      ensures HasLease(Handle(cfg, c, q).sched, id) <==> Spares(c, q, id)
    {
      RunningWasIssued(c, id);
      HandleParts(cfg, c, q, id);
    }
    RunningFollows(cfg, c, q);
    HeldIffSpared(c, q, Handle(cfg, c, q));
  }

  /** At the end of the run and at every moment before it, running relays hold their leases. */
  ghost predicate AlwaysHeld(cfg: Config, qs: seq<Request>) {
    RunsHold(Serve(cfg, qs)) && (qs == [] || AlwaysHeld(cfg, qs[..|qs| - 1]))
  }

  ghost predicate NeverOverruns(cfg: Config, qs: seq<Request>) {
    qs == [] || (NeverOverruns(cfg, qs[..|qs| - 1]) && !Overruns(Serve(cfg, qs[..|qs| - 1]), qs[|qs| - 1]))
  }

  /**
   Over any run: running relays always hold their leases if and only if no expiry ever strikes a
   running relay's lease and no relay begins after its lease is gone.
   */
  lemma {:induction false} RunsHoldExactly(cfg: Config, qs: seq<Request>)
    requires WellFormed(cfg)
    ensures AlwaysHeld(cfg, qs) <==> NeverOverruns(cfg, qs)
  {
    if qs != [] {
      var before, q := qs[..|qs| - 1], qs[|qs| - 1];
      RunsHoldExactly(cfg, before);
      CoordinatorLaws.RunKeeps(cfg, before);
      var c := Serve(cfg, before);
      if AlwaysHeld(cfg, before) {
        StepHoldsExactly(cfg, c, q);
      }
    }
  }

  // ---- relay by relay ----

  /** The request reclaims the lease of `id`, its time being up. */
  predicate Strikes(c: Coord, q: Request, id: RequestId) {
    || (q.LeaseFor? && q.model != "" && ExpiredAt(c.sched, id, q.now))
    || (q.InferFor? && q.id == id && RedeemCheck(c.sched, id, q.sender, q.now) == Some(Expired))
  }

  predicate Struck(cfg: Config, qs: seq<Request>, id: RequestId) {
    qs != [] && (Struck(cfg, qs[..|qs| - 1], id) || Strikes(Serve(cfg, qs[..|qs| - 1]), qs[|qs| - 1], id))
  }

  /** What is so of `id` at any moment: a relay redeemed for it holds its lease unless that was struck. */
  predicate Tracked(c: Coord, id: RequestId, struck: bool) {
    && (struck ==> id < |c.sched.issued| && !HasLease(c.sched, id))
    && (id in c.accepted || id in c.running ==> struck || HasLease(c.sched, id))
    && !(id in c.accepted && id in c.running)
  }

  lemma LeasedWasIssued(cfg: Config, s: Sched, id: RequestId)
    requires Sound(cfg, s) && HasLease(s, id)
    ensures id < |s.issued|
  {
    FindIsMember(s.leases, id);
  }

  /** What the request does to the streams of `id`. */
  lemma StreamsFollow(cfg: Config, c: Coord, q: Request, id: RequestId)
    requires Inv(cfg, c)
    ensures var c' := Handle(cfg, c, q);
            && c'.running == NextRunning(c, q)
            && (id in c'.accepted && id !in c.accepted ==>
                  q.InferFor? && q.id == id && id !in c.running && HasLease(c.sched, id) && HasLease(c'.sched, id))
            && (q.RelayStarts? ==> q.id !in c'.accepted)
  {
    RunningFollows(cfg, c, q);
    if q.InferFor? && q.id == id && RedeemCheck(c.sched, id, q.sender, q.now) == None {
      GrantKeepsBilling(cfg, c, id, q.sender, q.now);
      InferLeavesLeases(cfg, c, id, q.sender, q.now);
      SameLeases(Handle(cfg, c, q).sched, c.sched, id);
      assert id in c.running ==> StreamSound(c, id, c.running[id]);
    }
  }

  lemma IssuedStay(cfg: Config, c: Coord, q: Request)
    requires Inv(cfg, c)
    ensures |c.sched.issued| <= |Handle(cfg, c, q).sched.issued|
  {
    if q.LeaseFor? {
      HandleLeaseKeeps(cfg, c.sched, q.member, q.model, q.now);
    } else if q.InferFor? {
      RedeemEvolves(cfg, c.sched, q.id, q.sender, q.now);
    } else if q.RelayEnds? {
      ReleaseEvolves(cfg, c.sched, q.id, q.now);
    }
  }

  lemma TrackedOn(cfg: Config, c: Coord, q: Request, id: RequestId, struck: bool)
    requires Inv(cfg, c) && Tracked(c, id, struck)
    ensures Tracked(Handle(cfg, c, q), id, struck || Strikes(c, q, id))
  {
    StreamsFollow(cfg, c, q, id);
    IssuedStay(cfg, c, q);
    if HasLease(c.sched, id) { LeasedWasIssued(cfg, c.sched, id); }
    if id < |c.sched.issued| { HandleParts(cfg, c, q, id); }
  }

  /** Over any run: a running relay holds its lease if and only if its own was never struck. */
  lemma {:induction false} RelayHoldsExactly(cfg: Config, qs: seq<Request>, id: RequestId)
    requires WellFormed(cfg)
    ensures Tracked(Serve(cfg, qs), id, Struck(cfg, qs, id))
    ensures id in Serve(cfg, qs).running ==> (HasLease(Serve(cfg, qs).sched, id) <==> !Struck(cfg, qs, id))
  {
    if qs != [] {
      var before := qs[..|qs| - 1];
      RelayHoldsExactly(cfg, before, id);
      CoordinatorLaws.RunKeeps(cfg, before);
      TrackedOn(cfg, Serve(cfg, before), qs[|qs| - 1], id, Struck(cfg, before, id));
    }
  }

  // ---- so a peer never runs more than it declares ----

  function IdsOn(leases: seq<Lease>, p: PeerId): set<RequestId> {
    if leases == [] then {} else IdsOn(leases[1..], p) + if leases[0].peer == p then {leases[0].id} else {}
  }

  lemma {:induction false} IdsOnAre(leases: seq<Lease>, p: PeerId)
    ensures |IdsOn(leases, p)| <= Count(leases, p)
    ensures forall l :: l in leases && l.peer == p ==> l.id in IdsOn(leases, p)
  {
    if leases != [] {
      IdsOnAre(leases[1..], p);
      assert leases == [leases[0]] + leases[1..];
    }
  }

  lemma {:induction false} SubsetNoLarger(a: set<RequestId>, b: set<RequestId>)
    requires a <= b
    ensures |a| <= |b|
  {
    if a != {} {
      var x :| x in a;
      SubsetNoLarger(a - {x}, b - {x});
    }
  }

  ghost function RunningOn(c: Coord, p: PeerId): set<RequestId> {
    set id | id in c.running && c.running[id].peer == p
  }

  /** The relays still running on `p` whose lease was struck. */
  ghost function StruckOn(cfg: Config, qs: seq<Request>, p: PeerId): set<RequestId> {
    set id | id in RunningOn(Serve(cfg, qs), p) && Struck(cfg, qs, id)
  }

  lemma HoldersBounded(cfg: Config, c: Coord, p: PeerId, ids: set<RequestId>)
    requires Inv(cfg, c) && p in cfg.peers
    requires forall id :: id in ids ==> id in RunningOn(c, p) && HasLease(c.sched, id)
    ensures |ids| <= cfg.peers[p].maxConcurrent
  {
    IdsOnAre(c.sched.leases, p);
    forall id | id in ids
      ensures id in IdsOn(c.sched.leases, p)
    {
      assert StreamSound(c, id, c.running[id]);
      FindIsMember(c.sched.leases, id);
    }
    SubsetNoLarger(ids, IdsOn(c.sched.leases, p));
  }

  /** In every run a peer runs no more relays than it declares, beyond those still running whose own lease was struck. */
  lemma RunningBounded(cfg: Config, qs: seq<Request>, p: PeerId)
    requires WellFormed(cfg) && p in cfg.peers
    ensures |RunningOn(Serve(cfg, qs), p)| <= cfg.peers[p].maxConcurrent + |StruckOn(cfg, qs, p)|
    ensures NeverOverruns(cfg, qs) ==> |RunningOn(Serve(cfg, qs), p)| <= cfg.peers[p].maxConcurrent
  {
    var c, struck := Serve(cfg, qs), StruckOn(cfg, qs, p);
    CoordinatorLaws.RunKeeps(cfg, qs);
    forall id | id in RunningOn(c, p) ensures HasLease(c.sched, id) <==> id !in struck {
      RelayHoldsExactly(cfg, qs, id);
    }
    HoldersBounded(cfg, c, p, RunningOn(c, p) - struck);
    if NeverOverruns(cfg, qs) {
      RunsHoldExactly(cfg, qs);
      HoldersBounded(cfg, c, p, RunningOn(c, p));
    }
  }

  // ---- no overtaking over whole runs ----

  ghost predicate RevivesQueue(cfg: Config, c: Coord, q: Request) {
    q.HeartbeatFrom? && EventOf(cfg, c, q).Some? && Revives(cfg, c.sched, EventOf(cfg, c, q).value)
  }

  lemma HandleConserves(cfg: Config, c: Coord, q: Request, t: real)
    requires WellFormed(cfg) && cfg.timeout >= 0.0 && Inv(cfg, c) && Conserving(cfg, c.sched, t) && InOrder(t, q)
    requires !RevivesQueue(cfg, c, q)
    ensures Conserving(cfg, Handle(cfg, c, q).sched, TimeAfter(t, q))
  {
    var s := c.sched;
    match q {
      case HeartbeatFrom(signer, p, now, later, gb, healthy, detail) =>
        TimeConserves(cfg, s, t, now);
        RegistryRequestIs(cfg, c, q);
        if EventOf(cfg, c, q).Some? { RegistryConservesExactly(cfg, s, EventOf(cfg, c, q).value, now); }
        TimeConserves(cfg, Handle(cfg, c, q).sched, now, later);
      case RelayBreaks(id) =>
        RegistryRequestIs(cfg, c, q);
        if EventOf(cfg, c, q).Some? { RegistryConservesExactly(cfg, s, EventOf(cfg, c, q).value, t); }
      case LeaseFor(member, model, now) =>
        TimeConserves(cfg, s, t, now);
        LeaseConserves(cfg, s, member, model, now);
      case InferFor(id, sender, now) =>
        TimeConserves(cfg, s, t, now);
        RedeemConserves(cfg, s, id, sender, now);
        ObserveConserves(cfg, Redeem(cfg, s, id, sender, now), now);
      case RelayEnds(id, now) =>
        TimeConserves(cfg, s, t, now);
        ReleaseConserves(cfg, s, id, now);
        ObserveConserves(cfg, Release(cfg, s, id, now), now);
      case WaitEnds(ticket) => AbandonConserves(cfg, s, ticket, t);
      case CleanUp(ticket) => DropConserves(cfg, s, ticket, t);
      case StatsRead => ObserveConserves(cfg, s, t);
      case _ => BillConserves(cfg, c, q, t);
    }
  }

  lemma BillConserves(cfg: Config, c: Coord, q: Request, t: real)
    requires Conserving(cfg, c.sched, t) && (q.ReceiptArrives? || q.RelayStarts?)
    ensures Conserving(cfg, Handle(cfg, c, q).sched, t)
  {
    forall w, p | w in c.sched.waiting && IsPending(c.sched.futures, w.ticket)
      ensures !Candidate(cfg, Handle(cfg, c, q).sched.reg.states, p, w.model, t)
    {
      assert !Candidate(cfg, c.sched.reg.states, p, w.model, t);
    }
  }

  lemma LeaseConserves(cfg: Config, s: Sched, member: MemberId, model: string, now: real)
    requires WellFormed(cfg) && Sound(cfg, s) && Conserving(cfg, s, now)
    ensures Conserving(cfg, HandleLease(cfg, s, member, model, now), now)
    ensures Conserving(cfg, ExpireStale(cfg, s, now), now)
  {
    ExpireConserves(cfg, s, now);
    if model != "" {
      ReleaseAllKeeps(cfg, s, StaleIds(s.leases, now), now);
      AcquireConserves(cfg, ExpireStale(cfg, s, now), member, model, now);
      ObserveConserves(cfg, Acquire(cfg, ExpireStale(cfg, s, now), member, model, now), now);
    }
  }

  ghost predicate NeverRevives(cfg: Config, qs: seq<Request>) {
    qs == [] || (NeverRevives(cfg, qs[..|qs| - 1]) && !RevivesQueue(cfg, Serve(cfg, qs[..|qs| - 1]), qs[|qs| - 1]))
  }

  /** The request releases a lease, and so runs the dispatch loop. */
  predicate Dispatches(c: Coord, q: Request) {
    || (q.RelayEnds? && q.id in c.running)
    || (q.InferFor? && RedeemCheck(c.sched, q.id, q.sender, q.now) == Some(Expired))
    || (q.LeaseFor? && q.model != "" && StaleIds(c.sched.leases, q.now) != [])
  }

  /** A beat of the run revived a peer for someone who waits, and no request has run the dispatch loop since. */
  ghost predicate Unserved(cfg: Config, qs: seq<Request>) {
    qs != [] &&
    var c, q := Serve(cfg, qs[..|qs| - 1]), qs[|qs| - 1];
    RevivesQueue(cfg, c, q) || (Unserved(cfg, qs[..|qs| - 1]) && !Dispatches(c, q))
  }

  /** Releasing a stale lease serves whoever can be served, whatever was left undone before. */
  lemma ExpiryServes(cfg: Config, s: Sched, now: real)
    requires WellFormed(cfg) && StaleIds(s.leases, now) != []
    ensures Conserving(cfg, ExpireStale(cfg, s, now), now)
  {
    var ids := StaleIds(s.leases, now);
    ReleaseConserves(cfg, ReleaseAll(cfg, s, ids[..|ids| - 1], now), ids[|ids| - 1], now);
  }

  lemma RefusingServes(cfg: Config, c: Coord, id: RequestId, sender: MemberId, now: real)
    requires WellFormed(cfg) && RedeemCheck(c.sched, id, sender, now) == Some(Expired)
    ensures Conserving(cfg, Handle(cfg, c, InferFor(id, sender, now)).sched, now)
  {
    ReleaseConserves(cfg, c.sched, id, now);
  }

  lemma ReclaimingServes(cfg: Config, c: Coord, member: MemberId, model: string, now: real)
    requires WellFormed(cfg) && Sound(cfg, c.sched) && model != "" && StaleIds(c.sched.leases, now) != []
    ensures Conserving(cfg, Handle(cfg, c, LeaseFor(member, model, now)).sched, now)
  {
    var s := c.sched;
    var s1 := ExpireStale(cfg, s, now);
    ExpiryServes(cfg, s, now);
    ReleaseAllKeeps(cfg, s, StaleIds(s.leases, now), now);
    AcquireConserves(cfg, s1, member, model, now);
    ObserveConserves(cfg, Acquire(cfg, s1, member, model, now), now);
  }

  lemma EndingServes(cfg: Config, c: Coord, id: RequestId, now: real)
    requires WellFormed(cfg) && id in c.running
    ensures Conserving(cfg, Handle(cfg, c, RelayEnds(id, now)).sched, now)
  {
    ReleaseConserves(cfg, c.sched, id, now);
    ObserveConserves(cfg, Release(cfg, c.sched, id, now), now);
  }

  /** A request that dispatches leaves nobody pending beside a free slot, whatever it found. */
  lemma DispatchingServes(cfg: Config, c: Coord, q: Request, t: real)
    requires WellFormed(cfg) && Inv(cfg, c) && Dispatches(c, q)
    ensures Conserving(cfg, Handle(cfg, c, q).sched, TimeAfter(t, q))
  {
    if q.LeaseFor? {
      ReclaimingServes(cfg, c, q.member, q.model, q.now);
    } else if q.InferFor? {
      RefusingServes(cfg, c, q.id, q.sender, q.now);
    } else {
      EndingServes(cfg, c, q.id, q.now);
    }
  }

  /**
   At every moment of a run no pending waiter sits beside a free slot, but for the time between an
   owner's beat that revives a peer someone waits for and the next request that dispatches.
   */
  lemma {:induction false} WorkConservation(cfg: Config, qs: seq<Request>, t0: real)
    requires WellFormed(cfg) && cfg.timeout >= 0.0 && Timely(t0, qs) && !Unserved(cfg, qs)
    ensures Conserving(cfg, Serve(cfg, qs).sched, Now(t0, qs))
  {
    if qs != [] {
      var before, q := qs[..|qs| - 1], qs[|qs| - 1];
      CoordinatorLaws.RunKeeps(cfg, before);
      if Unserved(cfg, before) {
        DispatchingServes(cfg, Serve(cfg, before), q, Now(t0, before));
      } else {
        WorkConservation(cfg, before, t0);
        HandleConserves(cfg, Serve(cfg, before), q, Now(t0, before));
      }
    }
  }

  lemma {:induction false} NothingRevivedNothingLeft(cfg: Config, qs: seq<Request>)
    requires NeverRevives(cfg, qs)
    ensures !Unserved(cfg, qs)
  {
    if qs != [] { NothingRevivedNothingLeft(cfg, qs[..|qs| - 1]); }
  }

  /** When a request takes effect: a heartbeat at its own first reading of the clock. */
  function EffectAt(t: real, q: Request): real {
    if q.HeartbeatFrom? then q.now else TimeAfter(t, q)
  }

  /** After every request of the run, as it takes effect, no pending waiter sits beside a free slot. */
  ghost predicate AlwaysConserves(cfg: Config, qs: seq<Request>, t0: real) {
    qs == [] ||
    (AlwaysConserves(cfg, qs[..|qs| - 1], t0) &&
     Conserving(cfg, Serve(cfg, qs).sched, EffectAt(Now(t0, qs[..|qs| - 1]), qs[|qs| - 1])))
  }

  lemma HeartbeatConservesExactly(cfg: Config, c: Coord, q: Request, t: real)
    requires WellFormed(cfg) && cfg.timeout >= 0.0 && Conserving(cfg, c.sched, t) && InOrder(t, q) && q.HeartbeatFrom?
    ensures Conserving(cfg, Handle(cfg, c, q).sched, q.now) <==> !RevivesQueue(cfg, c, q)
  {
    TimeConserves(cfg, c.sched, t, q.now);
    RegistryRequestIs(cfg, c, q);
    if EventOf(cfg, c, q).Some? { RegistryConservesExactly(cfg, c.sched, EventOf(cfg, c, q).value, q.now); }
  }

  /**
   Over any run: nobody pending is ever left beside a free slot if and only if no owner's beat revives
   a peer with a free slot for someone who waits.
   */
  lemma {:induction false} ConservesExactly(cfg: Config, qs: seq<Request>, t0: real)
    requires WellFormed(cfg) && cfg.timeout >= 0.0 && Timely(t0, qs)
    ensures AlwaysConserves(cfg, qs, t0) <==> NeverRevives(cfg, qs)
  {
    if qs != [] {
      var before, q := qs[..|qs| - 1], qs[|qs| - 1];
      ConservesExactly(cfg, before, t0);
      CoordinatorLaws.RunKeeps(cfg, before);
      if NeverRevives(cfg, before) {
        NothingRevivedNothingLeft(cfg, before);
        WorkConservation(cfg, before, t0);
        if q.HeartbeatFrom? {
          HeartbeatConservesExactly(cfg, Serve(cfg, before), q, Now(t0, before));
        } else {
          HandleConserves(cfg, Serve(cfg, before), q, Now(t0, before));
        }
      }
    }
  }

  /**
   So a newcomer is granted a lease on the spot only when, at that moment, no one is waiting for the
   same model: always, if it finds a lease to reclaim, and otherwise unless a revived peer's queue is
   still to be served.
   */
  lemma NewcomersDoNotOvertake(cfg: Config, qs: seq<Request>, t0: real, member: MemberId, model: string, now: real, w: Waiter)
    requires WellFormed(cfg) && cfg.timeout >= 0.0 && Timely(t0, qs) && Now(t0, qs) <= now && model != ""
    requires !Unserved(cfg, qs) || StaleIds(Serve(cfg, qs).sched.leases, now) != []
    requires var s := ExpireStale(cfg, Serve(cfg, qs).sched, now);
             && AcquireOutcome(cfg, s, member, model, now).Granted?
             && w in s.waiting && IsPending(s.futures, w.ticket)
    ensures w.model != model
  {
    var s := Serve(cfg, qs).sched;
    if StaleIds(s.leases, now) != [] {
      ExpiryServes(cfg, s, now);
    } else {
      WorkConservation(cfg, qs, t0);
      TimeConserves(cfg, s, Now(t0, qs), now);
    }
    NoOvertaking(cfg, ExpireStale(cfg, s, now), member, model, now, w);
  }
}
