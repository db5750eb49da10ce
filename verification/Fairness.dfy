/** Whom a dispatch serves, that no one waits beside a free slot, and that expiry reclaims everything. */
module Fairness {
  import opened Wrappers
  import opened Peers
  import opened TextOrder
  import opened Ledgers
  import opened Registry
  import opened WaitHeap
  import opened Scheduler
  import Routing
  import opened Slots

  // ---- free slots ----

  function Room(cfg: Config, states: map<PeerId, PeerState>, p: PeerId, model: string, now: real): int {
    if Offers(cfg, states, p, model, now) then cfg.peers[p].maxConcurrent - states[p].inFlight else 0
  }

  function RoomAmong(cfg: Config, states: map<PeerId, PeerState>, ids: seq<PeerId>, model: string, now: real): int {
    if ids == [] then 0
    else RoomAmong(cfg, states, ids[..|ids| - 1], model, now) + Room(cfg, states, ids[|ids| - 1], model, now)
  }

  /** Free slots on the live peers of a model. */
  function FreeSlots(cfg: Config, s: Sched, model: string, now: real): int {
    RoomAmong(cfg, s.reg.states, cfg.order, model, now)
  }

  /** Waiters of `ws` for a model whose future is still pending. */
  function PendingFor(futures: map<nat, Future>, ws: seq<Waiter>, model: string): nat {
    if ws == [] then 0
    else
      var w := ws[|ws| - 1];
      PendingFor(futures, ws[..|ws| - 1], model) + if w.model == model && IsPending(futures, w.ticket) then 1 else 0
  }

  ghost predicate Within(cfg: Config, states: map<PeerId, PeerState>) {
    forall p :: p in cfg.peers && p in states ==> states[p].inFlight <= cfg.peers[p].maxConcurrent
  }

  /** A peer is picked exactly when some slot is free. */
  lemma {:induction false} PickIffRoom(cfg: Config, states: map<PeerId, PeerState>, ids: seq<PeerId>, model: string, now: real)
    requires Within(cfg, states)
    ensures RoomAmong(cfg, states, ids, model, now) >= 0
    ensures PickFrom(cfg, states, model, now, ids).Some? <==> RoomAmong(cfg, states, ids, model, now) > 0
  {
    if ids != [] {
      PickIffRoom(cfg, states, ids[..|ids| - 1], model, now);
    }
  }

  predicate AtLeastAsLoaded(states: map<PeerId, PeerState>, a: PeerId, b: PeerId)
    requires a in states && b in states
  {
    states[a].inFlight > states[b].inFlight || (states[a].inFlight == states[b].inFlight && (a == b || Before(b, a)))
  }

  /** The peer picked is the least loaded candidate, ties going to the earlier id, whatever order they are listed in. */
  lemma {:induction false} PickIsLeast(cfg: Config, states: map<PeerId, PeerState>, ids: seq<PeerId>, model: string, now: real, q: PeerId)
    requires q in ids && Candidate(cfg, states, q, model, now)
    ensures var r := PickFrom(cfg, states, model, now, ids);
            r.Some? && AtLeastAsLoaded(states, q, r.value)
  {
    var front, p := ids[..|ids| - 1], ids[|ids| - 1];
    assert ids == front + [p];
    var best := PickFrom(cfg, states, model, now, front);
    if q in front {
      PickIsLeast(cfg, states, front, model, now, q);
      BeforeIsTotal(p, best.value, q);
    } else if best.Some? {
      BeforeIsTotal(best.value, p, p);
    }
  }

  /** Taking a slot of `p` uses up one free slot for its model and none for any other. */
  lemma {:induction false} TakingUsesOne(cfg: Config, s: Sched, member: MemberId, p: PeerId, model: string, other: string, now: real, ids: seq<PeerId>)
    requires Candidate(cfg, s.reg.states, p, model, now) && model != "" && other != "" && Distinct(ids)
    ensures var s' := Issue(cfg, s, member, p, now);
            RoomAmong(cfg, s'.reg.states, ids, other, now) ==
            RoomAmong(cfg, s.reg.states, ids, other, now) - if other == model && p in ids then 1 else 0
  {
    if ids != [] {
      TakingUsesOne(cfg, s, member, p, model, other, now, ids[..|ids| - 1]);
      assert ids == ids[..|ids| - 1] + [ids[|ids| - 1]];
    }
  }

  // ---- exact dispatch ----

  ghost predicate NamesModels(ws: seq<Waiter>) {
    forall w :: w in ws ==> w.model != ""
  }

  function Least(a: int, b: int): int { if a <= b then a else b }

  lemma MidwayIsWithin(cfg: Config, s: Sched)
    requires Midway(cfg, s)
    ensures Within(cfg, s.reg.states)
  {
    assert forall p :: p in cfg.peers && p in s.reg.states ==> InFlight(s.reg.states, p) <= cfg.peers[p].maxConcurrent;
  }

  /** Scanning a prefix of the queue uses as many slots of each model as it has pending waiters, while there are any. */
  lemma {:induction false} ScanUses(cfg: Config, s: Sched, ws: seq<Waiter>, model: string, now: real)
    requires WellFormed(cfg) && Midway(cfg, s) && s.waiting == [] && Ascending(ws) && DistinctTickets(ws)
    requires (forall w :: w in ws ==> w.ticket in s.futures) && NamesModels(ws) && model != ""
    ensures var free, pending := FreeSlots(cfg, s, model, now), PendingFor(s.futures, ws, model);
            FreeSlots(cfg, ServeAll(cfg, s, ws, now), model, now) == free - Least(free, pending)
  {
    MidwayIsWithin(cfg, s);
    PickIffRoom(cfg, s.reg.states, cfg.order, model, now);
    if ws != [] {
      var front, w := ws[..|ws| - 1], ws[|ws| - 1];
      PrefixFacts(ws);
      ScanUses(cfg, s, front, model, now);
      var s1 := ServeAll(cfg, s, front, now);
      ServeAllKeeps(cfg, s, front, now);
      ServeAllSettles(cfg, s, front, now);
      assert !Queues(front, w.ticket);
      MidwayIsWithin(cfg, s1);
      PickIffRoom(cfg, s1.reg.states, cfg.order, w.model, now);
      if IsPending(s1.futures, w.ticket) {
        match Pick(cfg, s1.reg.states, w.model, now) {
          case None =>
          case Some(p) => TakingUsesOne(cfg, s1, w.member, p, w.model, model, now, cfg.order);
        }
      }
    }
  }

  /** A waiter's fate is sealed when it is scanned: what comes after it does not touch its future. */
  lemma {:induction false} LaterScansKeep(cfg: Config, s: Sched, ws: seq<Waiter>, i: nat, now: real)
    requires i < |ws| && DistinctTickets(ws)
    requires forall w :: w in ws ==> w.ticket in s.futures
    ensures var t := ws[i].ticket;
            t in ServeAll(cfg, s, ws, now).futures && t in ServeAll(cfg, s, ws[..i + 1], now).futures &&
            ServeAll(cfg, s, ws, now).futures[t] == ServeAll(cfg, s, ws[..i + 1], now).futures[t]
  {
    FuturesStay(cfg, s, ws[..i + 1], now);
    if i == |ws| - 1 {
      assert ws[..i + 1] == ws;
    } else {
      var front := ws[..|ws| - 1];
      assert forall w :: w in front ==> w in ws;
      LaterScansKeep(cfg, s, front, i, now);
      assert front[..i + 1] == ws[..i + 1];
    }
  }

  lemma {:induction false} FuturesStay(cfg: Config, s: Sched, ws: seq<Waiter>, now: real)
    ensures forall t :: t in s.futures ==> t in ServeAll(cfg, s, ws, now).futures
  {
    if ws != [] {
      FuturesStay(cfg, s, ws[..|ws| - 1], now);
    }
  }

  /** The lease a waiter is given: its own, on a live peer of its model. */
  ghost predicate GivenTo(cfg: Config, s: Sched, l: Lease, w: Waiter, now: real) {
    l.member == w.member && Offers(cfg, s.reg.states, l.peer, w.model, now) && l.expiresAt == now + cfg.leaseTtl
  }

  lemma LiveStays(cfg: Config, s: Sched, w: Waiter, now: real, p: PeerId, model: string)
    ensures Offers(cfg, ServeOne(cfg, s, w, now).reg.states, p, model, now) <==> Offers(cfg, s.reg.states, p, model, now)
  {
  }

  lemma {:induction false} LiveStaysThroughout(cfg: Config, s: Sched, ws: seq<Waiter>, now: real, p: PeerId, model: string)
    ensures Offers(cfg, ServeAll(cfg, s, ws, now).reg.states, p, model, now) <==> Offers(cfg, s.reg.states, p, model, now)
  {
    if ws != [] {
      LiveStaysThroughout(cfg, s, ws[..|ws| - 1], now, p, model);
      LiveStays(cfg, ServeAll(cfg, s, ws[..|ws| - 1], now), ws[|ws| - 1], now, p, model);
    }
  }

  /** A waiter's own turn: it is served exactly if the pending waiters of its model ahead of it left a slot free. */
  lemma TurnServes(cfg: Config, s: Sched, before: seq<Waiter>, w: Waiter, now: real)
    requires WellFormed(cfg) && Midway(cfg, s) && s.waiting == [] && Ascending(before) && DistinctTickets(before)
    requires (forall x :: x in before ==> x.ticket in s.futures && x.ticket != w.ticket) && NamesModels(before)
    requires w.model != "" && IsPending(s.futures, w.ticket)
    ensures var s' := ServeOne(cfg, ServeAll(cfg, s, before, now), w, now);
            && w.ticket in s'.futures
            && (s'.futures[w.ticket].Done? <==> PendingFor(s.futures, before, w.model) < FreeSlots(cfg, s, w.model, now))
            && (s'.futures[w.ticket].Done? ==> GivenTo(cfg, s, s'.futures[w.ticket].lease, w, now))
  {
    var s1 := ServeAll(cfg, s, before, now);
    ScanUses(cfg, s, before, w.model, now);
    ServeAllKeeps(cfg, s, before, now);
    ServeAllSettles(cfg, s, before, now);
    assert !Queues(before, w.ticket);
    MidwayIsWithin(cfg, s);
    MidwayIsWithin(cfg, s1);
    PickIffRoom(cfg, s.reg.states, cfg.order, w.model, now);
    PickIffRoom(cfg, s1.reg.states, cfg.order, w.model, now);
    var picked := Pick(cfg, s1.reg.states, w.model, now);
    if picked.Some? {
      LiveStaysThroughout(cfg, s, before, now, picked.value, w.model);
    }
  }

  lemma PrefixOf(ws: seq<Waiter>, i: nat)
    requires Ascending(ws) && DistinctTickets(ws) && i < |ws|
    ensures Ascending(ws[..i]) && DistinctTickets(ws[..i])
    ensures forall x :: x in ws[..i] ==> x in ws && x.ticket != ws[i].ticket
    ensures ws[..i + 1][..i] == ws[..i]
  {
  }

  /**
   Exact dispatch: of the pending waiters for each model, precisely the first k in (score, ticket)
   order are served, where k is the number of free slots on that model's live peers. The rest stay
   queued and pending; waiters that were already done leave the queue with their futures untouched.
   */
  lemma ExactDispatch(cfg: Config, s: Sched, i: nat, now: real)
    requires WellFormed(cfg) && Sound(cfg, s) && NamesModels(s.waiting) && i < |s.waiting|
    ensures var s', w := Dispatch(cfg, s, now), s.waiting[i];
            && w.ticket in s'.futures
            && (IsPending(s.futures, w.ticket) ==>
                  && (s'.futures[w.ticket].Done? <==>
                        PendingFor(s.futures, s.waiting[..i], w.model) < FreeSlots(cfg, s, w.model, now))
                  && (w in s'.waiting <==> !s'.futures[w.ticket].Done?)
                  && (s'.futures[w.ticket].Done? ==> GivenTo(cfg, s, s'.futures[w.ticket].lease, w, now)))
            && (!IsPending(s.futures, w.ticket) ==> w !in s'.waiting && s'.futures[w.ticket] == s.futures[w.ticket])
  {
    var s0, ws, w := s.(waiting := []), s.waiting, s.waiting[i];
    PrefixOf(ws, i);
    ServeAllSettles(cfg, s0, ws, now);
    assert Settled(s0, ServeAll(cfg, s0, ws, now), w);
    if IsPending(s.futures, w.ticket) {
      LaterScansKeep(cfg, s0, ws, i, now);
      TurnServes(cfg, s0, ws[..i], w, now);
    }
  }

  /** The slots left over: none while anyone of that model is still pending. */
  lemma DispatchUses(cfg: Config, s: Sched, model: string, now: real)
    requires WellFormed(cfg) && Sound(cfg, s) && NamesModels(s.waiting) && model != ""
    ensures var free, pending := FreeSlots(cfg, s, model, now), PendingFor(s.futures, s.waiting, model);
            FreeSlots(cfg, Dispatch(cfg, s, now), model, now) == free - Least(free, pending)
  {
    ScanUses(cfg, s.(waiting := []), s.waiting, model, now);
  }

  // ---- no one waits beside a free slot ----

  /** No pending waiter has a live peer of its model with a free slot. */
  ghost predicate Conserving(cfg: Config, s: Sched, now: real) {
    forall w, p :: w in s.waiting && IsPending(s.futures, w.ticket) ==> !Candidate(cfg, s.reg.states, p, w.model, now)
  }

  lemma {:induction false} NonePicked(cfg: Config, states: map<PeerId, PeerState>, model: string, now: real, ids: seq<PeerId>)
    ensures PickFrom(cfg, states, model, now, ids) == None <==> forall p :: p in ids ==> !Candidate(cfg, states, p, model, now)
  {
    if ids != [] {
      NonePicked(cfg, states, model, now, ids[..|ids| - 1]);
      assert ids == ids[..|ids| - 1] + [ids[|ids| - 1]];
    }
  }

  lemma PickNone(cfg: Config, states: map<PeerId, PeerState>, model: string, now: real)
    requires WellFormed(cfg)
    ensures Pick(cfg, states, model, now) == None <==> forall p :: !Candidate(cfg, states, p, model, now)
  {
    NonePicked(cfg, states, model, now, cfg.order);
  }

  /** Serving only takes slots. */
  lemma ServeOneTakes(cfg: Config, s: Sched, w: Waiter, now: real, p: PeerId, model: string)
    requires Candidate(cfg, ServeOne(cfg, s, w, now).reg.states, p, model, now)
    ensures Candidate(cfg, s.reg.states, p, model, now)
  {
  }

  lemma {:induction false} ScanConserves(cfg: Config, s: Sched, ws: seq<Waiter>, now: real)
    requires WellFormed(cfg) && s.waiting == []
    ensures forall w, p :: w in ServeAll(cfg, s, ws, now).waiting ==> !Candidate(cfg, ServeAll(cfg, s, ws, now).reg.states, p, w.model, now)
  {
    if ws != [] {
      var front, last := ws[..|ws| - 1], ws[|ws| - 1];
      ScanConserves(cfg, s, front, now);
      var s1 := ServeAll(cfg, s, front, now);
      PickNone(cfg, s1.reg.states, last.model, now);
      forall w, p | w in ServeAll(cfg, s, ws, now).waiting && Candidate(cfg, ServeAll(cfg, s, ws, now).reg.states, p, w.model, now)
        ensures false
      {
        ServeOneTakes(cfg, s1, last, now, p, w.model);
      }
    }
  }

  /** A dispatch leaves no pending waiter beside a free slot. */
  lemma DispatchConserves(cfg: Config, s: Sched, now: real)
    requires WellFormed(cfg)
    ensures Conserving(cfg, Dispatch(cfg, s, now), now)
  {
    ScanConserves(cfg, s.(waiting := []), s.waiting, now);
  }

  /** Time only takes peers out of the pool. */
  lemma TimeConserves(cfg: Config, s: Sched, now: real, later: real)
    requires Conserving(cfg, s, now) && now <= later
    ensures Conserving(cfg, s, later)
  {
    forall w, p | w in s.waiting && IsPending(s.futures, w.ticket)
      ensures !Candidate(cfg, s.reg.states, p, w.model, later)
    {
      assert !Candidate(cfg, s.reg.states, p, w.model, now);
    }
  }

  /** A newcomer is given a slot only if no one pending could have used it. */
  lemma NoOvertaking(cfg: Config, s: Sched, member: MemberId, model: string, now: real, w: Waiter)
    requires Conserving(cfg, s, now) && AcquireOutcome(cfg, s, member, model, now).Granted?
    requires w in s.waiting && IsPending(s.futures, w.ticket)
    ensures w.model != model
    ensures !Serves(cfg.peers[AcquireOutcome(cfg, s, member, model, now).lease.peer], w.model)
  {
    var p := Pick(cfg, s.reg.states, model, now).value;
    assert Candidate(cfg, s.reg.states, p, model, now);
    assert !Candidate(cfg, s.reg.states, p, w.model, now);
  }

  lemma QueuedConserves(cfg: Config, s: Sched, member: MemberId, model: string, now: real)
    requires WellFormed(cfg) && Sound(cfg, s) && Conserving(cfg, s, now)
    requires AcquireOutcome(cfg, s, member, model, now).Queued?
    ensures Conserving(cfg, Acquire(cfg, s, member, model, now), now)
  {
    var s', x := Acquire(cfg, s, member, model, now), WaiterFor(s, member, model);
    PickNone(cfg, s.reg.states, model, now);
    InsertTickets(s.waiting, x);
    forall w, p | w in s'.waiting && IsPending(s'.futures, w.ticket)
      ensures !Candidate(cfg, s.reg.states, p, w.model, now)
    {
      assert w != x ==> w in s.waiting && IsPending(s.futures, w.ticket);
    }
  }

  lemma AcquireConserves(cfg: Config, s: Sched, member: MemberId, model: string, now: real)
    requires WellFormed(cfg) && Sound(cfg, s) && Conserving(cfg, s, now)
    ensures Conserving(cfg, Acquire(cfg, s, member, model, now), now)
  {
    match AcquireOutcome(cfg, s, member, model, now) {
      case Queued(_) => QueuedConserves(cfg, s, member, model, now);
      case Granted(l) =>
        forall w, p | w in s.waiting && IsPending(s.futures, w.ticket)
          ensures !Candidate(cfg, Acquire(cfg, s, member, model, now).reg.states, p, w.model, now)
        {
          assert !Candidate(cfg, s.reg.states, p, w.model, now);
        }
      case _ =>
    }
  }

  lemma ReleaseConserves(cfg: Config, s: Sched, id: RequestId, now: real)
    requires WellFormed(cfg)
    ensures Conserving(cfg, Release(cfg, s, id, now), now)
  {
    DispatchConserves(cfg, GiveBack(s, id), now);
  }

  lemma RedeemConserves(cfg: Config, s: Sched, id: RequestId, member: MemberId, now: real)
    requires WellFormed(cfg) && Conserving(cfg, s, now)
    ensures Conserving(cfg, Redeem(cfg, s, id, member, now), now)
  {
    match RedeemCheck(s, id, member, now) {
      case Some(Expired) => ReleaseConserves(cfg, s, id, now);
      case None =>
        forall w, p | w in s.waiting && IsPending(s.futures, w.ticket)
          ensures !Candidate(cfg, s.reg.states, p, w.model, now)
        {
        }
      case Some(_) =>
    }
  }

  lemma ExpireConserves(cfg: Config, s: Sched, now: real)
    requires WellFormed(cfg) && Conserving(cfg, s, now)
    ensures Conserving(cfg, ExpireStale(cfg, s, now), now)
  {
    var ids := StaleIds(s.leases, now);
    if ids != [] {
      ReleaseConserves(cfg, ReleaseAll(cfg, s, ids[..|ids| - 1], now), ids[|ids| - 1], now);
    }
  }

  lemma AbandonConserves(cfg: Config, s: Sched, t: nat, now: real)
    requires Conserving(cfg, s, now)
    ensures Conserving(cfg, Abandon(s, t), now)
  {
    forall w, p | w in s.waiting && IsPending(Abandon(s, t).futures, w.ticket)
      ensures !Candidate(cfg, s.reg.states, p, w.model, now)
    {
      assert IsPending(s.futures, w.ticket);
    }
  }

  lemma DropConserves(cfg: Config, s: Sched, t: nat, now: real)
    requires Sound(cfg, s) && Conserving(cfg, s, now)
    ensures Conserving(cfg, Drop(s, t), now)
  {
    WithoutTicketIs(s.waiting, t);
    forall w, p | w in Drop(s, t).waiting && IsPending(s.futures, w.ticket)
      ensures !Candidate(cfg, s.reg.states, p, w.model, now)
    {
      assert w in s.waiting;
    }
  }

  /** The one registry step that can leave someone waiting beside a free slot. */
  ghost predicate Revives(cfg: Config, s: Sched, e: Event) {
    && e.Beat? && e.healthy && e.peer in cfg.peers
    && InFlight(s.reg.states, e.peer) < cfg.peers[e.peer].maxConcurrent
    && exists w :: w in s.waiting && IsPending(s.futures, w.ticket) && Serves(cfg.peers[e.peer], w.model)
  }

  lemma BeatStates(cfg: Config, r: Reg, e: Event)
    requires e.Beat? && e.peer in cfg.peers
    ensures var states' := Step(cfg, r, e).states;
            && e.peer in states' && states' == r.states[e.peer := states'[e.peer]]
            && states'[e.peer].healthy == e.healthy && states'[e.peer].lastSeen == e.now
            && states'[e.peer].inFlight == InFlight(r.states, e.peer)
  {
    Routing.StatesFollow(cfg, r, e);
  }

  /** How a registry step other than a slot change moves one peer in or out of the pool. */
  lemma StepMovesPeer(cfg: Config, s: Sched, e: Event, p: PeerId, model: string, now: real)
    requires LeavesSlots(e) && (e.Beat? ==> e.now == now) && cfg.timeout >= 0.0
    ensures var after := Candidate(cfg, Step(cfg, s.reg, e).states, p, model, now);
            if e.Beat? && e.peer == p && p in cfg.peers
            then after <==> e.healthy && InFlight(s.reg.states, p) < cfg.peers[p].maxConcurrent && Serves(cfg.peers[p], model)
            else after ==> Candidate(cfg, s.reg.states, p, model, now)
  {
    if e.Beat? && e.peer in cfg.peers {
      BeatStates(cfg, s.reg, e);
    } else if e.Attests? {
      assert Step(cfg, s.reg, e).states == s.reg.states;
    }
  }

  /**
   Beats, attestations, failures and reads leave someone waiting beside a free slot exactly when an
   owner's healthy beat brings back a peer with a free slot that a pending waiter could use.
   */
  lemma RegistryConservesExactly(cfg: Config, s: Sched, e: Event, now: real)
    requires WellFormed(cfg) && Conserving(cfg, s, now) && LeavesSlots(e) && (e.Beat? ==> e.now == now) && cfg.timeout >= 0.0
    ensures Conserving(cfg, s.(reg := Step(cfg, s.reg, e)), now) <==> !Revives(cfg, s, e)
    ensures Revives(cfg, s, e) ==> !IsLive(cfg, s.reg.states, e.peer, now)
  {
    var states' := Step(cfg, s.reg, e).states;
    if Revives(cfg, s, e) {
      var w :| w in s.waiting && IsPending(s.futures, w.ticket) && Serves(cfg.peers[e.peer], w.model);
      StepMovesPeer(cfg, s, e, e.peer, w.model, now);
      assert Candidate(cfg, states', e.peer, w.model, now);
      assert !Candidate(cfg, s.reg.states, e.peer, w.model, now);
    } else {
      forall w, p | w in s.waiting && IsPending(s.futures, w.ticket)
        ensures !Candidate(cfg, states', p, w.model, now)
      {
        StepMovesPeer(cfg, s, e, p, w.model, now);
      }
    }
  }

  // ---- expiry ----

  function CountExpired(leases: seq<Lease>, now: real): nat {
    if leases == [] then 0
    else CountExpired(leases[..|leases| - 1], now) + if now > leases[|leases| - 1].expiresAt then 1 else 0
  }

  lemma {:induction false} StaleIdsAre(leases: seq<Lease>, now: real)
    ensures |StaleIds(leases, now)| == CountExpired(leases, now)
    ensures forall l :: l in leases && now > l.expiresAt ==> l.id in StaleIds(leases, now)
    ensures forall id :: id in StaleIds(leases, now) ==> exists l :: l in leases && l.id == id && now > l.expiresAt
  {
    if leases != [] {
      var front, last := leases[..|leases| - 1], leases[|leases| - 1];
      StaleIdsAre(front, now);
      assert leases == front + [last];
      forall id | id in StaleIds(leases, now)
        ensures exists l :: l in leases && l.id == id && now > l.expiresAt
      {
        if id in StaleIds(front, now) {
          var l :| l in front && l.id == id && now > l.expiresAt;
          assert l in leases;
        } else {
          assert last in leases;
        }
      }
    }
  }

  /** A lease a dispatch at `now` can have issued. */
  ghost predicate New(cfg: Config, before: Sched, l: Lease, now: real) {
    l.id >= |before.issued| && l.expiresAt == now + cfg.leaseTtl
  }

  /** A dispatch only adds leases, each with a fresh id and a full term. */
  lemma {:induction false} ScanAddsLeases(cfg: Config, s: Sched, ws: seq<Waiter>, now: real)
    ensures var s' := ServeAll(cfg, s, ws, now);
            && |s.issued| <= |s'.issued|
            && (forall l :: l in s.leases ==> l in s'.leases)
            && (forall l :: l in s'.leases ==> l in s.leases || New(cfg, s, l, now))
  {
    if ws != [] {
      ScanAddsLeases(cfg, s, ws[..|ws| - 1], now);
    }
  }

  /** After releasing `ids` the leases left are those not released, and new ones. */
  lemma {:induction false} ReleaseAllLeaves(cfg: Config, s: Sched, ids: seq<RequestId>, now: real)
    requires Sound(cfg, s) && forall i :: 0 <= i < |ids| ==> ids[i] < |s.issued|
    ensures var s' := ReleaseAll(cfg, s, ids, now);
            && |s.issued| <= |s'.issued|
            && (forall l :: l in s.leases && l.id !in ids ==> l in s'.leases)
            && (forall l :: l in s'.leases ==> (l in s.leases && l.id !in ids) || New(cfg, s, l, now))
  {
    if ids != [] {
      var front, id := ids[..|ids| - 1], ids[|ids| - 1];
      assert ids == front + [id];
      ReleaseAllLeaves(cfg, s, front, now);
      var s1 := ReleaseAll(cfg, s, front, now);
      ReleaseAllKeeps(cfg, s, front, now);
      WithoutIs(s1.leases, id);
      var s2 := GiveBack(s1, id);
      ScanAddsLeases(cfg, s2.(waiting := []), s2.waiting, now);
    }
  }

  /**
   Expiry recovers every lease past its term, redeemed or not, and only those; it reports exactly
   how many there were; and unless the configured term is negative none it leaves is past its term.
   */
  lemma ExpiryRecovers(cfg: Config, s: Sched, now: real)
    requires Sound(cfg, s)
    ensures |StaleIds(s.leases, now)| == CountExpired(s.leases, now)
    ensures var s' := ExpireStale(cfg, s, now);
            && Sound(cfg, s')
            && (forall l :: l in s.leases ==> (l in s'.leases <==> now <= l.expiresAt))
            && (forall l :: l in s'.leases && now > l.expiresAt ==> cfg.leaseTtl < 0.0)
  {
    var ids := StaleIds(s.leases, now);
    StaleIdsAre(s.leases, now);
    assert forall i :: 0 <= i < |ids| ==> ids[i] in ids;
    ReleaseAllLeaves(cfg, s, ids, now);
    ReleaseAllKeeps(cfg, s, ids, now);
  }
}
