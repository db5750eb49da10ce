/** Slot conservation: every scheduler and registry step keeps slots in use equal to leases held. */
module Slots {
  import opened Wrappers
  import opened Peers
  import opened Ledgers
  import opened Registry
  import opened WaitHeap
  import opened Scheduler
  import Routing

  // ---- counting leases ----

  lemma {:induction false} CountPush(leases: seq<Lease>, l: Lease, p: PeerId)
    ensures Count(leases + [l], p) == Count(leases, p) + if l.peer == p then 1 else 0
  {
    if leases == [] {
      assert leases + [l] == [l];
    } else {
      CountPush(leases[1..], l, p);
      assert (leases + [l])[1..] == leases[1..] + [l];
    }
  }

  lemma {:induction false} CountWithout(leases: seq<Lease>, id: RequestId, p: PeerId)
    ensures match FindLease(leases, id)
            case Some(l) => Count(leases, p) == Count(Without(leases, id), p) + if l.peer == p then 1 else 0
            case None => Without(leases, id) == leases
  {
    if leases != [] && leases[0].id != id {
      CountWithout(leases[1..], id, p);
    }
  }

  lemma DistinctTail(leases: seq<Lease>)
    requires leases != [] && DistinctIds(leases)
    ensures DistinctIds(leases[1..]) && forall l :: l in leases[1..] ==> l.id != leases[0].id
  {
    forall l | l in leases[1..]
      ensures l.id != leases[0].id
    {
      var i :| 0 <= i < |leases| - 1 && leases[1..][i] == l;
      assert leases[i + 1] == l;
    }
  }

  lemma {:induction false} WithoutMembers(leases: seq<Lease>, id: RequestId)
    requires DistinctIds(leases)
    ensures forall l :: l in Without(leases, id) <==> l in leases && l.id != id
    ensures |Without(leases, id)| == |leases| - if FindLease(leases, id).Some? then 1 else 0
  {
    if leases != [] {
      DistinctTail(leases);
      if leases[0].id != id {
        WithoutMembers(leases[1..], id);
      } else {
        assert leases == [leases[0]] + leases[1..];
      }
    }
  }

  /** Removing a lease by its id removes it and nothing else. */
  lemma {:induction false} WithoutIs(leases: seq<Lease>, id: RequestId)
    requires DistinctIds(leases)
    ensures forall l :: l in Without(leases, id) <==> l in leases && l.id != id
    ensures DistinctIds(Without(leases, id))
    ensures FindLease(Without(leases, id), id) == None
    ensures |Without(leases, id)| == |leases| - if FindLease(leases, id).Some? then 1 else 0
  {
    WithoutMembers(leases, id);
    FindIsMember(Without(leases, id), id);
    if leases != [] {
      DistinctTail(leases);
      WithoutIs(leases[1..], id);
      var rest := Without(leases[1..], id);
      assert forall i :: 0 <= i < |rest| ==> rest[i] in leases[1..];
    }
  }

  lemma {:induction false} FindIsMember(leases: seq<Lease>, id: RequestId)
    ensures FindLease(leases, id).Some? <==> exists l :: l in leases && l.id == id
  {
    if leases != [] && leases[0].id != id {
      FindIsMember(leases[1..], id);
    }
  }

  lemma {:induction false} FindOf(leases: seq<Lease>, l: Lease)
    requires DistinctIds(leases) && l in leases
    ensures FindLease(leases, l.id) == Some(l)
  {
    if leases[0] != l {
      var i :| 0 <= i < |leases| && leases[i] == l;
      assert leases[1..][i - 1] == l;
      FindOf(leases[1..], l);
    }
  }

  // ---- issuing and giving back ----

  lemma IssueKeeps(cfg: Config, s: Sched, member: MemberId, p: PeerId, model: string, now: real)
    requires SlotsMatch(cfg, s) && LeasesSound(s) && Candidate(cfg, s.reg.states, p, model, now)
    ensures var s' := Issue(cfg, s, member, p, now); SlotsMatch(cfg, s') && LeasesSound(s')
  {
    IssueKeepsLeases(cfg, s, member, p, now);
    var s' := Issue(cfg, s, member, p, now);
    forall q | q in cfg.peers
      ensures InFlight(s'.reg.states, q) == Count(s'.leases, q) <= cfg.peers[q].maxConcurrent
    {
      CountPush(s.leases, LeaseFrom(cfg, s, member, p, now), q);
    }
  }

  lemma IssueKeepsLeases(cfg: Config, s: Sched, member: MemberId, p: PeerId, now: real)
    requires LeasesSound(s)
    ensures LeasesSound(Issue(cfg, s, member, p, now))
  {
    var s' := Issue(cfg, s, member, p, now);
    forall id | id in s'.redeemed
      ensures FindLease(s'.leases, id).Some?
    {
      FindIsMember(s.leases, id);
      FindIsMember(s'.leases, id);
    }
  }

  lemma {:induction false} CountPositive(leases: seq<Lease>, l: Lease)
    requires l in leases
    ensures Count(leases, l.peer) >= 1
  {
    if leases[0] != l {
      CountPositive(leases[1..], l);
    }
  }

  /** A slot given back was in use, so the floor at zero never hides a miscount. */
  lemma GiveBackKeeps(cfg: Config, s: Sched, id: RequestId)
    requires SlotsMatch(cfg, s) && LeasesSound(s)
    ensures SlotsMatch(cfg, GiveBack(s, id)) && LeasesSound(GiveBack(s, id))
    ensures var found := FindLease(s.leases, id);
            found.Some? ==> && InFlight(s.reg.states, found.value.peer) >= 1
                            && InFlight(GiveBack(s, id).reg.states, found.value.peer) == InFlight(s.reg.states, found.value.peer) - 1
  {
    var s' := GiveBack(s, id);
    var found := FindLease(s.leases, id);
    WithoutIs(s.leases, id);
    if found.Some? {
      CountPositive(s.leases, found.value);
    }
    forall q | q in cfg.peers
      ensures InFlight(s'.reg.states, q) == Count(s'.leases, q) <= cfg.peers[q].maxConcurrent
    {
      CountWithout(s.leases, id, q);
    }
    forall id' | id' in s'.redeemed
      ensures FindLease(s'.leases, id').Some?
    {
      var l := FindLease(s.leases, id').value;
      assert l in s'.leases;
      FindIsMember(s'.leases, id');
    }
  }

  // ---- dispatching ----

  /** What the dispatch loop keeps while the queue is half scanned. */
  ghost predicate Midway(cfg: Config, s: Sched) {
    && SlotsMatch(cfg, s) && LeasesSound(s)
    && forall t :: t in s.futures && s.futures[t].Done? ==>
         var l := s.futures[t].lease; l.id < |s.issued| && l == s.issued[l.id]
  }

  lemma ServeOneKeeps(cfg: Config, s: Sched, w: Waiter, now: real)
    requires Midway(cfg, s)
    ensures Midway(cfg, ServeOne(cfg, s, w, now))
  {
    if IsPending(s.futures, w.ticket) {
      match Pick(cfg, s.reg.states, w.model, now) {
        case None =>
        case Some(p) => IssueKeeps(cfg, s, w.member, p, w.model, now);
      }
    }
  }

  lemma {:induction false} ServeAllKeeps(cfg: Config, s: Sched, ws: seq<Waiter>, now: real)
    requires Midway(cfg, s)
    ensures Midway(cfg, ServeAll(cfg, s, ws, now))
  {
    if ws != [] {
      ServeAllKeeps(cfg, s, ws[..|ws| - 1], now);
      ServeOneKeeps(cfg, ServeAll(cfg, s, ws[..|ws| - 1], now), ws[|ws| - 1], now);
    }
  }

  /** The fate of one waiter of a dispatch: gone if it was done, served, or still queued and pending. */
  ghost predicate Settled(s: Sched, s': Sched, w: Waiter) {
    && w.ticket in s.futures && w.ticket in s'.futures
    && if !s.futures[w.ticket].Pending? then s'.futures[w.ticket] == s.futures[w.ticket] && w !in s'.waiting
       else if w in s'.waiting then s'.futures[w.ticket].Pending?
       else s'.futures[w.ticket].Done?
  }

  lemma PrefixFacts(ws: seq<Waiter>)
    requires ws != [] && Ascending(ws) && DistinctTickets(ws)
    ensures var front, w := ws[..|ws| - 1], ws[|ws| - 1];
            && Ascending(front) && DistinctTickets(front)
            && (forall x :: x in ws <==> x in front || x == w)
            && (forall x :: x in front ==> x.ticket != w.ticket && Less(x, w))
  {
    assert ws == ws[..|ws| - 1] + [ws[|ws| - 1]];
  }

  /** Scanning `ws` leaves a queue in the same order, drawn from `ws`. */
  lemma {:induction false} ServeAllOrders(cfg: Config, s: Sched, ws: seq<Waiter>, now: real)
    requires s.waiting == [] && Ascending(ws) && DistinctTickets(ws)
    ensures var s' := ServeAll(cfg, s, ws, now);
            && Ascending(s'.waiting) && DistinctTickets(s'.waiting) && (forall w :: w in s'.waiting ==> w in ws)
            && s'.tickets == s.tickets && s'.redeemed == s.redeemed
  {
    if ws != [] {
      PrefixFacts(ws);
      ServeAllOrders(cfg, s, ws[..|ws| - 1], now);
    }
  }

  /** A turn settles its own waiter and leaves the others settled. */
  lemma TurnSettles(cfg: Config, s: Sched, s1: Sched, w: Waiter, x: Waiter, now: real)
    requires w.ticket in s.futures && w.ticket in s1.futures
    requires if x == w then s1.futures[w.ticket] == s.futures[w.ticket] && w !in s1.waiting
             else Settled(s, s1, x) && x.ticket != w.ticket
    ensures Settled(s, ServeOne(cfg, s1, w, now), x)
  {
  }

  /** ... and settles each waiter, touching no other future. */
  lemma {:induction false} ServeAllSettles(cfg: Config, s: Sched, ws: seq<Waiter>, now: real)
    requires s.waiting == [] && Ascending(ws) && DistinctTickets(ws) && forall w :: w in ws ==> w.ticket in s.futures
    ensures var s' := ServeAll(cfg, s, ws, now);
            && s'.futures.Keys == s.futures.Keys
            && (forall w :: w in ws ==> Settled(s, s', w))
            && (forall t :: t in s.futures && !Queues(ws, t) ==> s'.futures[t] == s.futures[t])
  {
    if ws != [] {
      var front, w := ws[..|ws| - 1], ws[|ws| - 1];
      PrefixFacts(ws);
      ServeAllOrders(cfg, s, front, now);
      ServeAllSettles(cfg, s, front, now);
      var s1, s' := ServeAll(cfg, s, front, now), ServeAll(cfg, s, ws, now);
      assert !Queues(front, w.ticket);
      forall t | t in s.futures && !Queues(ws, t)
        ensures s'.futures[t] == s.futures[t]
      {
        assert !Queues(front, t) && w in ws;
      }
      forall x | x in ws
        ensures Settled(s, s', x)
      {
        assert x != w ==> Settled(s, s1, x);
        TurnSettles(cfg, s, s1, w, x, now);
      }
    }
  }

  /** One dispatch keeps everything the scheduler relies on. */
  lemma DispatchKeeps(cfg: Config, s: Sched, now: real)
    requires Sound(cfg, s)
    ensures Sound(cfg, Dispatch(cfg, s, now))
  {
    var s0 := s.(waiting := []);
    var s' := Dispatch(cfg, s, now);
    ServeAllKeeps(cfg, s0, s.waiting, now);
    ServeAllOrders(cfg, s0, s.waiting, now);
    ServeAllSettles(cfg, s0, s.waiting, now);
    forall t | t in s'.futures && s'.futures[t].Pending?
      ensures Queues(s'.waiting, t)
    {
      if Queues(s.waiting, t) {
        var w :| w in s.waiting && w.ticket == t;
        assert Settled(s0, s', w);
      }
    }
  }

  // ---- every operation ----

  lemma ReleaseKeeps(cfg: Config, s: Sched, id: RequestId, now: real)
    requires Sound(cfg, s)
    ensures Sound(cfg, Release(cfg, s, id, now))
  {
    GiveBackKeeps(cfg, s, id);
    DispatchKeeps(cfg, GiveBack(s, id), now);
  }

  lemma {:induction false} ReleaseAllKeeps(cfg: Config, s: Sched, ids: seq<RequestId>, now: real)
    requires Sound(cfg, s)
    ensures Sound(cfg, ReleaseAll(cfg, s, ids, now))
  {
    if ids != [] {
      ReleaseAllKeeps(cfg, s, ids[..|ids| - 1], now);
      ReleaseKeeps(cfg, ReleaseAll(cfg, s, ids[..|ids| - 1], now), ids[|ids| - 1], now);
    }
  }

  lemma RedeemKeeps(cfg: Config, s: Sched, id: RequestId, member: MemberId, now: real)
    requires Sound(cfg, s)
    ensures Sound(cfg, Redeem(cfg, s, id, member, now))
  {
    match RedeemCheck(s, id, member, now) {
      case None =>
      case Some(Expired) => ReleaseKeeps(cfg, s, id, now);
      case Some(_) =>
    }
  }

  lemma {:induction false} InsertTickets(ws: seq<Waiter>, w: Waiter)
    requires DistinctTickets(ws) && forall x :: x in ws ==> x.ticket != w.ticket
    ensures DistinctTickets(Insert(ws, w)) && forall x :: x in Insert(ws, w) <==> x in ws || x == w
  {
    if ws == [] || Less(w, ws[0]) {
    } else {
      assert ws == [ws[0]] + ws[1..];
      InsertTickets(ws[1..], w);
      var rest := Insert(ws[1..], w);
      assert forall i :: 0 <= i < |rest| ==> rest[i] in rest;
      forall x | x in ws[1..]
        ensures x.ticket != ws[0].ticket
      {
        var i :| 0 <= i < |ws| - 1 && ws[1..][i] == x;
        assert ws[i + 1] == x;
      }
    }
  }

  /** A new waiter takes its place, its future pending. */
  lemma QueueingKeeps(s: Sched, w: Waiter)
    requires QueueSound(s) && w.ticket == s.tickets
    ensures QueueSound(s.(waiting := Insert(s.waiting, w), futures := s.futures[w.ticket := Pending], tickets := w.ticket + 1))
  {
    assert forall x :: x in s.waiting ==> x.ticket in s.futures && x.ticket != w.ticket;
    InsertTickets(s.waiting, w);
    InsertIs(s.waiting, w);
    forall u | u in s.futures[w.ticket := Pending] && s.futures[w.ticket := Pending][u].Pending?
      ensures Queues(Insert(s.waiting, w), u)
    {
      if u == w.ticket {
        assert w in Insert(s.waiting, w);
      } else {
        assert Queues(s.waiting, u);
        var x :| x in s.waiting && x.ticket == u;
        assert x in Insert(s.waiting, w);
      }
    }
  }

  lemma AcquireKeeps(cfg: Config, s: Sched, member: MemberId, model: string, now: real)
    requires Sound(cfg, s)
    ensures Sound(cfg, Acquire(cfg, s, member, model, now))
  {
    match AcquireOutcome(cfg, s, member, model, now) {
      case Granted(l) => IssueKeeps(cfg, s, member, l.peer, model, now);
      case Queued(_) => QueueingKeeps(s, WaiterFor(s, member, model));
      case _ =>
    }
  }

  lemma AbandonKeeps(cfg: Config, s: Sched, t: nat)
    requires Sound(cfg, s)
    ensures Sound(cfg, Abandon(s, t))
  {
  }

  /** The scheduler drops a waiter only once its wait has ended, so never a pending one. */
  lemma DropKeeps(cfg: Config, s: Sched, t: nat)
    requires Sound(cfg, s) && !IsPending(s.futures, t)
    ensures Sound(cfg, Drop(s, t))
  {
    WithoutTicketIs(s.waiting, t);
    var s' := Drop(s, t);
    forall u | u in s'.futures && s'.futures[u].Pending?
      ensures Queues(s'.waiting, u)
    {
      assert Queues(s.waiting, u);
      var x :| x in s.waiting && x.ticket == u;
      assert x in s'.waiting;
    }
  }

  predicate LeavesSlots(e: Event) {
    !e.TakeSlot? && !e.ReturnSlot?
  }

  /** Beats, attestations, failures and reads never change a slot count. */
  lemma RegistryKeepsSlots(cfg: Config, r: Reg, e: Event, p: PeerId)
    requires LeavesSlots(e)
    ensures InFlight(Step(cfg, r, e).states, p) == InFlight(r.states, p)
    ensures p in Step(cfg, r, e).states ==> p in r.states || p in cfg.peers
  {
    Routing.StatesFollow(cfg, r, e);
  }

  lemma RegistryStepKeeps(cfg: Config, s: Sched, e: Event)
    requires Sound(cfg, s) && LeavesSlots(e)
    ensures Sound(cfg, s.(reg := Step(cfg, s.reg, e)))
  {
    forall p
      ensures InFlight(Step(cfg, s.reg, e).states, p) == InFlight(s.reg.states, p)
      ensures p in Step(cfg, s.reg, e).states ==> p in s.reg.states || p in cfg.peers
    {
      RegistryKeepsSlots(cfg, s.reg, e, p);
    }
  }

  // ---- conservation over all peers ----

  function SumInFlight(states: map<PeerId, PeerState>, ids: seq<PeerId>): int {
    if ids == [] then 0 else SumInFlight(states, ids[..|ids| - 1]) + InFlight(states, ids[|ids| - 1])
  }

  function SumCount(leases: seq<Lease>, ids: seq<PeerId>): nat {
    if ids == [] then 0 else SumCount(leases, ids[..|ids| - 1]) + Count(leases, ids[|ids| - 1])
  }

  lemma {:induction false} SumCountHead(leases: seq<Lease>, ids: seq<PeerId>)
    requires leases != [] && Distinct(ids)
    ensures SumCount(leases, ids) == SumCount(leases[1..], ids) + if leases[0].peer in ids then 1 else 0
  {
    if ids != [] {
      SumCountHead(leases, ids[..|ids| - 1]);
      assert ids == ids[..|ids| - 1] + [ids[|ids| - 1]];
    }
  }

  lemma {:induction false} SumCountNothing(ids: seq<PeerId>)
    ensures SumCount([], ids) == 0
  {
    if ids != [] {
      SumCountNothing(ids[..|ids| - 1]);
    }
  }

  lemma {:induction false} EveryLeaseCountsOnce(leases: seq<Lease>, ids: seq<PeerId>)
    requires Distinct(ids) && forall l :: l in leases ==> l.peer in ids
    ensures SumCount(leases, ids) == |leases|
  {
    if leases == [] {
      SumCountNothing(ids);
    } else {
      SumCountHead(leases, ids);
      EveryLeaseCountsOnce(leases[1..], ids);
    }
  }

  lemma {:induction false} SumsEqual(cfg: Config, s: Sched, ids: seq<PeerId>)
    requires SlotsMatch(cfg, s) && forall p :: p in ids ==> p in cfg.peers
    ensures SumInFlight(s.reg.states, ids) == SumCount(s.leases, ids)
  {
    if ids != [] {
      SumsEqual(cfg, s, ids[..|ids| - 1]);
    }
  }

  /** Slots in use, summed over all peers, are exactly the active leases. */
  lemma SlotsAreLeases(cfg: Config, s: Sched)
    requires WellFormed(cfg) && Sound(cfg, s)
    ensures SumInFlight(s.reg.states, cfg.order) == |s.leases|
  {
    SumsEqual(cfg, s, cfg.order);
    EveryLeaseCountsOnce(s.leases, cfg.order);
  }
}
