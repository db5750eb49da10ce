/** What every run of the coordinator keeps: slots, leases and bills. */
module CoordinatorLaws {
  import opened Wrappers
  import opened Peers
  import opened Ledgers
  import opened Registry
  import opened WaitHeap
  import opened Scheduler
  import opened Slots
  import opened Fairness
  import opened Coordinator

  // ---- how scheduler steps relate ----

  /** Leases are only added under fresh ids; one that stays keeps its redeemed mark; no bill is written. */
  ghost predicate Evolves(s: Sched, s': Sched) {
    && s.issued <= s'.issued
    && (forall l :: l in s'.leases && l.id < |s.issued| ==> l in s.leases && (l.id in s.redeemed ==> l.id in s'.redeemed))
    && s'.reg.books.consumptions == s.reg.books.consumptions
  }

  lemma EvolvesTrans(a: Sched, b: Sched, c: Sched)
    requires Evolves(a, b) && Evolves(b, c)
    ensures Evolves(a, c)
  {
  }

  lemma {:induction false} ScanEvolves(cfg: Config, s: Sched, ws: seq<Waiter>, now: real)
    ensures Evolves(s, ServeAll(cfg, s, ws, now))
  {
    if ws != [] {
      var front := ws[..|ws| - 1];
      ScanEvolves(cfg, s, front, now);
      EvolvesTrans(s, ServeAll(cfg, s, front, now), ServeAll(cfg, s, ws, now));
    }
  }

  lemma ReleaseEvolves(cfg: Config, s: Sched, id: RequestId, now: real)
    requires Sound(cfg, s)
    ensures Evolves(s, Release(cfg, s, id, now))
  {
    WithoutIs(s.leases, id);
    var s1 := GiveBack(s, id).(waiting := []);
    assert Evolves(s, s1);
    ScanEvolves(cfg, s1, s.waiting, now);
    EvolvesTrans(s, s1, Release(cfg, s, id, now));
  }

  lemma {:induction false} ReleaseAllEvolves(cfg: Config, s: Sched, ids: seq<RequestId>, now: real)
    requires Sound(cfg, s)
    ensures Evolves(s, ReleaseAll(cfg, s, ids, now))
  {
    if ids != [] {
      var front := ids[..|ids| - 1];
      ReleaseAllEvolves(cfg, s, front, now);
      ReleaseAllKeeps(cfg, s, front, now);
      ReleaseEvolves(cfg, ReleaseAll(cfg, s, front, now), ids[|ids| - 1], now);
      EvolvesTrans(s, ReleaseAll(cfg, s, front, now), ReleaseAll(cfg, s, ids, now));
    }
  }

  lemma RedeemEvolves(cfg: Config, s: Sched, id: RequestId, member: MemberId, now: real)
    requires Sound(cfg, s)
    ensures Evolves(s, Redeem(cfg, s, id, member, now))
  {
    match RedeemCheck(s, id, member, now) {
      case None =>
      case Some(Expired) => ReleaseEvolves(cfg, s, id, now);
      case Some(_) =>
    }
  }

  lemma {:induction false} SettleSharesBills(s: Reg, timeout: real, p: PeerId, shares: seq<Share>, now: real, elapsed: real, owed: bool)
    ensures SettleShares(s, timeout, p, shares, now, elapsed, owed).books.consumptions == s.books.consumptions
  {
    if shares != [] {
      SettleSharesBills(s, timeout, p, shares[..|shares| - 1], now, elapsed, owed);
    }
  }

  lemma RegistryBillsNothing(cfg: Config, r: Reg, e: Event)
    ensures Step(cfg, r, e).books.consumptions == r.books.consumptions
  {
    if e.Beat? && e.peer in cfg.peers && e.peer in r.states {
      var st := r.states[e.peer];
      SettleSharesBills(r, cfg.timeout, e.peer, CreditSplit(cfg.peers[e.peer], st.residentGb), e.now,
                        Min(e.now - st.lastCredited, MAX_CREDITED_INTERVAL), Owed(st, e.now));
    }
  }

  /** Looking at states adds unhealthy ones and changes nothing else. */
  lemma {:induction false} LookAllIs(cfg: Config, r: Reg, ids: seq<PeerId>)
    ensures var r' := LookAll(cfg, r, ids);
            && r'.attest == r.attest && r'.books == r.books && r'.log == r.log
            && (forall p :: p in r.states ==> p in r'.states && r'.states[p] == r.states[p])
            && (forall p :: p in r'.states && p !in r.states ==> p in cfg.peers && r'.states[p] == UNSEEN)
  {
    if ids != [] {
      LookAllIs(cfg, r, ids[..|ids| - 1]);
    }
  }

  lemma ObserveKeeps(cfg: Config, s: Sched)
    requires Sound(cfg, s)
    ensures Sound(cfg, Observe(cfg, s)) && Evolves(s, Observe(cfg, s))
  {
    LookAllIs(cfg, s.reg, cfg.order);
  }

  lemma ObserveConserves(cfg: Config, s: Sched, now: real)
    requires Conserving(cfg, s, now)
    ensures Conserving(cfg, Observe(cfg, s), now)
  {
    LookAllIs(cfg, s.reg, cfg.order);
    forall w, p | w in s.waiting && IsPending(s.futures, w.ticket)
      ensures !Candidate(cfg, Observe(cfg, s).reg.states, p, w.model, now)
    {
      assert !Candidate(cfg, s.reg.states, p, w.model, now);
    }
  }

  lemma AcquireEvolves(cfg: Config, s: Sched, member: MemberId, model: string, now: real)
    requires Sound(cfg, s)
    ensures Evolves(s, Acquire(cfg, s, member, model, now))
  {
  }

  /** Reclaiming, then admitting: sound, and only ever adding fresh leases. */
  lemma HandleLeaseKeeps(cfg: Config, s: Sched, member: MemberId, model: string, now: real)
    requires Sound(cfg, s)
    ensures Sound(cfg, HandleLease(cfg, s, member, model, now)) && Evolves(s, HandleLease(cfg, s, member, model, now))
  {
    if model != "" {
      var s1 := ExpireStale(cfg, s, now);
      ReleaseAllKeeps(cfg, s, StaleIds(s.leases, now), now);
      ReleaseAllEvolves(cfg, s, StaleIds(s.leases, now), now);
      var s2 := Acquire(cfg, s1, member, model, now);
      AcquireKeeps(cfg, s1, member, model, now);
      AcquireEvolves(cfg, s1, member, model, now);
      EvolvesTrans(s, s1, s2);
      ObserveKeeps(cfg, s2);
      EvolvesTrans(s, s2, Observe(cfg, s2));
    }
  }

  // ---- the queue names models ----

  lemma {:induction false} ScanKeepsModels(cfg: Config, s: Sched, ws: seq<Waiter>, now: real)
    requires NamesModels(ws) && NamesModels(s.waiting)
    ensures NamesModels(ServeAll(cfg, s, ws, now).waiting)
  {
    if ws != [] {
      assert forall w :: w in ws[..|ws| - 1] ==> w in ws;
      ScanKeepsModels(cfg, s, ws[..|ws| - 1], now);
    }
  }

  lemma ReleaseKeepsModels(cfg: Config, s: Sched, id: RequestId, now: real)
    requires NamesModels(s.waiting)
    ensures NamesModels(Release(cfg, s, id, now).waiting)
  {
    var s1 := GiveBack(s, id);
    ScanKeepsModels(cfg, s1.(waiting := []), s1.waiting, now);
  }

  lemma {:induction false} ReleaseAllKeepsModels(cfg: Config, s: Sched, ids: seq<RequestId>, now: real)
    requires NamesModels(s.waiting)
    ensures NamesModels(ReleaseAll(cfg, s, ids, now).waiting)
  {
    if ids != [] {
      ReleaseAllKeepsModels(cfg, s, ids[..|ids| - 1], now);
      ReleaseKeepsModels(cfg, ReleaseAll(cfg, s, ids[..|ids| - 1], now), ids[|ids| - 1], now);
    }
  }

  lemma {:induction false} InsertMembers(ws: seq<Waiter>, w: Waiter)
    ensures forall x :: x in Insert(ws, w) ==> x in ws || x == w
  {
    if ws != [] && !Less(w, ws[0]) {
      InsertMembers(ws[1..], w);
    }
  }

  lemma {:induction false} WithoutTicketMembers(ws: seq<Waiter>, t: nat)
    ensures forall x :: x in WithoutTicket(ws, t) ==> x in ws
  {
    if ws != [] {
      WithoutTicketMembers(ws[1..], t);
    }
  }

  lemma HandleKeepsModels(cfg: Config, c: Coord, q: Request)
    requires NamesModels(c.sched.waiting)
    ensures NamesModels(Handle(cfg, c, q).sched.waiting)
  {
    var s := c.sched;
    match q {
      case LeaseFor(member, model, now) =>
        if model != "" {
          ReleaseAllKeepsModels(cfg, s, StaleIds(s.leases, now), now);
          var s1 := ExpireStale(cfg, s, now);
          InsertMembers(s1.waiting, WaiterFor(s1, member, model));
        }
      case InferFor(id, sender, now) => ReleaseKeepsModels(cfg, s, id, now);
      case RelayEnds(id, now) => ReleaseKeepsModels(cfg, s, id, now);
      case CleanUp(t) => WithoutTicketMembers(s.waiting, t);
      case _ =>
    }
  }

  // ---- billing ----

  ghost predicate Redeemed(rs: seq<Redemption>, id: RequestId, member: MemberId) {
    exists i :: 0 <= i < |rs| && rs[i] == Redemption(id, member)
  }

  predicate DistinctRedemptions(rs: seq<Redemption>) {
    forall i, j :: 0 <= i < j < |rs| ==> rs[i].id != rs[j].id
  }

  /** A relay was redeemed by the member its lease was issued to, and goes to that lease's peer. */
  ghost predicate StreamSound(c: Coord, id: RequestId, st: Stream) {
    && Redeemed(c.redemptions, id, st.sender)
    && id < |c.sched.issued| && c.sched.issued[id].member == st.sender && c.sched.issued[id].peer == st.peer
  }

  ghost predicate BillSound(c: Coord, row: Consumed) {
    && Redeemed(c.redemptions, row.request, row.member)
    && row.request < |c.sched.issued|
    && c.sched.issued[row.request].member == row.member && c.sched.issued[row.request].peer == row.peer
  }

  ghost predicate BillingSound(c: Coord) {
    && DistinctRedemptions(c.redemptions)
    && (forall r :: r in c.redemptions ==> r.id < |c.sched.issued| && c.sched.issued[r.id].member == r.member)
    && (forall r, l :: r in c.redemptions && l in c.sched.leases && l.id == r.id ==> l.id in c.sched.redeemed)
    && (forall id :: id in c.accepted ==> StreamSound(c, id, c.accepted[id]))
    && (forall id :: id in c.running ==> StreamSound(c, id, c.running[id]))
    && (forall row :: row in c.sched.reg.books.consumptions ==> BillSound(c, row))
    && (forall i, j :: 0 <= i < j < |c.sched.reg.books.consumptions| ==>
          c.sched.reg.books.consumptions[i].request != c.sched.reg.books.consumptions[j].request)
  }

  lemma BillingEvolves(c: Coord, s': Sched)
    requires BillingSound(c) && Evolves(c.sched, s')
    ensures BillingSound(c.(sched := s'))
  {
    var c' := c.(sched := s');
    forall id | id in c.accepted ensures StreamSound(c', id, c.accepted[id]) { assert StreamSound(c, id, c.accepted[id]); }
    forall id | id in c.running ensures StreamSound(c', id, c.running[id]) { assert StreamSound(c, id, c.running[id]); }
    forall row | row in s'.reg.books.consumptions ensures BillSound(c', row) { assert BillSound(c, row); }
  }

  lemma MoreRedemptions(rs: seq<Redemption>, r: Redemption, id: RequestId, m: MemberId)
    requires Redeemed(rs, id, m)
    ensures Redeemed(rs + [r], id, m)
  {
    var i :| 0 <= i < |rs| && rs[i] == Redemption(id, m);
    assert (rs + [r])[i] == Redemption(id, m);
  }

  lemma AddRedemption(c: Coord, id: RequestId, st: Stream)
    requires BillingSound(c) && (forall r :: r in c.redemptions ==> r.id != id)
    requires id < |c.sched.issued| && c.sched.issued[id].member == st.sender && c.sched.issued[id].peer == st.peer
    requires id in c.sched.redeemed
    ensures BillingSound(c.(accepted := c.accepted[id := st], redemptions := c.redemptions + [Redemption(id, st.sender)]))
  {
    var r := Redemption(id, st.sender);
    var c' := c.(accepted := c.accepted[id := st], redemptions := c.redemptions + [r]);
    assert c'.redemptions[|c.redemptions|] == r;
    forall j | j in c.accepted && j != id ensures StreamSound(c', j, c'.accepted[j]) {
      assert StreamSound(c, j, c.accepted[j]);
      MoreRedemptions(c.redemptions, r, j, c.accepted[j].sender);
    }
    forall j | j in c.running ensures StreamSound(c', j, c'.running[j]) {
      assert StreamSound(c, j, c.running[j]);
      MoreRedemptions(c.redemptions, r, j, c.running[j].sender);
    }
    forall row | row in c.sched.reg.books.consumptions ensures BillSound(c', row) {
      assert BillSound(c, row);
      MoreRedemptions(c.redemptions, r, row.request, row.member);
    }
  }

  /** A grant is the first for its id: a second redemption of the same lease is refused. */
  lemma GrantKeepsBilling(cfg: Config, c: Coord, id: RequestId, sender: MemberId, now: real)
    requires Sound(cfg, c.sched) && BillingSound(c) && RedeemCheck(c.sched, id, sender, now) == None
    ensures BillingSound(HandleInfer(cfg, c, id, sender, now))
    ensures forall r :: r in c.redemptions ==> r.id != id
  {
    var l := FindLease(c.sched.leases, id).value;
    var s1 := Redeem(cfg, c.sched, id, sender, now);
    RedeemKeeps(cfg, c.sched, id, sender, now);
    RedeemEvolves(cfg, c.sched, id, sender, now);
    ObserveKeeps(cfg, s1);
    EvolvesTrans(c.sched, s1, Observe(cfg, s1));
    BillingEvolves(c, Observe(cfg, s1));
    AddRedemption(c.(sched := Observe(cfg, s1)), id, Stream(sender, l.peer));
  }

  lemma ReceiptKeepsBilling(cfg: Config, c: Coord, id: RequestId, prompt: nat, completion: nat)
    requires BillingSound(c)
    ensures BillingSound(Handle(cfg, c, ReceiptArrives(id, prompt, completion)))
  {
    if id in c.running {
      var row := Consumed(c.running[id].sender, id, c.running[id].peer, prompt, completion);
      var c' := Handle(cfg, c, ReceiptArrives(id, prompt, completion));
      assert StreamSound(c, id, c.running[id]);
      forall j | j in c.accepted ensures StreamSound(c', j, c'.accepted[j]) { assert StreamSound(c, j, c.accepted[j]); }
      forall j | j in c.running ensures StreamSound(c', j, c'.running[j]) { assert StreamSound(c, j, c.running[j]); }
      forall r | r in c'.sched.reg.books.consumptions ensures BillSound(c', r) {
        assert r != row ==> BillSound(c, r);
      }
    }
  }

  // ---- every run ----

  ghost predicate Inv(cfg: Config, c: Coord) {
    Sound(cfg, c.sched) && BillingSound(c) && NamesModels(c.sched.waiting)
  }

  lemma RegistryEventKeeps(cfg: Config, c: Coord, e: Event)
    requires Inv(cfg, c) && LeavesSlots(e)
    ensures Inv(cfg, c.(sched := c.sched.(reg := Step(cfg, c.sched.reg, e))))
  {
    RegistryStepKeeps(cfg, c.sched, e);
    RegistryBillsNothing(cfg, c.sched.reg, e);
    BillingEvolves(c, c.sched.(reg := Step(cfg, c.sched.reg, e)));
  }

  lemma InferKeeps(cfg: Config, c: Coord, id: RequestId, sender: MemberId, now: real)
    requires Inv(cfg, c)
    ensures Sound(cfg, HandleInfer(cfg, c, id, sender, now).sched) && BillingSound(HandleInfer(cfg, c, id, sender, now))
  {
    RedeemKeeps(cfg, c.sched, id, sender, now);
    RedeemEvolves(cfg, c.sched, id, sender, now);
    if RedeemCheck(c.sched, id, sender, now) == None {
      ObserveKeeps(cfg, Redeem(cfg, c.sched, id, sender, now));
      GrantKeepsBilling(cfg, c, id, sender, now);
    } else {
      BillingEvolves(c, Redeem(cfg, c.sched, id, sender, now));
    }
  }

  lemma StopKeepsBilling(c: Coord, id: RequestId)
    requires BillingSound(c)
    ensures BillingSound(c.(running := c.running - {id}))
  {
    var c' := c.(running := c.running - {id});
    forall j | j in c'.accepted ensures StreamSound(c', j, c'.accepted[j]) { assert StreamSound(c, j, c.accepted[j]); }
    forall j | j in c'.running ensures StreamSound(c', j, c'.running[j]) { assert StreamSound(c, j, c.running[j]); }
    forall row | row in c'.sched.reg.books.consumptions ensures BillSound(c', row) { assert BillSound(c, row); }
  }

  lemma EndKeeps(cfg: Config, c: Coord, id: RequestId, now: real)
    requires Inv(cfg, c)
    ensures Sound(cfg, Handle(cfg, c, RelayEnds(id, now)).sched) && BillingSound(Handle(cfg, c, RelayEnds(id, now)))
  {
    if id in c.running {
      var s1 := Release(cfg, c.sched, id, now);
      ReleaseKeeps(cfg, c.sched, id, now);
      ReleaseEvolves(cfg, c.sched, id, now);
      ObserveKeeps(cfg, s1);
      EvolvesTrans(c.sched, s1, Observe(cfg, s1));
      BillingEvolves(c, Observe(cfg, s1));
      StopKeepsBilling(c.(sched := Observe(cfg, s1)), id);
    }
  }

  lemma StartKeeps(cfg: Config, c: Coord, id: RequestId)
    requires BillingSound(c)
    ensures BillingSound(Handle(cfg, c, RelayStarts(id)))
  {
    var c' := Handle(cfg, c, RelayStarts(id));
    forall j | j in c'.accepted ensures StreamSound(c', j, c'.accepted[j]) { assert StreamSound(c, j, c.accepted[j]); }
    forall j | j in c'.running ensures StreamSound(c', j, c'.running[j]) {
      assert j in c.running && c'.running[j] == c.running[j] ==> StreamSound(c, j, c.running[j]);
      assert j == id && id in c.accepted ==> StreamSound(c, id, c.accepted[id]);
    }
    forall row | row in c'.sched.reg.books.consumptions ensures BillSound(c', row) { assert BillSound(c, row); }
  }

  lemma QueueRequestKeeps(cfg: Config, c: Coord, q: Request)
    requires Inv(cfg, c) && (q.LeaseFor? || q.WaitEnds? || q.CleanUp? || q.StatsRead?)
    ensures Sound(cfg, Handle(cfg, c, q).sched) && BillingSound(Handle(cfg, c, q))
  {
    var s' := Handle(cfg, c, q).sched;
    match q {
      case LeaseFor(member, model, now) => HandleLeaseKeeps(cfg, c.sched, member, model, now);
      case WaitEnds(t) => AbandonKeeps(cfg, c.sched, t);
      case CleanUp(t) => if !IsPending(c.sched.futures, t) { DropKeeps(cfg, c.sched, t); }
      case StatsRead => ObserveKeeps(cfg, c.sched);
    }
    BillingEvolves(c, s');
  }

  lemma RelayRequestKeeps(cfg: Config, c: Coord, q: Request)
    requires Inv(cfg, c) && (q.RelayStarts? || q.ReceiptArrives? || q.RelayEnds? || q.InferFor?)
    ensures Sound(cfg, Handle(cfg, c, q).sched) && BillingSound(Handle(cfg, c, q))
  {
    match q {
      case InferFor(id, sender, now) => InferKeeps(cfg, c, id, sender, now);
      case RelayStarts(id) => StartKeeps(cfg, c, id);
      case ReceiptArrives(id, prompt, completion) => ReceiptKeepsBilling(cfg, c, id, prompt, completion);
      case RelayEnds(id, now) => EndKeeps(cfg, c, id, now);
    }
  }

  /** The registry event a request amounts to, if it is one that only the registry sees. */
  function EventOf(cfg: Config, c: Coord, q: Request): Option<Event> {
    match q
    case HeartbeatFrom(signer, p, now, later, gb, healthy, detail) => HeartbeatEvent(cfg, p, signer, now, later, gb, healthy, detail)
    case RelayBreaks(id) => if id in c.running then Some(RelayFails(c.running[id].peer)) else None
    case _ => None
  }

  lemma RegistryRequestIs(cfg: Config, c: Coord, q: Request)
    requires q.HeartbeatFrom? || q.RelayBreaks?
    ensures match EventOf(cfg, c, q)
            case None => Handle(cfg, c, q) == c
            case Some(e) => LeavesSlots(e) && Handle(cfg, c, q) == c.(sched := c.sched.(reg := Step(cfg, c.sched.reg, e)))
  {
  }

  lemma HandleKeeps(cfg: Config, c: Coord, q: Request)
    requires Inv(cfg, c)
    ensures Inv(cfg, Handle(cfg, c, q))
  {
    if q.HeartbeatFrom? || q.RelayBreaks? {
      RegistryRequestIs(cfg, c, q);
      var e := EventOf(cfg, c, q);
      if e.Some? { RegistryEventKeeps(cfg, c, e.value); }
    } else {
      HandleKeepsModels(cfg, c, q);
      if q.LeaseFor? || q.WaitEnds? || q.CleanUp? || q.StatsRead? {
        QueueRequestKeeps(cfg, c, q);
      } else {
        RelayRequestKeeps(cfg, c, q);
      }
    }
  }

  lemma {:induction false} RunKeeps(cfg: Config, qs: seq<Request>)
    requires WellFormed(cfg)
    ensures Inv(cfg, Serve(cfg, qs))
  {
    if qs != [] {
      RunKeeps(cfg, qs[..|qs| - 1]);
      HandleKeeps(cfg, Serve(cfg, qs[..|qs| - 1]), qs[|qs| - 1]);
    }
  }

  /** In every reachable state each peer's slots in use are its leases, within its limit, and sum to the active leases. */
  lemma SlotConservation(cfg: Config, qs: seq<Request>, p: PeerId)
    requires WellFormed(cfg) && p in cfg.peers
    ensures var s := Serve(cfg, qs).sched;
            && 0 <= InFlight(s.reg.states, p) == Count(s.leases, p) <= cfg.peers[p].maxConcurrent
            && SumInFlight(s.reg.states, cfg.order) == |s.leases|
  {
    RunKeeps(cfg, qs);
    SlotsAreLeases(cfg, Serve(cfg, qs).sched);
  }

  /**
   In every run each request id is redeemed at most once, only by the member it was issued to; and
   each consumption row has a request id of its own, redeemed by the row's member, whose lease was
   issued to that member on the row's peer - however many receipts arrive.
   */
  lemma BillingLinearity(cfg: Config, qs: seq<Request>)
    requires WellFormed(cfg)
    ensures var c := Serve(cfg, qs);
            && DistinctRedemptions(c.redemptions)
            && (forall r :: r in c.redemptions ==> r.id < |c.sched.issued| && c.sched.issued[r.id].member == r.member)
            && (forall row :: row in c.sched.reg.books.consumptions ==> BillSound(c, row))
            && (forall i, j :: 0 <= i < j < |c.sched.reg.books.consumptions| ==>
                  c.sched.reg.books.consumptions[i].request != c.sched.reg.books.consumptions[j].request)
  {
    RunKeeps(cfg, qs);
  }
}
