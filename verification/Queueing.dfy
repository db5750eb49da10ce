/** Who joins the queue and where, over any run: members in surplus are served first, and nobody is served after leaving. */
module Queueing {
  import opened Wrappers
  import opened Peers
  import opened TextOrder
  import opened Ledgers
  import opened Registry
  import opened WaitHeap
  import opened Scheduler
  import opened Slots
  import opened Fairness
  import opened Coordinator
  import opened CoordinatorLaws
  import opened Words

  // ---- how a request for a lease is answered ----

  /** The peer's owner has lately said it is well, and it runs the model asked for. */
  predicate CanServe(cfg: Config, states: map<PeerId, PeerState>, p: PeerId, model: string, now: real) {
    && p in cfg.peers && p in states && states[p].healthy && now - states[p].lastSeen <= cfg.timeout
    && (model == "" || cfg.peers[p].model == model)
  }

  predicate HasSlot(cfg: Config, states: map<PeerId, PeerState>, p: PeerId)
    requires p in cfg.peers && p in states
  {
    states[p].inFlight < cfg.peers[p].maxConcurrent
  }

  /**
   A request is turned away exactly when no live peer serves its model, granted a lease on the least
   loaded one with a free slot if there is any, refused if the queue is full, and queued otherwise.
   */
  lemma AcquireExactly(cfg: Config, s: Sched, member: MemberId, model: string, now: real)
    requires WellFormed(cfg)
    ensures var r := AcquireOutcome(cfg, s, member, model, now);
            && (r.NoCapacity? <==> forall p :: !CanServe(cfg, s.reg.states, p, model, now))
            && (r.Granted? <==> exists p :: CanServe(cfg, s.reg.states, p, model, now) && HasSlot(cfg, s.reg.states, p))
            && (r.QueueFull? ==> |s.waiting| >= cfg.maxQueue) && (r.Queued? ==> |s.waiting| < cfg.maxQueue)
    ensures var r := AcquireOutcome(cfg, s, member, model, now);
            r.Granted? ==>
              && r.lease == Lease(|s.issued|, member, r.lease.peer, now + cfg.leaseTtl)
              && CanServe(cfg, s.reg.states, r.lease.peer, model, now) && HasSlot(cfg, s.reg.states, r.lease.peer)
              && forall q :: CanServe(cfg, s.reg.states, q, model, now) && HasSlot(cfg, s.reg.states, q) ==>
                   AtLeastAsLoaded(s.reg.states, q, r.lease.peer)
  {
    PickNone(cfg, s.reg.states, model, now);
    forall p
      ensures CanServe(cfg, s.reg.states, p, model, now) <==> Offers(cfg, s.reg.states, p, model, now)
      ensures Candidate(cfg, s.reg.states, p, model, now) <==> CanServe(cfg, s.reg.states, p, model, now) && HasSlot(cfg, s.reg.states, p)
    {
    }
    forall p | Offers(cfg, s.reg.states, p, model, now)
      ensures AnyLive(cfg, s.reg.states, model, now)
    {
      var i :| 0 <= i < |cfg.order| && cfg.order[i] == p;
    }
    forall q | Candidate(cfg, s.reg.states, q, model, now)
      ensures Pick(cfg, s.reg.states, model, now).Some? && AtLeastAsLoaded(s.reg.states, q, Pick(cfg, s.reg.states, model, now).value)
    {
      PickIsLeast(cfg, s.reg.states, cfg.order, model, now, q);
    }
  }

  // ---- what the queue remembers ----

  /** The request that took a ticket: who asked, for what, and the score it had at that moment. */
  datatype Entry = Entry(member: MemberId, model: string, score: real)

  function Joined(cfg: Config, qs: seq<Request>, t: nat): Option<Entry> {
    if qs == [] then None
    else
      var s, q := Serve(cfg, qs[..|qs| - 1]).sched, qs[|qs| - 1];
      if q.LeaseFor? && s.tickets == t && Serve(cfg, qs).sched.tickets > t
      then Some(Entry(q.member, q.model, BalanceOf(s.reg.books, q.member).score))
      else Joined(cfg, qs[..|qs| - 1], t)
  }

  /** Nobody joins: whoever waits did before. */
  ghost predicate NobodyJoins(a: Sched, b: Sched) {
    b.tickets == a.tickets && forall w :: w in b.waiting ==> w in a.waiting
  }

  lemma {:induction false} ScanJoinsNobody(cfg: Config, s: Sched, ws: seq<Waiter>, now: real)
    ensures var s' := ServeAll(cfg, s, ws, now);
            s'.tickets == s.tickets && forall w :: w in s'.waiting ==> w in s.waiting || w in ws
  {
    if ws != [] { ScanJoinsNobody(cfg, s, ws[..|ws| - 1], now); }
  }

  lemma ReleaseJoinsNobody(cfg: Config, s: Sched, id: RequestId, now: real)
    ensures NobodyJoins(s, Release(cfg, s, id, now))
  {
    ScanJoinsNobody(cfg, GiveBack(s, id).(waiting := []), s.waiting, now);
  }

  lemma {:induction false} ReleaseAllJoinsNobody(cfg: Config, s: Sched, ids: seq<RequestId>, now: real)
    ensures NobodyJoins(s, ReleaseAll(cfg, s, ids, now))
  {
    if ids != [] {
      ReleaseAllJoinsNobody(cfg, s, ids[..|ids| - 1], now);
      ReleaseJoinsNobody(cfg, ReleaseAll(cfg, s, ids[..|ids| - 1], now), ids[|ids| - 1], now);
    }
  }

  /** Whoever waits after a request waited before, or has just joined with the next ticket and its score. */
  ghost predicate JoinsAtMost(a: Sched, b: Sched, q: Request) {
    || NobodyJoins(a, b)
    || (&& q.LeaseFor? && b.tickets == a.tickets + 1
        && forall w :: w in b.waiting ==>
             w in a.waiting || w == Waiter(-BalanceOf(a.reg.books, q.member).score, a.tickets, q.member, q.model))
  }

  lemma LeaseJoins(cfg: Config, s: Sched, member: MemberId, model: string, now: real)
    ensures JoinsAtMost(s, HandleLease(cfg, s, member, model, now), LeaseFor(member, model, now))
  {
    if model != "" {
      var s1 := ExpireStale(cfg, s, now);
      ReleaseAllJoinsNobody(cfg, s, StaleIds(s.leases, now), now);
      ReleaseAllSlotsOnly(cfg, s, StaleIds(s.leases, now), now);
      InsertMembers(s1.waiting, WaiterFor(s1, member, model));
    }
  }

  lemma RequestJoins(cfg: Config, c: Coord, q: Request)
    ensures JoinsAtMost(c.sched, Handle(cfg, c, q).sched, q)
  {
    match q {
      case HeartbeatFrom(_, _, _, _, _, _, _) => RegistryRequestIs(cfg, c, q);
      case RelayBreaks(_) => RegistryRequestIs(cfg, c, q);
      case LeaseFor(member, model, now) => LeaseJoins(cfg, c.sched, member, model, now);
      case InferFor(id, sender, now) => ReleaseJoinsNobody(cfg, c.sched, id, now);
      case RelayEnds(id, now) => ReleaseJoinsNobody(cfg, c.sched, id, now);
      case CleanUp(t) => WithoutTicketMembers(c.sched.waiting, t);
      case _ =>
    }
  }

  /** Every waiter is the request that took its ticket, filed under the score it had then. */
  ghost predicate Filed(cfg: Config, qs: seq<Request>, w: Waiter) {
    Joined(cfg, qs, w.ticket) == Some(Entry(w.member, w.model, -w.negScore))
  }

  lemma {:induction false} QueueIsFiled(cfg: Config, qs: seq<Request>)
    requires WellFormed(cfg)
    ensures forall w :: w in Serve(cfg, qs).sched.waiting ==> Filed(cfg, qs, w)
  {
    if qs != [] {
      var before, q := qs[..|qs| - 1], qs[|qs| - 1];
      QueueIsFiled(cfg, before);
      CoordinatorLaws.RunKeeps(cfg, before);
      RequestJoins(cfg, Serve(cfg, before), q);
      forall w | w in Serve(cfg, qs).sched.waiting ensures Filed(cfg, qs, w) {
        StaysFiled(cfg, qs, w);
      }
    }
  }

  lemma StaysFiled(cfg: Config, qs: seq<Request>, w: Waiter)
    requires qs != [] && w in Serve(cfg, qs).sched.waiting
    requires var s := Serve(cfg, qs[..|qs| - 1]).sched;
             && JoinsAtMost(s, Serve(cfg, qs).sched, qs[|qs| - 1]) && (w in s.waiting ==> w.ticket < s.tickets)
             && (w in s.waiting ==> Filed(cfg, qs[..|qs| - 1], w))
    ensures Filed(cfg, qs, w)
  {
  }

  // ---- the order of the queue ----

  /** The first goes before the second: it had the higher score when it joined, or the same and joined earlier. */
  predicate GoesBefore(a: Entry, t: nat, b: Entry, u: nat) {
    a.score > b.score || (a.score == b.score && t < u)
  }

  /**
   After any run the queue lists those who wait by the score each had when it asked, highest first,
   and those of equal score in the order they asked.
   */
  lemma QueueOrder(cfg: Config, qs: seq<Request>, i: nat, j: nat)
    requires WellFormed(cfg) && i < j < |Serve(cfg, qs).sched.waiting|
    ensures var w, x := Serve(cfg, qs).sched.waiting[i], Serve(cfg, qs).sched.waiting[j];
            var a, b := Joined(cfg, qs, w.ticket), Joined(cfg, qs, x.ticket);
            && a.Some? && b.Some? && GoesBefore(a.value, w.ticket, b.value, x.ticket)
            && w.member == a.value.member && w.model == a.value.model && x.member == b.value.member && x.model == b.value.model
  {
    CoordinatorLaws.RunKeeps(cfg, qs);
    QueueIsFiled(cfg, qs);
    var ws := Serve(cfg, qs).sched.waiting;
    assert ws[i] in ws && ws[j] in ws && Less(ws[i], ws[j]);
  }

  // ---- so the higher score is served first ----

  predicate WaitsIn(s: Sched, w: Waiter) {
    w in s.waiting && IsPending(s.futures, w.ticket)
  }

  /** `w` is served, or both are still waiting. */
  predicate InTurn(s: Sched, w: Waiter, x: Waiter) {
    && w.ticket in s.futures && x.ticket in s.futures
    && (s.futures[w.ticket].Done? || (WaitsIn(s, w) && WaitsIn(s, x)))
  }

  lemma {:induction false} PendingGrows(futures: map<nat, Future>, ws: seq<Waiter>, i: nat, j: nat, model: string)
    requires i <= j <= |ws|
    ensures PendingFor(futures, ws[..i], model) <= PendingFor(futures, ws[..j], model)
  {
    if i < j {
      PendingGrows(futures, ws, i, j - 1, model);
      assert ws[..j][..j - 1] == ws[..j - 1];
    }
  }

  lemma DispatchInTurn(cfg: Config, s: Sched, now: real, w: Waiter, x: Waiter)
    requires WellFormed(cfg) && Sound(cfg, s) && NamesModels(s.waiting)
    requires w.model == x.model && Less(w, x) && InTurn(s, w, x)
    ensures InTurn(Dispatch(cfg, s, now), w, x)
  {
    var s0, s', ws := s.(waiting := []), Dispatch(cfg, s, now), s.waiting;
    ServeAllSettles(cfg, s0, ws, now);
    if WaitsIn(s, w) && WaitsIn(s, x) {
      var i: nat :| i < |ws| && ws[i] == w;
      var j: nat :| j < |ws| && ws[j] == x;
      if j <= i { assert j < i ==> Less(ws[j], ws[i]); }
      ExactDispatch(cfg, s, i, now);
      ExactDispatch(cfg, s, j, now);
      PendingGrows(s.futures, ws, i, j, w.model);
      assert Settled(s0, s', w) && Settled(s0, s', x);
    } else {
      DoneStays(cfg, s0, ws, now, w.ticket);
    }
  }

  lemma {:induction false} DoneStays(cfg: Config, s: Sched, ws: seq<Waiter>, now: real, t: nat)
    requires t in s.futures && !s.futures[t].Pending?
    ensures t in ServeAll(cfg, s, ws, now).futures && ServeAll(cfg, s, ws, now).futures[t] == s.futures[t]
  {
    if ws != [] { DoneStays(cfg, s, ws[..|ws| - 1], now, t); }
  }

  lemma ReleaseInTurn(cfg: Config, s: Sched, id: RequestId, now: real, w: Waiter, x: Waiter)
    requires WellFormed(cfg) && Sound(cfg, s) && NamesModels(s.waiting)
    requires w.model == x.model && Less(w, x) && InTurn(s, w, x)
    ensures InTurn(Release(cfg, s, id, now), w, x)
  {
    GiveBackKeeps(cfg, s, id);
    DispatchInTurn(cfg, GiveBack(s, id), now, w, x);
  }

  lemma {:induction false} ReleaseAllInTurn(cfg: Config, s: Sched, ids: seq<RequestId>, now: real, w: Waiter, x: Waiter)
    requires WellFormed(cfg) && Sound(cfg, s) && NamesModels(s.waiting)
    requires w.model == x.model && Less(w, x) && InTurn(s, w, x)
    ensures InTurn(ReleaseAll(cfg, s, ids, now), w, x)
  {
    if ids != [] {
      var front := ids[..|ids| - 1];
      ReleaseAllInTurn(cfg, s, front, now, w, x);
      ReleaseAllKeeps(cfg, s, front, now);
      ReleaseAllKeepsModels(cfg, s, front, now);
      ReleaseInTurn(cfg, ReleaseAll(cfg, s, front, now), ids[|ids| - 1], now, w, x);
    }
  }

  /** What a request does to the futures. */
  function FuturesAfter(cfg: Config, c: Coord, q: Request): map<nat, Future> {
    if q.LeaseFor? then HandleLease(cfg, c.sched, q.member, q.model, q.now).futures
    else if q.InferFor? && RedeemCheck(c.sched, q.id, q.sender, q.now) == Some(Expired) then Release(cfg, c.sched, q.id, q.now).futures
    else if q.RelayEnds? && q.id in c.running then Release(cfg, c.sched, q.id, q.now).futures
    else if q.WaitEnds? then Abandon(c.sched, q.ticket).futures
    else c.sched.futures
  }

  lemma FuturesFollow(cfg: Config, c: Coord, q: Request)
    ensures Handle(cfg, c, q).sched.futures == FuturesAfter(cfg, c, q)
  {
    if q.HeartbeatFrom? || q.RelayBreaks? { RegistryRequestIs(cfg, c, q); }
  }

  lemma LeaseInTurn(cfg: Config, s: Sched, member: MemberId, model: string, now: real, w: Waiter, x: Waiter)
    requires WellFormed(cfg) && Sound(cfg, s) && NamesModels(s.waiting)
    requires w.model == x.model && Less(w, x) && WaitsIn(s, w) && WaitsIn(s, x)
    ensures var f := HandleLease(cfg, s, member, model, now).futures;
            w.ticket in f && x.ticket in f && (f[x.ticket].Done? ==> f[w.ticket].Done?)
  {
    if model != "" {
      ReleaseAllInTurn(cfg, s, StaleIds(s.leases, now), now, w, x);
      ReleaseAllKeeps(cfg, s, StaleIds(s.leases, now), now);
      AcquireKeepsFutures(cfg, ExpireStale(cfg, s, now), member, model, now, w.ticket);
      AcquireKeepsFutures(cfg, ExpireStale(cfg, s, now), member, model, now, x.ticket);
    }
  }

  lemma AcquireKeepsFutures(cfg: Config, s: Sched, member: MemberId, model: string, now: real, t: nat)
    requires t in s.futures && t < s.tickets
    ensures var f := Acquire(cfg, s, member, model, now).futures; t in f && f[t] == s.futures[t]
  {
  }

  /** No request of any kind gives the later one a lease and not the earlier. */
  lemma RequestInTurn(cfg: Config, c: Coord, q: Request, w: Waiter, x: Waiter)
    requires WellFormed(cfg) && Inv(cfg, c) && w.model == x.model && Less(w, x) && WaitsIn(c.sched, w) && WaitsIn(c.sched, x)
    ensures var f := Handle(cfg, c, q).sched.futures;
            w.ticket in f && x.ticket in f && (f[x.ticket].Done? ==> f[w.ticket].Done?)
  {
    FuturesFollow(cfg, c, q);
    if q.LeaseFor? {
      LeaseInTurn(cfg, c.sched, q.member, q.model, q.now, w, x);
    } else if q.InferFor? || q.RelayEnds? {
      ReleaseInTurn(cfg, c.sched, q.id, q.now, w, x);
    }
  }

  lemma PendingWaits(cfg: Config, s: Sched, t: nat) returns (w: Waiter)
    requires Sound(cfg, s) && IsPending(s.futures, t)
    ensures WaitsIn(s, w) && w.ticket == t
  {
    assert Queues(s.waiting, t);
    w :| w in s.waiting && w.ticket == t;
  }

  /**
   At no step of any run is a member given a lease while another still waits for the same model who
   had a higher score on joining, or the same and joined before.
   */
  lemma HigherScoreFirst(cfg: Config, qs: seq<Request>, q: Request, t: nat, u: nat)
    requires WellFormed(cfg)
    requires IsPending(Serve(cfg, qs).sched.futures, t) && IsPending(Serve(cfg, qs).sched.futures, u)
    requires var a, b := Joined(cfg, qs, t), Joined(cfg, qs, u);
             a.Some? && b.Some? ==> a.value.model == b.value.model && GoesBefore(a.value, t, b.value, u)
    ensures Joined(cfg, qs, t).Some? && Joined(cfg, qs, u).Some?
    ensures var f := Handle(cfg, Serve(cfg, qs), q).sched.futures;
            t in f && u in f && (f[u].Done? ==> f[t].Done?)
  {
    var c := Serve(cfg, qs);
    CoordinatorLaws.RunKeeps(cfg, qs);
    QueueIsFiled(cfg, qs);
    var w := PendingWaits(cfg, c.sched, t);
    var x := PendingWaits(cfg, c.sched, u);
    assert Filed(cfg, qs, w) && Filed(cfg, qs, x);
    RequestInTurn(cfg, c, q, w, x);
  }

  // ---- everyone is served what it asked for ----

  /** A lease that answers a wait is for whoever waited, on a peer of the model it asked for. */
  ghost predicate Answers(cfg: Config, s: Sched, t: nat, e: Entry) {
    t in s.futures && s.futures[t].Done? ==>
      var l := s.futures[t].lease;
      l.member == e.member && l.peer in cfg.peers && cfg.peers[l.peer].model == e.model
  }

  /** Whoever waits under `t` is `e`. */
  ghost predicate StandsFor(s: Sched, t: nat, e: Entry) {
    e.model != "" && forall w :: w in s.waiting && w.ticket == t ==> w.member == e.member && w.model == e.model
  }

  lemma ServeAnswers(cfg: Config, s: Sched, w: Waiter, now: real, t: nat, e: Entry)
    requires Answers(cfg, s, t, e) && StandsFor(s, t, e) && (w.ticket == t ==> w.member == e.member && w.model == e.model)
    ensures Answers(cfg, ServeOne(cfg, s, w, now), t, e) && StandsFor(ServeOne(cfg, s, w, now), t, e)
  {
  }

  lemma {:induction false} ServeAllAnswers(cfg: Config, s: Sched, ws: seq<Waiter>, now: real, t: nat, e: Entry)
    requires Answers(cfg, s, t, e) && StandsFor(s, t, e) && StandsFor(s.(waiting := ws), t, e)
    ensures Answers(cfg, ServeAll(cfg, s, ws, now), t, e) && StandsFor(ServeAll(cfg, s, ws, now), t, e)
  {
    if ws != [] {
      assert forall w :: w in ws[..|ws| - 1] ==> w in ws;
      ServeAllAnswers(cfg, s, ws[..|ws| - 1], now, t, e);
      ServeAnswers(cfg, ServeAll(cfg, s, ws[..|ws| - 1], now), ws[|ws| - 1], now, t, e);
    }
  }

  lemma ReleaseAnswers(cfg: Config, s: Sched, id: RequestId, now: real, t: nat, e: Entry)
    requires Answers(cfg, s, t, e) && StandsFor(s, t, e)
    ensures Answers(cfg, Release(cfg, s, id, now), t, e) && StandsFor(Release(cfg, s, id, now), t, e)
  {
    ServeAllAnswers(cfg, GiveBack(s, id).(waiting := []), s.waiting, now, t, e);
  }

  lemma {:induction false} ReleaseAllAnswers(cfg: Config, s: Sched, ids: seq<RequestId>, now: real, t: nat, e: Entry)
    requires Answers(cfg, s, t, e) && StandsFor(s, t, e)
    ensures Answers(cfg, ReleaseAll(cfg, s, ids, now), t, e)
  {
    if ids != [] {
      ReleaseAllStands(cfg, s, ids[..|ids| - 1], now, t, e);
      ReleaseAllAnswers(cfg, s, ids[..|ids| - 1], now, t, e);
      ReleaseAnswers(cfg, ReleaseAll(cfg, s, ids[..|ids| - 1], now), ids[|ids| - 1], now, t, e);
    }
  }

  lemma ReleaseAllStands(cfg: Config, s: Sched, ids: seq<RequestId>, now: real, t: nat, e: Entry)
    requires StandsFor(s, t, e)
    ensures StandsFor(ReleaseAll(cfg, s, ids, now), t, e)
  {
    ReleaseAllJoinsNobody(cfg, s, ids, now);
  }

  lemma RequestAnswers(cfg: Config, c: Coord, q: Request, t: nat, e: Entry)
    requires Inv(cfg, c) && Answers(cfg, c.sched, t, e) && StandsFor(c.sched, t, e) && t < c.sched.tickets
    ensures Answers(cfg, Handle(cfg, c, q).sched, t, e)
  {
    var s := c.sched;
    FuturesFollow(cfg, c, q);
    if q.LeaseFor? {
      ReleaseAllAnswers(cfg, s, StaleIds(s.leases, q.now), q.now, t, e);
      ReleaseAllJoinsNobody(cfg, s, StaleIds(s.leases, q.now), q.now);
      LeaseKeepsOthers(cfg, s, q.member, q.model, q.now, t);
    } else if q.InferFor? || q.RelayEnds? {
      ReleaseAnswers(cfg, s, q.id, q.now, t, e);
    }
  }

  lemma LeaseKeepsOthers(cfg: Config, s: Sched, member: MemberId, model: string, now: real, t: nat)
    requires t < s.tickets
    ensures var f, f1 := HandleLease(cfg, s, member, model, now).futures, ExpireStale(cfg, s, now).futures;
            model != "" ==> (t in f <==> t in f1) && (t in f ==> f[t] == f1[t])
  {
    ReleaseAllJoinsNobody(cfg, s, StaleIds(s.leases, now), now);
  }

  lemma {:induction false} ScanAddsNoFuture(cfg: Config, s: Sched, ws: seq<Waiter>, now: real)
    ensures ServeAll(cfg, s, ws, now).futures.Keys == s.futures.Keys
  {
    if ws != [] { ScanAddsNoFuture(cfg, s, ws[..|ws| - 1], now); }
  }

  lemma {:induction false} ReleaseAllAddsNoFuture(cfg: Config, s: Sched, ids: seq<RequestId>, now: real)
    ensures ReleaseAll(cfg, s, ids, now).futures.Keys == s.futures.Keys
  {
    if ids != [] {
      var mid := ReleaseAll(cfg, s, ids[..|ids| - 1], now);
      ReleaseAllAddsNoFuture(cfg, s, ids[..|ids| - 1], now);
      ScanAddsNoFuture(cfg, GiveBack(mid, ids[|ids| - 1]).(waiting := []), mid.waiting, now);
    }
  }

  /** A request that takes a ticket asks for a model by name, and has no lease yet. */
  lemma TicketTaken(cfg: Config, c: Coord, q: Request)
    requires Inv(cfg, c)
    ensures var s, s' := c.sched, Handle(cfg, c, q).sched;
            s'.tickets > s.tickets ==> q.LeaseFor? && q.model != "" && IsPending(s'.futures, s.tickets)
  {
    RequestJoins(cfg, c, q);
    if q.LeaseFor? {
      ReleaseAllJoinsNobody(cfg, c.sched, StaleIds(c.sched.leases, q.now), q.now);
      ReleaseAllAddsNoFuture(cfg, c.sched, StaleIds(c.sched.leases, q.now), q.now);
    }
  }

  /** Whoever stood for `t` still does: nobody else ever joins under its ticket. */
  lemma StandsOn(s: Sched, s': Sched, q: Request, t: nat, e: Entry)
    requires JoinsAtMost(s, s', q) && StandsFor(s, t, e) && t < s.tickets
    ensures StandsFor(s', t, e)
  {
  }

  lemma JoinsUnder(s: Sched, s': Sched, q: Request)
    requires JoinsAtMost(s, s', q) && s'.tickets > s.tickets && q.LeaseFor? && q.model != ""
    requires forall w :: w in s.waiting ==> w.ticket < s.tickets
    ensures StandsFor(s', s.tickets, Entry(q.member, q.model, BalanceOf(s.reg.books, q.member).score))
  {
  }

  /** In any run, whoever waited and was served holds a lease of its own on a peer of the model it asked for. */
  lemma {:induction false} ServedAsAsked(cfg: Config, qs: seq<Request>, t: nat)
    requires WellFormed(cfg) && t < Serve(cfg, qs).sched.tickets
    ensures Joined(cfg, qs, t).Some?
    ensures StandsFor(Serve(cfg, qs).sched, t, Joined(cfg, qs, t).value) && Answers(cfg, Serve(cfg, qs).sched, t, Joined(cfg, qs, t).value)
  {
    if qs != [] {
      var before, q := qs[..|qs| - 1], qs[|qs| - 1];
      var c := Serve(cfg, before);
      CoordinatorLaws.RunKeeps(cfg, before);
      RequestJoins(cfg, c, q);
      TicketTaken(cfg, c, q);
      if t < c.sched.tickets {
        ServedAsAsked(cfg, before, t);
        RequestAnswers(cfg, c, q, t, Joined(cfg, before, t).value);
        StandsOn(c.sched, Serve(cfg, qs).sched, q, t, Joined(cfg, before, t).value);
      } else {
        JoinsUnder(c.sched, Serve(cfg, qs).sched, q);
      }
    }
  }

  // ---- a wait that has ended has ended ----

  lemma ReleaseKeepsEnded(cfg: Config, s: Sched, id: RequestId, now: real, t: nat)
    requires t in s.futures && !s.futures[t].Pending?
    ensures var f := Release(cfg, s, id, now).futures; t in f && f[t] == s.futures[t]
  {
    DoneStays(cfg, GiveBack(s, id).(waiting := []), s.waiting, now, t);
  }

  lemma {:induction false} ReleaseAllKeepsEnded(cfg: Config, s: Sched, ids: seq<RequestId>, now: real, t: nat)
    requires t in s.futures && !s.futures[t].Pending?
    ensures var f := ReleaseAll(cfg, s, ids, now).futures; t in f && f[t] == s.futures[t]
  {
    if ids != [] {
      ReleaseAllKeepsEnded(cfg, s, ids[..|ids| - 1], now, t);
      ReleaseKeepsEnded(cfg, ReleaseAll(cfg, s, ids[..|ids| - 1], now), ids[|ids| - 1], now, t);
    }
  }

  lemma LeaseKeepsEnded(cfg: Config, s: Sched, member: MemberId, model: string, now: real, t: nat)
    requires t in s.futures && !s.futures[t].Pending? && t < s.tickets
    ensures var f := HandleLease(cfg, s, member, model, now).futures; t in f && f[t] == s.futures[t]
  {
    if model != "" {
      ReleaseAllKeepsEnded(cfg, s, StaleIds(s.leases, now), now, t);
      ReleaseAllJoinsNobody(cfg, s, StaleIds(s.leases, now), now);
      AcquireKeepsFutures(cfg, ExpireStale(cfg, s, now), member, model, now, t);
    }
  }

  lemma RequestKeepsEnded(cfg: Config, c: Coord, q: Request, t: nat)
    requires Inv(cfg, c) && t in c.sched.futures && !c.sched.futures[t].Pending?
    ensures var f := Handle(cfg, c, q).sched.futures; t in f && f[t] == c.sched.futures[t]
  {
    FuturesFollow(cfg, c, q);
    if q.LeaseFor? {
      LeaseKeepsEnded(cfg, c.sched, q.member, q.model, q.now, t);
    } else if q.InferFor? || q.RelayEnds? {
      ReleaseKeepsEnded(cfg, c.sched, q.id, q.now, t);
    }
  }

  lemma {:induction false} EndedStaysEnded(cfg: Config, qs: seq<Request>, more: seq<Request>, t: nat)
    requires WellFormed(cfg) && t in Serve(cfg, qs).sched.futures && !Serve(cfg, qs).sched.futures[t].Pending?
    ensures var f := Serve(cfg, qs + more).sched.futures; t in f && f[t] == Serve(cfg, qs).sched.futures[t]
  {
    if more == [] {
      assert qs + more == qs;
    } else {
      var n := |more| - 1;
      var before := qs + more[..n];
      EndedStaysEnded(cfg, qs, more[..n], t);
      CoordinatorLaws.RunKeeps(cfg, before);
      RequestKeepsEnded(cfg, Serve(cfg, before), more[n], t);
      assert (qs + more)[..|before|] == before && (qs + more)[|before|] == more[n];
    }
  }

  /** A wait that ends while it is pending is never given a lease, whatever happens afterwards. */
  lemma LeavingIsFinal(cfg: Config, qs: seq<Request>, t: nat, more: seq<Request>)
    requires WellFormed(cfg) && IsPending(Serve(cfg, qs).sched.futures, t)
    ensures var f := Serve(cfg, qs + [WaitEnds(t)] + more).sched.futures; t in f && f[t] == Cancelled
  {
    var ended := qs + [WaitEnds(t)];
    assert ended[..|qs|] == qs;
    EndedStaysEnded(cfg, ended, more, t);
  }

  lemma {:induction false} GoneStaysGone(cfg: Config, qs: seq<Request>, more: seq<Request>, t: nat)
    requires WellFormed(cfg) && t < Serve(cfg, qs).sched.tickets && forall w :: w in Serve(cfg, qs).sched.waiting ==> w.ticket != t
    ensures t < Serve(cfg, qs + more).sched.tickets && forall w :: w in Serve(cfg, qs + more).sched.waiting ==> w.ticket != t
  {
    if more == [] {
      assert qs + more == qs;
    } else {
      var n := |more| - 1;
      var before := qs + more[..n];
      GoneStaysGone(cfg, qs, more[..n], t);
      RequestJoins(cfg, Serve(cfg, before), more[n]);
      assert (qs + more)[..|before|] == before && (qs + more)[|before|] == more[n];
    }
  }

  /** A wait that has ended and been cleaned up after is out of the queue for good, and nobody else with it. */
  lemma CleanedUpIsGone(cfg: Config, qs: seq<Request>, t: nat, more: seq<Request>)
    requires WellFormed(cfg) && t < Serve(cfg, qs).sched.tickets && !IsPending(Serve(cfg, qs).sched.futures, t)
    ensures forall w :: w in Serve(cfg, qs + [CleanUp(t)]).sched.waiting <==> w in Serve(cfg, qs).sched.waiting && w.ticket != t
    ensures forall w :: w in Serve(cfg, qs + [CleanUp(t)] + more).sched.waiting ==> w.ticket != t
  {
    var cleaned := qs + [CleanUp(t)];
    assert cleaned[..|qs|] == qs;
    CoordinatorLaws.RunKeeps(cfg, qs);
    WithoutTicketIs(Serve(cfg, qs).sched.waiting, t);
    GoneStaysGone(cfg, cleaned, more, t);
  }

  /** And one that was served keeps its lease, even if the caller gives up waiting. */
  lemma ServedIsFinal(cfg: Config, qs: seq<Request>, t: nat, more: seq<Request>)
    requires WellFormed(cfg) && t in Serve(cfg, qs).sched.futures && Serve(cfg, qs).sched.futures[t].Done?
    ensures var f := Serve(cfg, qs + more).sched.futures; t in f && f[t] == Serve(cfg, qs).sched.futures[t]
  {
    EndedStaysEnded(cfg, qs, more, t);
  }
}
