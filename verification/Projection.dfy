/**
 The registry inside the coordinator. Every run of the coordinator is, seen from the registry, a
 run of the registry with the same heartbeats, so all that is proved of those holds of these.
 */
module Projection {
  import opened Wrappers
  import opened Peers
  import opened Ledgers
  import opened Registry
  import opened Crediting
  import opened Standing
  import opened WaitHeap
  import opened Scheduler
  import opened Slots
  import opened Fairness
  import opened Coordinator
  import opened CoordinatorLaws

  /** The registry without the bills, which it never reads. */
  function Unbilled(r: Reg): Reg {
    r.(books := Books(r.books.contributions, []))
  }

  function RunFrom(cfg: Config, r: Reg, es: seq<Event>): Reg {
    if es == [] then r else Step(cfg, RunFrom(cfg, r, es[..|es| - 1]), es[|es| - 1])
  }

  predicate Untimed(e: Event) {
    !e.Beat? && !e.Attests?
  }

  predicate AllUntimed(es: seq<Event>) {
    forall i :: 0 <= i < |es| ==> Untimed(es[i])
  }

  /** `r'` comes from `r` by slot changes, failures and looks alone. */
  ghost predicate Reaches(cfg: Config, r: Reg, r': Reg, es: seq<Event>) {
    AllUntimed(es) && r' == RunFrom(cfg, r, es)
  }

  lemma {:induction false} RunFromConcat(cfg: Config, r: Reg, a: seq<Event>, b: seq<Event>)
    ensures RunFrom(cfg, r, a + b) == RunFrom(cfg, RunFrom(cfg, r, a), b)
  {
    if b == [] {
      assert a + b == a;
    } else {
      RunFromConcat(cfg, r, a, b[..|b| - 1]);
      assert (a + b)[..|a + b| - 1] == a + b[..|b| - 1];
    }
  }

  lemma Then(cfg: Config, r: Reg, mid: Reg, r': Reg, a: seq<Event>, b: seq<Event>)
    requires Reaches(cfg, r, mid, a) && Reaches(cfg, mid, r', b)
    ensures Reaches(cfg, r, r', a + b)
  {
    RunFromConcat(cfg, r, a, b);
  }

  lemma One(cfg: Config, r: Reg, e: Event)
    requires Untimed(e)
    ensures Reaches(cfg, r, Step(cfg, r, e), [e])
  {
    assert [e][..0] == [];
    assert RunFrom(cfg, r, []) == r;
  }

  // ---- the scheduler's steps, seen from the registry ----

  lemma ServeReaches(cfg: Config, s: Sched, w: Waiter, now: real) returns (es: seq<Event>)
    ensures Reaches(cfg, s.reg, ServeOne(cfg, s, w, now).reg, es)
  {
    es := [];
    if IsPending(s.futures, w.ticket) {
      var pick := Pick(cfg, s.reg.states, w.model, now);
      if pick.Some? {
        es := [TakeSlot(pick.value)];
        One(cfg, s.reg, TakeSlot(pick.value));
      }
    }
  }

  lemma {:induction false} ServeAllReaches(cfg: Config, s: Sched, ws: seq<Waiter>, now: real) returns (es: seq<Event>)
    ensures Reaches(cfg, s.reg, ServeAll(cfg, s, ws, now).reg, es)
  {
    es := [];
    if ws != [] {
      var front := ServeAll(cfg, s, ws[..|ws| - 1], now);
      var a := ServeAllReaches(cfg, s, ws[..|ws| - 1], now);
      var b := ServeReaches(cfg, front, ws[|ws| - 1], now);
      Then(cfg, s.reg, front.reg, ServeAll(cfg, s, ws, now).reg, a, b);
      es := a + b;
    }
  }

  lemma GiveBackReaches(cfg: Config, s: Sched, id: RequestId) returns (es: seq<Event>)
    requires Sound(cfg, s)
    ensures Reaches(cfg, s.reg, GiveBack(s, id).reg, es)
  {
    var found := FindLease(s.leases, id);
    es := [];
    if found.Some? {
      es := [ReturnSlot(found.value.peer)];
      One(cfg, s.reg, ReturnSlot(found.value.peer));
    }
  }

  lemma ReleaseReaches(cfg: Config, s: Sched, id: RequestId, now: real) returns (es: seq<Event>)
    requires Sound(cfg, s)
    ensures Reaches(cfg, s.reg, Release(cfg, s, id, now).reg, es)
  {
    var mid := GiveBack(s, id);
    var a := GiveBackReaches(cfg, s, id);
    var b := ServeAllReaches(cfg, mid.(waiting := []), mid.waiting, now);
    Then(cfg, s.reg, mid.reg, Release(cfg, s, id, now).reg, a, b);
    es := a + b;
  }

  lemma {:induction false} ReleaseAllReaches(cfg: Config, s: Sched, ids: seq<RequestId>, now: real) returns (es: seq<Event>)
    requires Sound(cfg, s)
    ensures Reaches(cfg, s.reg, ReleaseAll(cfg, s, ids, now).reg, es)
  {
    es := [];
    if ids != [] {
      var front := ids[..|ids| - 1];
      var mid := ReleaseAll(cfg, s, front, now);
      var a := ReleaseAllReaches(cfg, s, front, now);
      ReleaseAllKeeps(cfg, s, front, now);
      var b := ReleaseReaches(cfg, mid, ids[|ids| - 1], now);
      Then(cfg, s.reg, mid.reg, ReleaseAll(cfg, s, ids, now).reg, a, b);
      es := a + b;
    }
  }

  lemma AcquireReaches(cfg: Config, s: Sched, member: MemberId, model: string, now: real) returns (es: seq<Event>)
    ensures Reaches(cfg, s.reg, Acquire(cfg, s, member, model, now).reg, es)
  {
    var out := AcquireOutcome(cfg, s, member, model, now);
    es := [];
    if out.Granted? {
      es := [TakeSlot(out.lease.peer)];
      One(cfg, s.reg, TakeSlot(out.lease.peer));
    }
  }

  lemma {:induction false} LooksReach(cfg: Config, r: Reg, ids: seq<PeerId>) returns (es: seq<Event>)
    ensures Reaches(cfg, r, LookAll(cfg, r, ids), es)
  {
    es := [];
    if ids != [] {
      var a := LooksReach(cfg, r, ids[..|ids| - 1]);
      var mid := LookAll(cfg, r, ids[..|ids| - 1]);
      One(cfg, mid, Look(ids[|ids| - 1]));
      Then(cfg, r, mid, LookAll(cfg, r, ids), a, [Look(ids[|ids| - 1])]);
      es := a + [Look(ids[|ids| - 1])];
    }
  }

  lemma LeaseReaches(cfg: Config, s: Sched, member: MemberId, model: string, now: real) returns (es: seq<Event>)
    requires Sound(cfg, s)
    ensures Reaches(cfg, s.reg, HandleLease(cfg, s, member, model, now).reg, es)
  {
    es := [];
    if model != "" {
      var s1 := ExpireStale(cfg, s, now);
      var s2 := Acquire(cfg, s1, member, model, now);
      var a := ReleaseAllReaches(cfg, s, StaleIds(s.leases, now), now);
      var b := AcquireReaches(cfg, s1, member, model, now);
      Then(cfg, s.reg, s1.reg, s2.reg, a, b);
      var d := LooksReach(cfg, s2.reg, cfg.order);
      Then(cfg, s.reg, s2.reg, Observe(cfg, s2).reg, a + b, d);
      es := if AcquireOutcome(cfg, s1, member, model, now).Granted? then a + b + d else a + b;
    }
  }

  lemma InferReaches(cfg: Config, c: Coord, id: RequestId, sender: MemberId, now: real) returns (es: seq<Event>)
    requires Sound(cfg, c.sched)
    ensures Reaches(cfg, c.sched.reg, HandleInfer(cfg, c, id, sender, now).sched.reg, es)
  {
    var check := RedeemCheck(c.sched, id, sender, now);
    es := [];
    if check == None {
      es := LooksReach(cfg, c.sched.reg, cfg.order);
    } else if check == Some(Expired) {
      es := ReleaseReaches(cfg, c.sched, id, now);
    }
  }

  lemma EndReaches(cfg: Config, s: Sched, id: RequestId, now: real) returns (es: seq<Event>)
    requires Sound(cfg, s)
    ensures Reaches(cfg, s.reg, Observe(cfg, Release(cfg, s, id, now)).reg, es)
  {
    var mid := Release(cfg, s, id, now);
    var a := ReleaseReaches(cfg, s, id, now);
    var b := LooksReach(cfg, mid.reg, cfg.order);
    Then(cfg, s.reg, mid.reg, Observe(cfg, mid).reg, a, b);
    es := a + b;
  }

  predicate Quiet(q: Request) {
    q.LeaseFor? || q.WaitEnds? || q.CleanUp? || q.InferFor? || q.RelayStarts? || q.RelayEnds? || q.StatsRead? || q.RelayBreaks?
  }

  lemma QuietReaches(cfg: Config, c: Coord, q: Request) returns (es: seq<Event>)
    requires Sound(cfg, c.sched) && Quiet(q)
    ensures Reaches(cfg, c.sched.reg, Handle(cfg, c, q).sched.reg, es)
  {
    es := [];
    match q {
      case LeaseFor(member, model, now) => es := LeaseReaches(cfg, c.sched, member, model, now);
      case InferFor(id, sender, now) => es := InferReaches(cfg, c, id, sender, now);
      case RelayEnds(id, now) => if id in c.running { es := EndReaches(cfg, c.sched, id, now); }
      case StatsRead => es := LooksReach(cfg, c.sched.reg, cfg.order);
      case RelayBreaks(id) =>
        if id in c.running {
          es := [RelayFails(c.running[id].peer)];
          One(cfg, c.sched.reg, RelayFails(c.running[id].peer));
        }
      case _ =>
    }
  }

  // ---- bills change nothing ----

  lemma {:induction false} SettleSharesUnbilled(s: Reg, timeout: real, p: PeerId, shares: seq<Share>, now: real, elapsed: real, owed: bool)
    ensures SettleShares(Unbilled(s), timeout, p, shares, now, elapsed, owed) ==
            Unbilled(SettleShares(s, timeout, p, shares, now, elapsed, owed))
  {
    if shares != [] {
      SettleSharesUnbilled(s, timeout, p, shares[..|shares| - 1], now, elapsed, owed);
    }
  }

  lemma AttestUnbilled(cfg: Config, s: Reg, p: PeerId, m: MemberId, gb: real, now: real)
    ensures var r, r' := Attest(cfg, s, p, m, gb, now), Attest(cfg, Unbilled(s), p, m, gb, now);
            r' == if r.Ok? then Ok(Unbilled(r.value)) else r
  {
  }

  lemma BeatUnbilled(cfg: Config, s: Reg, p: PeerId, now: real, held: real, healthy: bool, detail: Detail)
    requires p in cfg.peers
    ensures RecordBeat(cfg, Unbilled(s), p, now, held, healthy, detail) == Unbilled(RecordBeat(cfg, s, p, now, held, healthy, detail))
  {
    if p in s.states {
      var st := s.states[p];
      SettleSharesUnbilled(s, cfg.timeout, p, CreditSplit(cfg.peers[p], st.residentGb), now,
                           Min(now - st.lastCredited, MAX_CREDITED_INTERVAL), Owed(st, now));
    }
  }

  lemma StepUnbilled(cfg: Config, s: Reg, e: Event)
    ensures Step(cfg, Unbilled(s), e) == Unbilled(Step(cfg, s, e))
  {
    match e {
      case Beat(p, now, later, gb, healthy, detail) =>
        if p in cfg.peers {
          var held := Capped(cfg.peers[p], gb);
          BeatUnbilled(cfg, s, p, now, held, healthy, detail);
          AttestUnbilled(cfg, RecordBeat(cfg, s, p, now, held, healthy, detail), p, cfg.peers[p].owner, held, later);
        }
      case Attests(p, m, now, gb) => AttestUnbilled(cfg, s, p, m, gb, now);
      case _ =>
    }
  }

  lemma {:induction false} RunFromUnbilled(cfg: Config, r: Reg, es: seq<Event>)
    ensures RunFrom(cfg, Unbilled(r), es) == Unbilled(RunFrom(cfg, r, es))
  {
    if es != [] {
      RunFromUnbilled(cfg, r, es[..|es| - 1]);
      StepUnbilled(cfg, RunFrom(cfg, r, es[..|es| - 1]), es[|es| - 1]);
    }
  }

  // ---- whole runs ----

  function Timed(es: seq<Event>): seq<Event> {
    if es == [] then []
    else if Untimed(es[|es| - 1]) then Timed(es[..|es| - 1])
    else Timed(es[..|es| - 1]) + [es[|es| - 1]]
  }

  /** The heartbeats the coordinator acted on, in order: an owner's as beats, a contributor's as attestations. */
  function Heard(cfg: Config, qs: seq<Request>): seq<Event> {
    if qs == [] then []
    else
      var e := EventOf(cfg, BOOT, qs[|qs| - 1]);
      if qs[|qs| - 1].HeartbeatFrom? && e.Some? then Heard(cfg, qs[..|qs| - 1]) + [e.value]
      else Heard(cfg, qs[..|qs| - 1])
  }

  lemma {:induction false} RunIsRunFrom(cfg: Config, es: seq<Event>)
    ensures Run(cfg, es) == RunFrom(cfg, EMPTY, es)
  {
    if es != [] { RunIsRunFrom(cfg, es[..|es| - 1]); }
  }

  lemma {:induction false} UntimedTail(t0: real, es: seq<Event>, more: seq<Event>)
    requires AllUntimed(more)
    ensures Timed(es + more) == Timed(es) && Clock(t0, es + more) == Clock(t0, es)
    ensures Monotonic(t0, es) ==> Monotonic(t0, es + more)
  {
    if more == [] {
      assert es + more == es;
    } else {
      UntimedTail(t0, es, more[..|more| - 1]);
      assert (es + more)[..|es + more| - 1] == es + more[..|more| - 1];
    }
  }

  lemma {:induction false} TimedClock(t0: real, es: seq<Event>)
    ensures Clock(t0, Timed(es)) == Clock(t0, es)
  {
    if es != [] {
      TimedClock(t0, es[..|es| - 1]);
      if !Untimed(es[|es| - 1]) {
        assert Timed(es)[..|Timed(es)| - 1] == Timed(es[..|es| - 1]);
      }
    }
  }

  /** `es` is what the registry went through in the run `qs`. */
  ghost predicate Projects(cfg: Config, qs: seq<Request>, t0: real, es: seq<Event>) {
    && Run(cfg, es) == Unbilled(Serve(cfg, qs).sched.reg)
    && Timed(es) == Heard(cfg, qs)
    && (Timely(t0, qs) ==> Monotonic(t0, es) && Clock(t0, es) <= Now(t0, qs))
  }

  lemma QuietProjects(cfg: Config, qs: seq<Request>, t0: real, before: seq<Event>) returns (es: seq<Event>)
    requires WellFormed(cfg) && qs != [] && Quiet(qs[|qs| - 1])
    requires Projects(cfg, qs[..|qs| - 1], t0, before)
    ensures Projects(cfg, qs, t0, es)
  {
    var c, q := Serve(cfg, qs[..|qs| - 1]), qs[|qs| - 1];
    CoordinatorLaws.RunKeeps(cfg, qs[..|qs| - 1]);
    var more := QuietReaches(cfg, c, q);
    es := before + more;
    RunIsRunFrom(cfg, before);
    RunIsRunFrom(cfg, es);
    RunFromConcat(cfg, EMPTY, before, more);
    RunFromUnbilled(cfg, c.sched.reg, more);
    UntimedTail(t0, before, more);
  }

  lemma HeartbeatProjects(cfg: Config, qs: seq<Request>, t0: real, before: seq<Event>) returns (es: seq<Event>)
    requires qs != [] && qs[|qs| - 1].HeartbeatFrom?
    requires Projects(cfg, qs[..|qs| - 1], t0, before)
    ensures Projects(cfg, qs, t0, es)
  {
    var c, q := Serve(cfg, qs[..|qs| - 1]), qs[|qs| - 1];
    RegistryRequestIs(cfg, c, q);
    var e := EventOf(cfg, c, q);
    es := before;
    if e.Some? {
      es := before + [e.value];
      assert es[..|before|] == before;
      StepUnbilled(cfg, c.sched.reg, e.value);
    }
  }

  lemma ReceiptProjects(cfg: Config, c: Coord, q: Request)
    requires q.ReceiptArrives?
    ensures Unbilled(Handle(cfg, c, q).sched.reg) == Unbilled(c.sched.reg)
  {
  }

  /** Every run of the coordinator is a run of the registry with the same heartbeats, timely if it is. */
  lemma {:induction false} RunProjects(cfg: Config, qs: seq<Request>, t0: real) returns (es: seq<Event>)
    requires WellFormed(cfg)
    ensures Projects(cfg, qs, t0, es)
  {
    es := [];
    if qs != [] {
      var before := RunProjects(cfg, qs[..|qs| - 1], t0);
      var q := qs[|qs| - 1];
      if Quiet(q) {
        es := QuietProjects(cfg, qs, t0, before);
      } else if q.HeartbeatFrom? {
        es := HeartbeatProjects(cfg, qs, t0, before);
      } else {
        ReceiptProjects(cfg, Serve(cfg, qs[..|qs| - 1]), q);
        es := before;
      }
    }
  }

  // ---- so crediting is sound in the coordinator ----

  lemma LastBeatSnoc(cfg: Config, es: seq<Event>, e: Event, p: PeerId)
    ensures LastBeat(cfg, es + [e], p) == if e.Beat? && e.peer == p && p in cfg.peers then Some(e.now) else LastBeat(cfg, es, p)
  {
    assert (es + [e])[..|es|] == es;
  }

  lemma {:induction false} TimedLastBeat(cfg: Config, es: seq<Event>, p: PeerId)
    ensures LastBeat(cfg, Timed(es), p) == LastBeat(cfg, es, p)
  {
    if es != [] {
      var before, e := es[..|es| - 1], es[|es| - 1];
      TimedLastBeat(cfg, before, p);
      assert es == before + [e];
      LastBeatSnoc(cfg, before, e, p);
      LastBeatSnoc(cfg, Timed(before), e, p);
    }
  }

  lemma {:induction false} TimedBeatsWithin(cfg: Config, es: seq<Event>, p: PeerId, gap: real)
    ensures BeatsWithin(cfg, Timed(es), p, gap) <==> BeatsWithin(cfg, es, p, gap)
  {
    if es != [] {
      var before, e := es[..|es| - 1], es[|es| - 1];
      TimedBeatsWithin(cfg, before, p, gap);
      TimedLastBeat(cfg, before, p);
      if !Untimed(e) {
        assert Timed(es)[..|Timed(es)| - 1] == Timed(before);
      }
    }
  }

  /** If an owner's heartbeats arrive within the timeout, no second is paid twice to its members, whatever else goes on. */
  lemma CoordinatorCreditPartitions(claim: Claim, cfg: Config, qs: seq<Request>, t0: real, k: Key)
    requires WellFormed(cfg) && t0 >= 0.0 && Timely(t0, qs) && BeatsWithin(cfg, Heard(cfg, qs), k.peer, cfg.timeout)
    ensures Partitioned(claim, Serve(cfg, qs).sched.reg.log, k)
  {
    var es := RunProjects(cfg, qs, t0);
    TimedBeatsWithin(cfg, es, k.peer, cfg.timeout);
    PartitionsUnderTimelyBeats(claim, cfg, es, t0, k);
  }

  /** And what a contributor is credited stays within its rate, from `t0` to the last heartbeat. */
  lemma CoordinatorCreditBound(cfg: Config, qs: seq<Request>, t0: real, p: PeerId, m: MemberId, rate: real, elapsed: real)
    requires WellFormed(cfg) && t0 >= 0.0 && Timely(t0, qs) && BeatsWithin(cfg, Heard(cfg, qs), p, cfg.timeout)
    requires p in cfg.peers && cfg.peers[p].capacityGb > 0.0
    requires rate == RateGb(cfg.peers[p], m) && elapsed == Clock(t0, Heard(cfg, qs)) - t0
    ensures GbSecondsFor(Serve(cfg, qs).sched.reg.books.contributions, p, m) <= rate * elapsed
  {
    var es := RunProjects(cfg, qs, t0);
    TimedBeatsWithin(cfg, es, p, cfg.timeout);
    TimelyNeverReclaims(Paid, cfg, es, t0, Key(p, m));
    TimedClock(t0, es);
    StandingBound(cfg, es, t0, p, m, rate, elapsed);
  }

  // ---- the books stay sound ----

  predicate SoundRows(rows: seq<Contributed>) {
    forall i :: 0 <= i < |rows| ==> rows[i].gb >= 0.0 && rows[i].seconds > 0.0
  }

  lemma {:induction false} SettleSharesSound(s: Reg, timeout: real, p: PeerId, shares: seq<Share>, now: real, elapsed: real, owed: bool)
    requires SoundRows(s.books.contributions)
    ensures SoundRows(SettleShares(s, timeout, p, shares, now, elapsed, owed).books.contributions)
  {
    if shares != [] {
      SettleSharesSound(s, timeout, p, shares[..|shares| - 1], now, elapsed, owed);
    }
  }

  lemma AttestSound(cfg: Config, s: Reg, p: PeerId, m: MemberId, gb: real, now: real)
    requires SoundRows(s.books.contributions)
    ensures var r := Attest(cfg, s, p, m, gb, now); r.Ok? ==> SoundRows(r.value.books.contributions)
  {
  }

  lemma BeatSound(cfg: Config, s: Reg, p: PeerId, now: real, held: real, healthy: bool, detail: Detail)
    requires SoundRows(s.books.contributions) && p in cfg.peers
    ensures SoundRows(RecordBeat(cfg, s, p, now, held, healthy, detail).books.contributions)
  {
    if p in s.states {
      var st := s.states[p];
      SettleSharesSound(s, cfg.timeout, p, CreditSplit(cfg.peers[p], st.residentGb), now,
                        Min(now - st.lastCredited, MAX_CREDITED_INTERVAL), Owed(st, now));
    }
  }

  lemma {:induction false} RunRowsSound(cfg: Config, es: seq<Event>)
    ensures SoundRows(Run(cfg, es).books.contributions)
  {
    if es != [] {
      var s, e := Run(cfg, es[..|es| - 1]), es[|es| - 1];
      RunRowsSound(cfg, es[..|es| - 1]);
      match e {
        case Beat(p, now, later, gb, healthy, detail) =>
          if p in cfg.peers {
            var held := Capped(cfg.peers[p], gb);
            BeatSound(cfg, s, p, now, held, healthy, detail);
            AttestSound(cfg, RecordBeat(cfg, s, p, now, held, healthy, detail), p, cfg.peers[p].owner, held, later);
          }
        case Attests(p, m, now, gb) => AttestSound(cfg, s, p, m, gb, now);
        case _ =>
      }
    }
  }

  /** In every reachable state the books are sound, so every score the queue sorts by is positive. */
  lemma ScoresStayPositive(cfg: Config, qs: seq<Request>, m: MemberId)
    requires WellFormed(cfg)
    ensures SoundBooks(Serve(cfg, qs).sched.reg.books)
    ensures BalanceOf(Serve(cfg, qs).sched.reg.books, m).score > 0.0
  {
    var es := RunProjects(cfg, qs, 0.0);
    RunRowsSound(cfg, es);
    BillingLinearity(cfg, qs);
    ScorePositive(Serve(cfg, qs).sched.reg.books, m);
  }
}
