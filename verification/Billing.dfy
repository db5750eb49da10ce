/** Who is let through and who is billed, over any run: redemption and metering read off the requests. */
module Billing {
  import opened Wrappers
  import opened Peers
  import opened Ledgers
  import opened Registry
  import opened WaitHeap
  import opened Scheduler
  import opened Slots
  import opened Fairness
  import opened Coordinator
  import opened CoordinatorLaws
  import opened RelayLaws
  import opened Words
  import Projection

  // ---- every first receipt is billed, and nothing else ----

  /** The first receipt that came through the running relay of `id`, as it is to be billed. */
  function FirstReceipt(cfg: Config, qs: seq<Request>, id: RequestId): Option<Consumed> {
    if qs == [] then None
    else
      var before, c, q := FirstReceipt(cfg, qs[..|qs| - 1], id), Serve(cfg, qs[..|qs| - 1]), qs[|qs| - 1];
      if before.Some? then before
      else if q.ReceiptArrives? && q.id == id && id in c.running
      then Some(Consumed(c.running[id].sender, id, c.running[id].peer, q.promptTokens, q.completionTokens))
      else None
  }

  lemma {:induction false} ReceiptNamesId(cfg: Config, qs: seq<Request>, id: RequestId)
    ensures FirstReceipt(cfg, qs, id).Some? ==> FirstReceipt(cfg, qs, id).value.request == id
  {
    if qs != [] { ReceiptNamesId(cfg, qs[..|qs| - 1], id); }
  }

  lemma OthersBillNothing(cfg: Config, c: Coord, q: Request)
    requires !q.ReceiptArrives?
    ensures Handle(cfg, c, q).sched.reg.books.consumptions == c.sched.reg.books.consumptions
  {
    if q.HeartbeatFrom? || q.RelayBreaks? {
      RegistryRequestIs(cfg, c, q);
      var e := EventOf(cfg, c, q);
      if e.Some? { RegistryBillsNothing(cfg, c.sched.reg, e.value); }
    } else {
      OtherRequestsSlotsOnly(cfg, c, q);
    }
  }

  /** A receipt is written down unless its relay is not running or its request has a row. */
  lemma ReceiptBills(cfg: Config, c: Coord, q: Request)
    requires q.ReceiptArrives?
    ensures var rows, rows' := c.sched.reg.books.consumptions, Handle(cfg, c, q).sched.reg.books.consumptions;
            rows' == if q.id in c.running && forall r :: r in rows ==> r.request != q.id
                     then rows + [Consumed(c.running[q.id].sender, q.id, c.running[q.id].peer, q.promptTokens, q.completionTokens)]
                     else rows
  {
    var rows := c.sched.reg.books.consumptions;
    if r :| r in rows && r.request == q.id {
      var i :| 0 <= i < |rows| && rows[i] == r;
      assert Billed(rows, q.id);
    }
  }

  /**
   After any run the consumption table holds, for each request id, the first receipt that came through
   its running relay, with the counts of that receipt, and no other row.
   */
  lemma {:induction false} BilledExactly(cfg: Config, qs: seq<Request>, row: Consumed)
    ensures row in Serve(cfg, qs).sched.reg.books.consumptions <==> FirstReceipt(cfg, qs, row.request) == Some(row)
    decreases |qs|, 0
  {
    if qs != [] {
      var before, q := qs[..|qs| - 1], qs[|qs| - 1];
      BilledExactly(cfg, before, row);
      if q.ReceiptArrives? {
        ReceiptBills(cfg, Serve(cfg, before), q);
        HasRowExactly(cfg, before, q.id);
      } else {
        OthersBillNothing(cfg, Serve(cfg, before), q);
      }
    }
  }

  lemma {:induction false} HasRowExactly(cfg: Config, qs: seq<Request>, id: RequestId)
    ensures (exists r :: r in Serve(cfg, qs).sched.reg.books.consumptions && r.request == id) <==> FirstReceipt(cfg, qs, id).Some?
    decreases |qs|, 1
  {
    var rows := Serve(cfg, qs).sched.reg.books.consumptions;
    ReceiptNamesId(cfg, qs, id);
    if FirstReceipt(cfg, qs, id).Some? { BilledExactly(cfg, qs, FirstReceipt(cfg, qs, id).value); }
    if r :| r in rows && r.request == id { BilledExactly(cfg, qs, r); }
  }

  /**
   The first receipt of a running relay adds its counts to its member's tokens and to the total, and one
   request; if it counts anything, the member's score falls. A later one changes nothing.
   */
  lemma ReceiptChargesExactly(cfg: Config, qs: seq<Request>, q: Request)
    requires WellFormed(cfg) && q.ReceiptArrives? && q.id in Serve(cfg, qs).running
    ensures var b, b' := Serve(cfg, qs).sched.reg.books, Handle(cfg, Serve(cfg, qs), q).sched.reg.books;
            var m := Serve(cfg, qs).running[q.id].sender;
            if FirstReceipt(cfg, qs, q.id).Some? then b' == b
            else && TotalsOf(b') == TotalsOf(b).(tokens := TotalsOf(b).tokens + q.promptTokens + q.completionTokens,
                                                 requests := TotalsOf(b).requests + 1)
                 && TokensOf(b'.consumptions, m) == TokensOf(b.consumptions, m) + q.promptTokens + q.completionTokens
                 && (q.promptTokens + q.completionTokens > 0 ==> BalanceOf(b', m).score < BalanceOf(b, m).score)
                 && forall other :: other != m ==> BalanceOf(b', other) == BalanceOf(b, other)
  {
    var c := Serve(cfg, qs);
    var row := Consumed(c.running[q.id].sender, q.id, c.running[q.id].peer, q.promptTokens, q.completionTokens);
    ReceiptBills(cfg, c, q);
    HasRowExactly(cfg, qs, q.id);
    if FirstReceipt(cfg, qs, q.id) == None {
      Projection.ScoresStayPositive(cfg, qs, row.member);
      NewRowCharges(c.sched.reg.books, row);
    }
  }

  // ---- who is let through ----

  /** A lease held for `sender` under `id`, its time not up. */
  ghost predicate Redeemable(s: Sched, id: RequestId, sender: MemberId, now: real) {
    id !in s.redeemed && exists l :: l in s.leases && l.id == id && l.member == sender && now <= l.expiresAt
  }

  lemma RedeemableIs(cfg: Config, s: Sched, id: RequestId, sender: MemberId, now: real)
    requires Sound(cfg, s)
    ensures Redeemable(s, id, sender, now) <==> RedeemCheck(s, id, sender, now) == None
    ensures HasLease(s, id) ==> id < |s.issued| && FindLease(s.leases, id) == Some(s.issued[id])
  {
    FindIsMember(s.leases, id);
  }

  /**
   A request is relayed if and only if its sender holds a lease under its id, in time, for the first
   time; the relay then goes to the peer of that lease. Otherwise nothing is redeemed or accepted.
   */
  lemma RedeemedExactly(cfg: Config, c: Coord, id: RequestId, sender: MemberId, now: real)
    requires Inv(cfg, c)
    ensures var c' := Handle(cfg, c, InferFor(id, sender, now));
            if Redeemable(c.sched, id, sender, now)
            then && c'.redemptions == c.redemptions + [Redemption(id, sender)]
                 && c'.sched.redeemed == c.sched.redeemed + {id} && c'.sched.leases == c.sched.leases
                 && id < |c.sched.issued| && c'.accepted == c.accepted[id := Stream(sender, c.sched.issued[id].peer)]
            else c'.redemptions == c.redemptions && c'.accepted == c.accepted && c'.running == c.running
  {
    RedeemableIs(cfg, c.sched, id, sender, now);
  }

  /** Anyone else who comes - a stranger to the lease, one whose lease is gone, one who has redeemed it - changes nothing at all. */
  lemma RefusalChangesNothing(cfg: Config, c: Coord, id: RequestId, sender: MemberId, now: real)
    requires Inv(cfg, c) && !Redeemable(c.sched, id, sender, now)
    requires forall l :: l in c.sched.leases && l.id == id && l.member == sender ==> now <= l.expiresAt
    ensures Handle(cfg, c, InferFor(id, sender, now)) == c
  {
    RedeemableIs(cfg, c.sched, id, sender, now);
    FindIsMember(c.sched.leases, id);
  }

  /** The leases issued since `s`, by the peer they are on. */
  function IssuedSince(s: Sched, s': Sched, p: PeerId): nat
    requires |s.issued| <= |s'.issued|
  {
    Count(s'.issued[|s.issued|..], p)
  }

  lemma {:induction false} ScanIssues(cfg: Config, s: Sched, ws: seq<Waiter>, now: real, p: PeerId)
    ensures var s' := ServeAll(cfg, s, ws, now);
            s.issued <= s'.issued && Count(s'.leases, p) == Count(s.leases, p) + IssuedSince(s, s', p)
  {
    if ws == [] {
      assert s.issued[|s.issued|..] == [];
    } else {
      var front, w := ws[..|ws| - 1], ws[|ws| - 1];
      ScanIssues(cfg, s, front, now, p);
      TurnIssues(cfg, s, ServeAll(cfg, s, front, now), w, now, p);
    }
  }

  lemma TurnIssues(cfg: Config, s: Sched, mid: Sched, w: Waiter, now: real, p: PeerId)
    requires s.issued <= mid.issued && Count(mid.leases, p) == Count(s.leases, p) + IssuedSince(s, mid, p)
    ensures var s' := ServeOne(cfg, mid, w, now);
            s.issued <= s'.issued && Count(s'.leases, p) == Count(s.leases, p) + IssuedSince(s, s', p)
  {
    var s' := ServeOne(cfg, mid, w, now);
    if s'.issued != mid.issued {
      var l := s'.issued[|mid.issued|];
      assert s'.issued[|s.issued|..] == mid.issued[|s.issued|..] + [l];
      CountPush(mid.leases, l, p);
      CountPush(mid.issued[|s.issued|..], l, p);
    }
  }

  /** Releasing a lease takes one slot in use off its peer and adds one for every lease the queue is then given. */
  lemma ReleaseIssues(cfg: Config, s: Sched, id: RequestId, now: real, p: PeerId)
    requires Sound(cfg, s) && HasLease(s, id) && p in cfg.peers
    ensures id < |s.issued| && s.issued <= Release(cfg, s, id, now).issued && !HasLease(Release(cfg, s, id, now), id)
    ensures InFlight(Release(cfg, s, id, now).reg.states, p) ==
            InFlight(s.reg.states, p) - (if s.issued[id].peer == p then 1 else 0) + IssuedSince(s, Release(cfg, s, id, now), p)
  {
    var mid := GiveBack(s, id);
    LeasedWasIssued(cfg, s, id);
    ReleaseParts(cfg, s, id, now, id);
    ScanIssues(cfg, mid.(waiting := []), mid.waiting, now, p);
    CountWithout(s.leases, id, p);
    ReleaseKeeps(cfg, s, id, now);
  }

  lemma TooLateReleases(cfg: Config, c: Coord, id: RequestId, sender: MemberId, now: real)
    requires Inv(cfg, c) && exists l :: l in c.sched.leases && l.id == id && l.member == sender && now > l.expiresAt
    ensures HasLease(c.sched, id) && Handle(cfg, c, InferFor(id, sender, now)).sched == Release(cfg, c.sched, id, now)
  {
    FindIsMember(c.sched.leases, id);
  }

  /** A member that comes too late loses its lease, and the slot is given back: to the next in the queue, or free. */
  lemma TooLateGivesBack(cfg: Config, c: Coord, id: RequestId, sender: MemberId, now: real, p: PeerId)
    requires Inv(cfg, c) && p in cfg.peers
    requires exists l :: l in c.sched.leases && l.id == id && l.member == sender && now > l.expiresAt
    ensures var s, s' := c.sched, Handle(cfg, c, InferFor(id, sender, now)).sched;
            && !HasLease(s', id) && s.issued <= s'.issued
            && InFlight(s'.reg.states, p) ==
               InFlight(s.reg.states, p) - (if c.sched.issued[id].peer == p then 1 else 0) + IssuedSince(s, s', p)
  {
    TooLateReleases(cfg, c, id, sender, now);
    ReleaseIssues(cfg, c.sched, id, now, p);
  }

  /** When `id` was redeemed, if it was: the reading of the clock at the request that was let through. */
  function RedeemedAt(cfg: Config, qs: seq<Request>, id: RequestId): Option<real> {
    if qs == [] then None
    else
      var c, q := Serve(cfg, qs[..|qs| - 1]), qs[|qs| - 1];
      if q.InferFor? && q.id == id && |Serve(cfg, qs).redemptions| > |c.redemptions| then Some(q.now)
      else RedeemedAt(cfg, qs[..|qs| - 1], id)
  }

  lemma OthersRedeemNothing(cfg: Config, c: Coord, q: Request)
    requires Inv(cfg, c)
    ensures !q.InferFor? ==> Handle(cfg, c, q).redemptions == c.redemptions
    ensures c.sched.issued <= Handle(cfg, c, q).sched.issued
  {
    if q.HeartbeatFrom? || q.RelayBreaks? {
      RegistryRequestIs(cfg, c, q);
    } else if q.LeaseFor? {
      HandleLeaseKeeps(cfg, c.sched, q.member, q.model, q.now);
    } else if q.InferFor? {
      RedeemEvolves(cfg, c.sched, q.id, q.sender, q.now);
    } else if q.RelayEnds? {
      ReleaseEvolves(cfg, c.sched, q.id, q.now);
    }
  }

  /** In any run each redemption was in time: no later than the term of the lease it redeemed. */
  lemma {:induction false} RedeemedInTime(cfg: Config, qs: seq<Request>, id: RequestId)
    requires WellFormed(cfg)
    ensures var c, at := Serve(cfg, qs), RedeemedAt(cfg, qs, id);
            && (at.Some? <==> exists r :: r in c.redemptions && r.id == id)
            && (at.Some? ==> id < |c.sched.issued| && at.value <= c.sched.issued[id].expiresAt)
  {
    if qs != [] {
      var before, q := qs[..|qs| - 1], qs[|qs| - 1];
      RedeemedInTime(cfg, before, id);
      CoordinatorLaws.RunKeeps(cfg, before);
      var c := Serve(cfg, before);
      OthersRedeemNothing(cfg, c, q);
      if q.InferFor? { RedeemedExactly(cfg, c, q.id, q.sender, q.now); }
    }
  }
}
