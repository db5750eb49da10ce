/** How much standing the ledger can credit: bounds by declared figures and elapsed time, over whole runs. */
module Standing {
  import opened Wrappers
  import opened Peers
  import opened Ledgers
  import opened Registry
  import opened Crediting

  // ---- the log and the ledger's rows say the same ----

  function RowOf(e: Settlement): Contributed {
    Contributed(e.key.peer, e.key.member, e.gb, e.upTo - e.start)
  }

  /** The ledger rows a log stands for: one for each entry that pays. */
  function RowsOf(log: seq<Settlement>): seq<Contributed> {
    if log == [] then []
    else if log[|log| - 1].gb > 0.0 then RowsOf(log[..|log| - 1]) + [RowOf(log[|log| - 1])]
    else RowsOf(log[..|log| - 1])
  }

  lemma SettleRows(s: Reg, k: Key, gb: real, now: real, elapsed: real, owed: bool, path: Path)
    requires s.books.contributions == RowsOf(s.log) && (owed ==> elapsed > 0.0 && gb > 0.0)
    ensures var s' := Settle(s, k, gb, now, elapsed, owed, path); s'.books.contributions == RowsOf(s'.log)
  {
    var s' := Settle(s, k, gb, now, elapsed, owed, path);
    assert s'.log[..|s.log|] == s.log;
  }

  lemma {:induction false} SettleSharesRows(s: Reg, timeout: real, p: PeerId, shares: seq<Share>, now: real, elapsed: real, owed: bool)
    requires s.books.contributions == RowsOf(s.log)
    requires owed ==> elapsed > 0.0 && forall i :: 0 <= i < |shares| ==> shares[i].gb > 0.0
    ensures var s' := SettleShares(s, timeout, p, shares, now, elapsed, owed); s'.books.contributions == RowsOf(s'.log)
  {
    if shares != [] {
      var n := |shares| - 1;
      SettleSharesRows(s, timeout, p, shares[..n], now, elapsed, owed);
      SettleRows(SettleShares(s, timeout, p, shares[..n], now, elapsed, owed), Key(p, shares[n].member), shares[n].gb,
                 now, elapsed, owed, HeadsWord);
    }
  }

  lemma UnpaidRows(log: seq<Settlement>, e: Settlement)
    requires e.gb <= 0.0
    ensures RowsOf(log + [e]) == RowsOf(log)
  {
    assert (log + [e])[..|log|] == log;
  }

  lemma AttestRows(cfg: Config, s: Reg, p: PeerId, m: MemberId, gb: real, now: real)
    requires s.books.contributions == RowsOf(s.log)
    ensures var r := Attest(cfg, s, p, m, gb, now);
            r.Ok? ==> r.value.books.contributions == RowsOf(r.value.log)
  {
    var r := Attest(cfg, s, p, m, gb, now);
    var k := Key(p, m);
    if r.Ok? && k in s.attest {
      var elapsed := Min(now - s.attest[k].lastCredited, MAX_CREDITED_INTERVAL);
      var owed := elapsed > 0.0 && s.attest[k].residentGb > 0.0 && p in s.states && s.states[p].healthy;
      SettleRows(s, k, s.attest[k].residentGb, now, elapsed, owed, OwnWord);
    } else if r.Ok? {
      UnpaidRows(s.log, Settlement(k, now, now, 0.0, OwnWord));
    }
  }

  lemma BeatRows(cfg: Config, s: Reg, p: PeerId, now: real, held: real, healthy: bool, detail: Detail)
    requires WellFormed(cfg) && p in cfg.peers && s.books.contributions == RowsOf(s.log)
    ensures var s' := RecordBeat(cfg, s, p, now, held, healthy, detail); s'.books.contributions == RowsOf(s'.log)
  {
    if p in s.states {
      var st := s.states[p];
      SplitMembers(cfg.peers[p], st.residentGb);
      SettleSharesRows(s, cfg.timeout, p, CreditSplit(cfg.peers[p], st.residentGb), now,
                       Min(now - st.lastCredited, MAX_CREDITED_INTERVAL), Owed(st, now));
    }
  }

  /** In every run the contribution table is exactly the paid entries of the log, in order. */
  lemma {:induction false} LedgerIsTheLog(cfg: Config, es: seq<Event>)
    requires WellFormed(cfg)
    ensures Run(cfg, es).books.contributions == RowsOf(Run(cfg, es).log)
  {
    if es != [] {
      var n := |es| - 1;
      LedgerIsTheLog(cfg, es[..n]);
      var s := Run(cfg, es[..n]);
      match es[n] {
        case Beat(p, now, later, gb, healthy, detail) =>
          if p in cfg.peers {
            var held := Capped(cfg.peers[p], gb);
            BeatRows(cfg, s, p, now, held, healthy, detail);
            AttestRows(cfg, RecordBeat(cfg, s, p, now, held, healthy, detail), p, cfg.peers[p].owner, held, later);
          }
        case Attests(p, m, now, gb) => AttestRows(cfg, s, p, m, gb, now);
        case _ =>
      }
    }
  }

  // ---- sums over the log ----

  function Pays(e: Settlement): real {
    Weight(RowOf(e))
  }

  function CreditedIf(log: seq<Settlement>, sel: Settlement -> bool): real {
    if log == [] then 0.0
    else CreditedIf(log[..|log| - 1], sel) + if sel(log[|log| - 1]) then Pays(log[|log| - 1]) else 0.0
  }

  function For(k: Key): Settlement -> bool {
    (e: Settlement) => e.key == k
  }

  function Via(k: Key, path: Path): Settlement -> bool {
    (e: Settlement) => e.key == k && e.path == path
  }

  /** GB-seconds the contribution table credits `m` with for peer `p`. */
  function GbSecondsFor(rows: seq<Contributed>, p: PeerId, m: MemberId): real {
    if rows == [] then 0.0
    else
      var r := rows[|rows| - 1];
      GbSecondsFor(rows[..|rows| - 1], p, m) + if r.peer == p && r.owner == m then Weight(r) else 0.0
  }

  /** GB-seconds the contribution table credits to anyone for peer `p`. */
  function GbSecondsForPeer(rows: seq<Contributed>, p: PeerId): real {
    if rows == [] then 0.0
    else
      var r := rows[|rows| - 1];
      GbSecondsForPeer(rows[..|rows| - 1], p) + if r.peer == p then Weight(r) else 0.0
  }

  lemma GbSecondsPush(rows: seq<Contributed>, r: Contributed, p: PeerId, m: MemberId)
    ensures GbSecondsFor(rows + [r], p, m) == GbSecondsFor(rows, p, m) + if r.peer == p && r.owner == m then Weight(r) else 0.0
  {
    assert (rows + [r])[..|rows|] == rows;
  }

  lemma FreeEntry(e: Settlement)
    requires e.gb == 0.0
    ensures Pays(e) == 0.0
  {
  }

  lemma RowsPush(log: seq<Settlement>, e: Settlement)
    ensures RowsOf(log + [e]) == if e.gb > 0.0 then RowsOf(log) + [RowOf(e)] else RowsOf(log)
  {
    assert (log + [e])[..|log|] == log;
  }

  lemma {:induction false} CreditedIsGbSeconds(log: seq<Settlement>, k: Key)
    requires forall i :: 0 <= i < |log| ==> log[i].gb >= 0.0
    ensures GbSecondsFor(RowsOf(log), k.peer, k.member) == CreditedIf(log, For(k))
  {
    if log != [] {
      var front, e := log[..|log| - 1], log[|log| - 1];
      assert log == front + [e];
      CreditedIsGbSeconds(front, k);
      RowsPush(front, e);
      if e.gb > 0.0 {
        GbSecondsPush(RowsOf(front), RowOf(e), k.peer, k.member);
      } else {
        FreeEntry(e);
      }
    }
  }

  lemma {:induction false} CreditedSplits(log: seq<Settlement>, k: Key)
    ensures CreditedIf(log, For(k)) == CreditedIf(log, Via(k, HeadsWord)) + CreditedIf(log, Via(k, OwnWord))
  {
    if log != [] {
      CreditedSplits(log[..|log| - 1], k);
    }
  }

  /** Among the entries selected, none that pays starts before an earlier one that pays ends. */
  ghost predicate Chained(log: seq<Settlement>, sel: Settlement -> bool) {
    forall i, j :: 0 <= i < j < |log| && sel(log[i]) && sel(log[j]) && log[i].gb > 0.0 && log[j].gb > 0.0
               ==> log[i].upTo <= log[j].start
  }

  ghost predicate Between(e: Settlement, rate: real, t0: real, t: real) {
    0.0 <= e.gb && (e.gb > 0.0 ==> e.gb <= rate && t0 <= e.start <= e.upTo <= t)
  }

  predicate Earns(x: real, rate: real, span: real) {
    x <= rate * span
  }

  lemma PaysWithin(paid: real, rate: real, t0: real, e: Settlement, t: real)
    requires Earns(paid, rate, e.start - t0) && rate >= 0.0 && Between(e, rate, t0, t) && e.gb > 0.0
    ensures Earns(paid + Pays(e), rate, t - t0)
  {
    Accrue(paid, rate, t0, e.start, e.gb, e.start, e.upTo);
    Advance(paid + Pays(e), rate, t0, e.upTo, t);
  }

  lemma NothingEarned(rate: real, span: real)
    requires rate >= 0.0 && span >= 0.0
    ensures Earns(0.0, rate, span)
  {
    Times(0.0, rate, span);
  }

  /** Intervals that do not overlap, each paid at no more than `rate`, cannot pay more than `rate` times the time they span. */
  lemma {:induction false} ChainBound(log: seq<Settlement>, sel: Settlement -> bool, rate: real, t0: real, t: real, total: real)
    requires rate >= 0.0 && t0 <= t && Chained(log, sel) && total == CreditedIf(log, sel)
    requires forall i :: 0 <= i < |log| && sel(log[i]) ==> Between(log[i], rate, t0, t)
    ensures Earns(total, rate, t - t0)
  {
    if log == [] {
      NothingEarned(rate, t - t0);
    } else {
      var n := |log| - 1;
      var front, e := log[..n], log[n];
      var paid := CreditedIf(front, sel);
      if sel(e) && e.gb > 0.0 {
        forall i | 0 <= i < |front| && sel(front[i])
          ensures Between(front[i], rate, t0, e.start)
        {
          assert log[i] == front[i] && Between(log[i], rate, t0, t);
        }
        ChainBound(front, sel, rate, t0, e.start, paid);
        PaysWithin(paid, rate, t0, e, t);
      } else {
        ChainBound(front, sel, rate, t0, t, paid);
        if sel(e) { FreeEntry(e); }
      }
    }
  }

  lemma ChainBoundOver(log: seq<Settlement>, sel: Settlement -> bool, rate: real, t0: real, t: real, elapsed: real)
    requires rate >= 0.0 && t0 <= t && Chained(log, sel) && elapsed == t - t0
    requires forall i :: 0 <= i < |log| && sel(log[i]) ==> Between(log[i], rate, t0, t)
    ensures CreditedIf(log, sel) <= rate * elapsed
  {
    ChainBound(log, sel, rate, t0, t, CreditedIf(log, sel));
  }

  /** One more interval paid at no more than the rate, starting no earlier than the account is settled. */
  lemma Accrue(paid: real, rate: real, t0: real, settled: real, gb: real, start: real, now: real)
    requires paid <= rate * (settled - t0) && 0.0 <= gb <= rate && settled <= start <= now
    ensures paid + gb * (now - start) <= rate * (now - t0)
  {
    Times(gb, rate, now - start);
    Times(0.0, rate, start - settled);
    assert rate * (now - t0) == rate * (settled - t0) + rate * (start - settled) + rate * (now - start);
  }

  lemma Advance(paid: real, rate: real, t0: real, settled: real, now: real)
    requires paid <= rate * (settled - t0) && 0.0 <= rate && settled <= now
    ensures paid <= rate * (now - t0)
  {
    Times(0.0, rate, now - settled);
    assert rate * (now - t0) == rate * (settled - t0) + rate * (now - settled);
  }

  lemma Times(x: real, y: real, d: real)
    requires x <= y && d >= 0.0
    ensures x * d <= y * d
  {
  }

  // ---- rates ----

  /** What a list of shares gives `m`. */
  function ShareIn(shares: seq<Share>, m: MemberId): real {
    if shares == [] then 0.0
    else if shares[0].member == m then shares[0].gb
    else ShareIn(shares[1..], m)
  }

  /** What the owner's beat credits `m` per second when the peer holds all it declares. */
  function HeadGb(p: Peer, m: MemberId): real {
    ShareIn(CreditSplit(p, p.capacityGb), m)
  }

  lemma {:induction false} ShareInIs(shares: seq<Share>, j: nat)
    requires DistinctShares(shares) && j < |shares|
    ensures ShareIn(shares, shares[j].member) == shares[j].gb
  {
    if j > 0 {
      ShareInIs(shares[1..], j - 1);
    }
  }

  lemma {:induction false} ShareInNonNegative(shares: seq<Share>, m: MemberId)
    requires forall i :: 0 <= i < |shares| ==> shares[i].gb >= 0.0
    ensures ShareIn(shares, m) >= 0.0
  {
    if shares != [] {
      ShareInNonNegative(shares[1..], m);
    }
  }

  /** The most GB a second `m` can be credited by whichever path. */
  function RateGb(p: Peer, m: MemberId): real {
    Max(Declared(p, m), HeadGb(p, m))
  }

  lemma ShareMonotone(c: Contribution, x: real, y: real, total: real)
    requires 0.0 <= x <= y && c.gb >= 0.0 && total > 0.0
    ensures 0.0 <= ShareOf(c, x, total).gb <= ShareOf(c, y, total).gb
  {
    assert 0.0 <= x * c.gb <= y * c.gb;
    QuotientGrows(x * c.gb, y * c.gb, total);
    QuotientGrows(0.0, x * c.gb, total);
  }

  lemma RatesNonNegative(p: Peer, m: MemberId)
    requires WellFormedPeer(p) && p.capacityGb > 0.0
    ensures Declared(p, m) >= 0.0 && HeadGb(p, m) >= 0.0
  {
    DeclaredNonNegative(p.contributors, m);
    SplitMembers(p, p.capacityGb);
    ShareInNonNegative(CreditSplit(p, p.capacityGb), m);
  }

  /** No share of a capped residency exceeds its member's share of the declared capacity. */
  lemma ShareWithinHeadGb(p: Peer, gb: real, j: nat)
    requires WellFormedPeer(p) && 0.0 <= gb <= p.capacityGb && p.capacityGb > 0.0
    requires j < |CreditSplit(p, gb)|
    ensures CreditSplit(p, gb)[j].gb <= HeadGb(p, CreditSplit(p, gb)[j].member)
  {
    SplitMembers(p, gb);
    SplitMembers(p, p.capacityGb);
    ShareInIs(CreditSplit(p, p.capacityGb), j);
    if p.contributors != [] {
      ShareMonotone(p.contributors[j], gb, p.capacityGb, SumGb(p.contributors));
    }
  }

  // ---- what every run keeps ----

  /** Every paid entry is within its path's rate, starts after the run did, and belongs to a declared member. */
  ghost predicate Sane(cfg: Config, s: Reg, e: Settlement, t0: real) {
    && e.key.peer in cfg.peers
    && (e.path == HeadsWord ==> e.key.peer in s.states && e.upTo <= s.states[e.key.peer].lastCredited)
    && (e.gb > 0.0 ==>
          && t0 <= e.start
          && (cfg.peers[e.key.peer].capacityGb > 0.0 ==> e.gb <= PathGb(cfg.peers[e.key.peer], e))
          && Creditable(cfg.peers[e.key.peer], e.key.member)
          && (cfg.peers[e.key.peer].contributors == [] ==> e.path == HeadsWord))
  }

  function PathGb(p: Peer, e: Settlement): real {
    if e.path == HeadsWord then HeadGb(p, e.key.member) else Declared(p, e.key.member)
  }

  predicate Creditable(p: Peer, m: MemberId) {
    if p.contributors == [] then m == p.owner else Contributes(p, m)
  }

  ghost predicate Since(s: Reg, t0: real) {
    && (forall p :: p in s.states && s.states[p].residentGb > 0.0 ==> t0 <= s.states[p].lastCredited)
    && (forall k :: k in s.attest ==> t0 <= s.attest[k].lastCredited)
  }

  /** Each path on its own never overlaps itself. */
  ghost predicate PathsChained(log: seq<Settlement>) {
    forall i, j :: 0 <= i < j < |log| && log[i].key == log[j].key && log[i].path == log[j].path && log[j].gb > 0.0
               ==> log[i].upTo <= log[j].start
  }

  ghost predicate Accounts(cfg: Config, s: Reg, t0: real) {
    && Since(s, t0)
    && (forall e :: e in s.log ==> Sane(cfg, s, e, t0))
    && PathsChained(s.log)
  }

  lemma BeatAccounts(cfg: Config, s: Reg, p: PeerId, t: real, now: real, held: real, healthy: bool, detail: Detail, t0: real)
    requires WellFormed(cfg) && Inv(cfg, s, t) && Accounts(cfg, s, t0) && t0 <= t <= now && p in cfg.peers
    ensures Accounts(cfg, RecordBeat(cfg, s, p, now, held, healthy, detail), t0)
  {
    var s' := RecordBeat(cfg, s, p, now, held, healthy, detail);
    var es := BeatEntries(cfg, s, p, now);
    BeatIs(cfg, s, p, now, held, healthy, detail);
    forall e | e in s'.log
      ensures Sane(cfg, s', e, t0)
    {
      if e in s.log {
        assert Sane(cfg, s, e, t0);
      } else {
        BeatEntrySane(cfg, s, p, t, now, e, t0);
      }
    }
    BeatPathsChained(cfg, s, p, now, t0);
  }

  /** A beat's payment starts where the same path's last one ended, or later. */
  lemma BeatFollows(cfg: Config, s: Reg, p: PeerId, now: real, t0: real, f: Settlement, e: Settlement)
    requires WellFormed(cfg) && p in cfg.peers && Sane(cfg, s, f, t0)
    requires p in s.states ==> s.states[p].residentGb >= 0.0
    requires e in BeatEntries(cfg, s, p, now) && f.key == e.key && f.path == e.path && e.gb > 0.0
    ensures f.upTo <= e.start
  {
    BeatEntryIs(cfg, s, p, now, e);
  }

  lemma BeatPathsChained(cfg: Config, s: Reg, p: PeerId, now: real, t0: real)
    requires WellFormed(cfg) && p in cfg.peers && PathsChained(s.log) && (forall e :: e in s.log ==> Sane(cfg, s, e, t0))
    requires p in s.states ==> s.states[p].residentGb >= 0.0
    requires DistinctKeys(BeatEntries(cfg, s, p, now))
    ensures PathsChained(s.log + BeatEntries(cfg, s, p, now))
  {
    var es := BeatEntries(cfg, s, p, now);
    var log' := s.log + es;
    forall i, j | 0 <= i < j < |log'| && log'[i].key == log'[j].key && log'[i].path == log'[j].path && log'[j].gb > 0.0
      ensures log'[i].upTo <= log'[j].start
    {
      if i < |s.log| <= j {
        assert s.log[i] in s.log && log'[j] in es;
        BeatFollows(cfg, s, p, now, t0, s.log[i], log'[j]);
      }
    }
  }

  lemma BeatEntrySane(cfg: Config, s: Reg, p: PeerId, t: real, now: real, e: Settlement, t0: real)
    requires WellFormed(cfg) && Inv(cfg, s, t) && Since(s, t0) && t0 <= t <= now && p in cfg.peers
    requires e in BeatEntries(cfg, s, p, now)
    ensures e.key.peer == p && e.path == HeadsWord && e.upTo == now
    ensures e.gb > 0.0 ==>
              && t0 <= e.start && (cfg.peers[p].capacityGb > 0.0 ==> e.gb <= HeadGb(cfg.peers[p], e.key.member))
              && Creditable(cfg.peers[p], e.key.member)
  {
    BeatEntryIs(cfg, s, p, now, e);
    if e.gb > 0.0 {
      var peer, gb := cfg.peers[p], s.states[p].residentGb;
      var shares := CreditSplit(peer, gb);
      var j :| 0 <= j < |shares| && PaysShare(e, shares[j], true);
      SplitMembers(peer, gb);
      if peer.contributors != [] { assert peer.contributors[j].member == e.key.member; }
      if peer.capacityGb > 0.0 { ShareWithinHeadGb(peer, gb, j); }
    }
  }

  lemma AttestAccounts(cfg: Config, s: Reg, p: PeerId, m: MemberId, gb: real, t: real, now: real, t0: real)
    requires WellFormed(cfg) && Inv(cfg, s, t) && Accounts(cfg, s, t0) && t0 <= t <= now
    requires Attest(cfg, s, p, m, gb, now).Ok?
    ensures Accounts(cfg, Attest(cfg, s, p, m, gb, now).value, t0)
  {
    var s' := Attest(cfg, s, p, m, gb, now).value;
    var e := AttestLogs(cfg, s, p, m, gb, t, now);
    if e.gb > 0.0 { assert ConsistentAttestation(cfg, s, e.key, t); }
    forall e' | e' in s'.log
      ensures Sane(cfg, s', e', t0)
    {
      if e' in s.log { assert Sane(cfg, s, e', t0); }
    }
    forall i, j | 0 <= i < j < |s'.log| && s'.log[i].key == s'.log[j].key && s'.log[i].path == s'.log[j].path && s'.log[j].gb > 0.0
      ensures s'.log[i].upTo <= s'.log[j].start
    {
      if j == |s.log| {
        assert s.log[i] in s.log && Within(s.log[i], s.attest);
      }
    }
  }

  lemma QuietAccounts(cfg: Config, s: Reg, e: Event, t0: real)
    requires Accounts(cfg, s, t0) && !e.Beat? && !e.Attests?
    ensures Accounts(cfg, Step(cfg, s, e), t0)
  {
    var s' := Step(cfg, s, e);
    assert s'.attest == s.attest && s'.log == s.log;
    assert forall p :: p in s.states ==> p in s'.states && s'.states[p].lastCredited == s.states[p].lastCredited;
    assert forall p :: p in s'.states && s'.states[p].residentGb > 0.0 ==> p in s.states && s'.states[p].residentGb == s.states[p].residentGb;
    forall e' | e' in s'.log
      ensures Sane(cfg, s', e', t0)
    {
      assert Sane(cfg, s, e', t0);
    }
  }

  lemma {:induction false} RunAccounts(cfg: Config, es: seq<Event>, t0: real)
    requires WellFormed(cfg) && t0 >= 0.0 && Monotonic(t0, es)
    ensures Accounts(cfg, Run(cfg, es), t0)
    ensures Clock(t0, es) >= t0
  {
    if es != [] {
      var n := |es| - 1;
      var s, t := Run(cfg, es[..n]), Clock(t0, es[..n]);
      RunAccounts(cfg, es[..n], t0);
      RunKeeps(cfg, es[..n], t0);
      match es[n] {
        case Beat(p, now, later, gb, healthy, detail) =>
          if p in cfg.peers {
            var held := Capped(cfg.peers[p], gb);
            var mid := RecordBeat(cfg, s, p, now, held, healthy, detail);
            BeatKeeps(cfg, s, p, t, now, gb, healthy, detail);
            BeatAccounts(cfg, s, p, t, now, held, healthy, detail, t0);
            if Attest(cfg, mid, p, cfg.peers[p].owner, held, later).Ok? {
              AttestAccounts(cfg, mid, p, cfg.peers[p].owner, held, now, later, t0);
            }
          }
        case Attests(p, m, now, gb) =>
          if Attest(cfg, s, p, m, gb, now).Ok? {
            AttestAccounts(cfg, s, p, m, gb, t, now, t0);
          }
        case _ => QuietAccounts(cfg, s, es[n], t0);
      }
    }
  }

  // ---- no minted standing ----

  /** The entries of a run that `sel` selects never overlap and none exceeds `rate`. */
  ghost predicate Bounded(cfg: Config, es: seq<Event>, sel: Settlement -> bool, rate: real) {
    && rate >= 0.0
    && Chained(Run(cfg, es).log, sel)
    && forall e :: e in Run(cfg, es).log && sel(e) && e.gb > 0.0 ==> e.gb <= rate
  }

  lemma SelectedBound(cfg: Config, es: seq<Event>, t0: real, sel: Settlement -> bool, rate: real, elapsed: real)
    requires WellFormed(cfg) && t0 >= 0.0 && Monotonic(t0, es) && Bounded(cfg, es, sel, rate)
    requires elapsed == Clock(t0, es) - t0
    ensures CreditedIf(Run(cfg, es).log, sel) <= rate * elapsed
  {
    var s, t := Run(cfg, es), Clock(t0, es);
    RunKeeps(cfg, es, t0);
    RunAccounts(cfg, es, t0);
    forall i | 0 <= i < |s.log| && sel(s.log[i])
      ensures Between(s.log[i], rate, t0, t)
    {
      var e := s.log[i];
      assert e in s.log;
      assert Within(e, s.attest) && ConsistentAttestation(cfg, s, e.key, t) && Sane(cfg, s, e, t0);
    }
    ChainBoundOver(s.log, sel, rate, t0, t, elapsed);
  }

  /** No paid entry of a run exceeds the rate of its path, and neither path overlaps itself. */
  lemma EntriesWithinRates(cfg: Config, es: seq<Event>, t0: real, k: Key)
    requires WellFormed(cfg) && t0 >= 0.0 && Monotonic(t0, es)
    requires k.peer in cfg.peers && cfg.peers[k.peer].capacityGb > 0.0
    ensures Bounded(cfg, es, Via(k, HeadsWord), HeadGb(cfg.peers[k.peer], k.member))
    ensures Bounded(cfg, es, Via(k, OwnWord), Declared(cfg.peers[k.peer], k.member))
    ensures Partitioned(Paid, Run(cfg, es).log, k) ==> Bounded(cfg, es, For(k), RateGb(cfg.peers[k.peer], k.member))
  {
    RunAccounts(cfg, es, t0);
    RatesNonNegative(cfg.peers[k.peer], k.member);
    forall e | e in Run(cfg, es).log && e.key == k && e.gb > 0.0
      ensures e.gb <= PathGb(cfg.peers[k.peer], e)
    {
      assert Sane(cfg, Run(cfg, es), e, t0);
    }
  }

  /** The ledger's rows for a key are the sum over both paths. */
  lemma LedgerCredit(cfg: Config, es: seq<Event>, t0: real, k: Key)
    requires WellFormed(cfg) && t0 >= 0.0 && Monotonic(t0, es)
    ensures var s := Run(cfg, es);
            && GbSecondsFor(s.books.contributions, k.peer, k.member) == CreditedIf(s.log, For(k))
            && CreditedIf(s.log, For(k)) == CreditedIf(s.log, Via(k, HeadsWord)) + CreditedIf(s.log, Via(k, OwnWord))
  {
    var s := Run(cfg, es);
    LedgerIsTheLog(cfg, es);
    RunKeeps(cfg, es, t0);
    forall i | 0 <= i < |s.log|
      ensures s.log[i].gb >= 0.0
    {
      assert s.log[i] in s.log && Within(s.log[i], s.attest);
    }
    CreditedIsGbSeconds(s.log, k);
    CreditedSplits(s.log, k);
  }

  /**
   With the partition in force, a contributor earns at most the larger of its declared share and its
   share of the declared capacity, times the time elapsed.
   */
  lemma StandingBound(cfg: Config, es: seq<Event>, t0: real, p: PeerId, m: MemberId, rate: real, elapsed: real)
    requires WellFormed(cfg) && t0 >= 0.0 && Monotonic(t0, es)
    requires p in cfg.peers && cfg.peers[p].capacityGb > 0.0 && !RunReclaims(Paid, cfg, es, Key(p, m))
    requires rate == RateGb(cfg.peers[p], m) && elapsed == Clock(t0, es) - t0
    ensures GbSecondsFor(Run(cfg, es).books.contributions, p, m) <= rate * elapsed
  {
    var k := Key(p, m);
    PartitionExactly(Paid, cfg, es, t0, k);
    LedgerCredit(cfg, es, t0, k);
    EntriesWithinRates(cfg, es, t0, k);
    SelectedBound(cfg, es, t0, For(k), rate, elapsed);
  }

  /** Without any condition on the owner's beats each path still keeps to its own rate. */
  lemma PathsBound(cfg: Config, es: seq<Event>, t0: real, p: PeerId, m: MemberId, earned: real, head: real, own: real, elapsed: real)
    requires WellFormed(cfg) && t0 >= 0.0 && Monotonic(t0, es)
    requires p in cfg.peers && cfg.peers[p].capacityGb > 0.0
    requires earned == GbSecondsFor(Run(cfg, es).books.contributions, p, m)
    requires head == HeadGb(cfg.peers[p], m) && own == Declared(cfg.peers[p], m) && elapsed == Clock(t0, es) - t0
    ensures elapsed >= 0.0 && earned <= head * elapsed + own * elapsed
  {
    var k := Key(p, m);
    LedgerCredit(cfg, es, t0, k);
    RunAccounts(cfg, es, t0);
    EntriesWithinRates(cfg, es, t0, k);
    SelectedBound(cfg, es, t0, Via(k, HeadsWord), head, elapsed);
    SelectedBound(cfg, es, t0, Via(k, OwnWord), own, elapsed);
  }

  lemma TwoRates(paid: real, h: real, d: real, rate: real, elapsed: real, span: real)
    requires elapsed >= 0.0 && paid <= h * elapsed + d * elapsed && h <= rate && d <= rate && span == 2.0 * elapsed
    ensures Earns(paid, rate, span)
  {
    Times(h, rate, elapsed);
    Times(d, rate, elapsed);
    assert rate * elapsed + rate * elapsed == rate * span;
  }

  lemma WithinTwice(cfg: Config, es: seq<Event>, t0: real, p: PeerId, m: MemberId,
                            earned: real, head: real, own: real, rate: real, elapsed: real, span: real)
    requires WellFormed(cfg) && t0 >= 0.0 && Monotonic(t0, es)
    requires p in cfg.peers && cfg.peers[p].capacityGb > 0.0
    requires earned == GbSecondsFor(Run(cfg, es).books.contributions, p, m)
    requires head == HeadGb(cfg.peers[p], m) && own == Declared(cfg.peers[p], m) && rate == Max(own, head)
    requires elapsed == Clock(t0, es) - t0 && span == 2.0 * elapsed
    ensures Earns(earned, rate, span)
  {
    PathsBound(cfg, es, t0, p, m, earned, head, own, elapsed);
    TwoRates(earned, head, own, rate, elapsed, span);
  }

  lemma TwiceReads(earned: real, rate: real, elapsed: real, span: real)
    requires Earns(earned, rate, span) && span == 2.0 * elapsed
    ensures earned <= 2.0 * rate * elapsed
  {
  }

  /** So together they stay within twice the larger of the two rates. */
  lemma StandingBoundAnyway(cfg: Config, es: seq<Event>, t0: real, p: PeerId, m: MemberId, rate: real, elapsed: real)
    requires WellFormed(cfg) && t0 >= 0.0 && Monotonic(t0, es)
    requires p in cfg.peers && cfg.peers[p].capacityGb > 0.0
    requires rate == RateGb(cfg.peers[p], m) && elapsed == Clock(t0, es) - t0
    ensures GbSecondsFor(Run(cfg, es).books.contributions, p, m) <= 2.0 * rate * elapsed
  {
    var earned := GbSecondsFor(Run(cfg, es).books.contributions, p, m);
    var head, own, span := HeadGb(cfg.peers[p], m), Declared(cfg.peers[p], m), 2.0 * elapsed;
    WithinTwice(cfg, es, t0, p, m, earned, head, own, rate, elapsed, span);
    TwiceReads(earned, rate, elapsed, span);
  }

  lemma OneRate(earned: real, head: real, own: real, elapsed: real)
    requires earned <= head * elapsed + own * elapsed && own == 0.0
    ensures earned <= head * elapsed
  {
  }

  /** A peer with no contributors earns its owner at most the capacity times the time elapsed, whatever the gaps. */
  lemma SoleOwnerBound(cfg: Config, es: seq<Event>, t0: real, p: PeerId, capacity: real, elapsed: real)
    requires WellFormed(cfg) && t0 >= 0.0 && Monotonic(t0, es)
    requires p in cfg.peers && cfg.peers[p].contributors == []
    requires capacity == cfg.peers[p].capacityGb && capacity > 0.0 && elapsed == Clock(t0, es) - t0
    ensures GbSecondsFor(Run(cfg, es).books.contributions, p, cfg.peers[p].owner) <= capacity * elapsed
  {
    SoleOwnerRates(cfg.peers[p]);
    var earned := GbSecondsFor(Run(cfg, es).books.contributions, p, cfg.peers[p].owner);
    var own := Declared(cfg.peers[p], cfg.peers[p].owner);
    PathsBound(cfg, es, t0, p, cfg.peers[p].owner, earned, capacity, own, elapsed);
    OneRate(earned, capacity, own, elapsed);
  }

  lemma SoleOwnerRates(p: Peer)
    requires p.contributors == []
    ensures HeadGb(p, p.owner) == p.capacityGb && Declared(p, p.owner) == 0.0
  {
  }

  // ---- the whole group ----

  predicate OnlyMembers(rows: seq<Contributed>, p: PeerId, cs: seq<Contribution>) {
    forall j :: 0 <= j < |rows| && rows[j].peer == p ==> NamedBy(cs, rows[j].owner)
  }

  function SumFor(rows: seq<Contributed>, p: PeerId, cs: seq<Contribution>): real {
    if cs == [] then 0.0 else SumFor(rows, p, cs[..|cs| - 1]) + GbSecondsFor(rows, p, cs[|cs| - 1].member)
  }

  lemma {:induction false} SumForPush(rows: seq<Contributed>, r: Contributed, p: PeerId, cs: seq<Contribution>)
    requires DistinctMembers(cs)
    ensures SumFor(rows + [r], p, cs) ==
            SumFor(rows, p, cs) + if r.peer == p && NamedBy(cs, r.owner) then Weight(r) else 0.0
  {
    if cs != [] {
      var n := |cs| - 1;
      SumForPush(rows, r, p, cs[..n]);
      GbSecondsPush(rows, r, p, cs[n].member);
      if NamedBy(cs[..n], r.owner) {
        var i :| 0 <= i < n && cs[..n][i].member == r.owner;
        assert cs[i].member == r.owner;
      }
      if NamedBy(cs, r.owner) && cs[n].member != r.owner {
        var i :| 0 <= i < |cs| && cs[i].member == r.owner;
        assert cs[..n][i].member == r.owner;
      }
    }
  }

  lemma {:induction false} SumForNothing(p: PeerId, cs: seq<Contribution>)
    ensures SumFor([], p, cs) == 0.0
  {
    if cs != [] {
      SumForNothing(p, cs[..|cs| - 1]);
    }
  }

  /** Crediting members one by one credits the peer: no row of a group goes to anyone it does not name. */
  lemma {:induction false} GroupIsItsMembers(rows: seq<Contributed>, p: PeerId, cs: seq<Contribution>)
    requires DistinctMembers(cs)
    requires OnlyMembers(rows, p, cs)
    ensures GbSecondsForPeer(rows, p) == SumFor(rows, p, cs)
  {
    if rows == [] {
      SumForNothing(p, cs);
    } else {
      var front, r := rows[..|rows| - 1], rows[|rows| - 1];
      assert rows == front + [r];
      GroupIsItsMembers(front, p, cs);
      SumForPush(front, r, p, cs);
    }
  }

  lemma {:induction false} RowsAreEntries(log: seq<Settlement>, j: nat)
    requires j < |RowsOf(log)|
    ensures exists e :: e in log && e.gb > 0.0 && RowsOf(log)[j] == RowOf(e)
  {
    var front := log[..|log| - 1];
    if j < |RowsOf(front)| {
      RowsAreEntries(front, j);
    }
  }

  function Sum(xs: seq<real>): real {
    if xs == [] then 0.0 else Sum(xs[..|xs| - 1]) + xs[|xs| - 1]
  }

  lemma {:induction false} EarnedSum(rows: seq<Contributed>, p: PeerId, cs: seq<Contribution>, xs: seq<real>)
    requires |xs| == |cs| && forall i :: 0 <= i < |cs| ==> xs[i] == GbSecondsFor(rows, p, cs[i].member)
    ensures SumFor(rows, p, cs) == Sum(xs)
  {
    if cs != [] {
      EarnedSum(rows, p, cs[..|cs| - 1], xs[..|cs| - 1]);
    }
  }

  lemma {:induction false} DeclaredSum(cs: seq<Contribution>, xs: seq<real>)
    requires |xs| == |cs| && forall i :: 0 <= i < |cs| ==> xs[i] == cs[i].gb
    ensures SumGb(cs) == Sum(xs)
  {
    if cs != [] {
      DeclaredSum(cs[..|cs| - 1], xs[..|cs| - 1]);
    }
  }

  lemma {:induction false} SharesSum(ss: seq<Share>, xs: seq<real>)
    requires |xs| == |ss| && forall i :: 0 <= i < |ss| ==> xs[i] == ss[i].gb
    ensures SumShares(ss) == Sum(xs)
  {
    if ss != [] {
      SharesSum(ss[..|ss| - 1], xs[..|ss| - 1]);
    }
  }

  lemma Distribute(a: real, b: real, d: real)
    ensures a * d + b * d == (a + b) * d
  {
  }

  lemma FullShare(c: Contribution, total: real)
    requires total > 0.0
    ensures ShareOf(c, total, total).gb == c.gb
  {
    TimesOver(c.gb, total);
  }

  /** A member's rate is its declared share where the shares exceed the capacity, and its share of the capacity otherwise. */
  lemma RateIs(p: Peer, i: nat)
    requires WellFormedPeer(p) && p.capacityGb > 0.0 && i < |p.contributors|
    ensures SumGb(p.contributors) > 0.0 && |CreditSplit(p, p.capacityGb)| == |p.contributors|
    ensures RateGb(p, p.contributors[i].member) ==
            if p.capacityGb <= SumGb(p.contributors) then p.contributors[i].gb else CreditSplit(p, p.capacityGb)[i].gb
  {
    var c, total := p.contributors[i], SumGb(p.contributors);
    SumGbPositive(p.contributors);
    SplitMembers(p, p.capacityGb);
    DeclaredIs(p.contributors, i);
    ShareInIs(CreditSplit(p, p.capacityGb), i);
    FullShare(c, total);
    if p.capacityGb <= total {
      ShareMonotone(c, p.capacityGb, total, total);
    } else {
      ShareMonotone(c, total, p.capacityGb, total);
    }
  }

  /** No member's part of the group's rate is lost or counted twice. */
  lemma RatesSum(p: Peer, rs: seq<real>)
    requires WellFormedPeer(p) && p.capacityGb > 0.0 && p.contributors != [] && |rs| == |p.contributors|
    requires forall i :: 0 <= i < |rs| ==> rs[i] == RateGb(p, p.contributors[i].member)
    ensures Sum(rs) == Max(p.capacityGb, SumGb(p.contributors))
  {
    RateIs(p, 0);
    forall i | 0 <= i < |rs|
      ensures rs[i] == if p.capacityGb <= SumGb(p.contributors) then p.contributors[i].gb else CreditSplit(p, p.capacityGb)[i].gb
    {
      RateIs(p, i);
    }
    if p.capacityGb <= SumGb(p.contributors) {
      DeclaredSum(p.contributors, rs);
    } else {
      SharesSum(CreditSplit(p, p.capacityGb), rs);
      SplitConserves(p, p.capacityGb);
    }
  }

  lemma AddBounds(a: real, b: real, x: real, r: real, d: real, total: real)
    requires a <= b * d && x <= r * d && total == b + r
    ensures a + x <= total * d
  {
    Distribute(b, r, d);
  }

  lemma {:induction false} SumsWithin(xs: seq<real>, rs: seq<real>, total: real, span: real)
    requires |xs| == |rs| && total == Sum(rs) && forall i :: 0 <= i < |xs| ==> Earns(xs[i], rs[i], span)
    ensures Sum(xs) <= total * span
  {
    if xs != [] {
      var n := |xs| - 1;
      var before, x, r := Sum(rs[..n]), xs[n], rs[n];
      SumsWithin(xs[..n], rs[..n], before, span);
      assert Earns(x, r, span);
      AddBounds(Sum(xs[..n]), before, x, r, span, total);
    }
  }

  /** Every row of a group goes to one of its declared members. */
  lemma RowsGoToMembers(cfg: Config, es: seq<Event>, t0: real, p: PeerId)
    requires WellFormed(cfg) && t0 >= 0.0 && Monotonic(t0, es) && p in cfg.peers && cfg.peers[p].contributors != []
    ensures OnlyMembers(Run(cfg, es).books.contributions, p, cfg.peers[p].contributors)
  {
    var s := Run(cfg, es);
    LedgerIsTheLog(cfg, es);
    RunAccounts(cfg, es, t0);
    forall j | 0 <= j < |RowsOf(s.log)| && RowsOf(s.log)[j].peer == p
      ensures NamedBy(cfg.peers[p].contributors, RowsOf(s.log)[j].owner)
    {
      RowsAreEntries(s.log, j);
      var e :| e in s.log && e.gb > 0.0 && RowsOf(s.log)[j] == RowOf(e);
      assert Sane(cfg, s, e, t0);
    }
  }

  /** `xs` and `rs` list what the contributors of `p` have been credited, and at what rates they may be. */
  ghost predicate Rated(cfg: Config, es: seq<Event>, p: PeerId, xs: seq<real>, rs: seq<real>)
    requires p in cfg.peers
  {
    && |xs| == |rs| == |cfg.peers[p].contributors|
    && (forall i :: 0 <= i < |xs| ==> xs[i] == GbSecondsFor(Run(cfg, es).books.contributions, p, cfg.peers[p].contributors[i].member))
    && (forall i :: 0 <= i < |rs| ==> rs[i] == RateGb(cfg.peers[p], cfg.peers[p].contributors[i].member))
  }

  lemma RatedExists(cfg: Config, es: seq<Event>, p: PeerId) returns (xs: seq<real>, rs: seq<real>)
    requires p in cfg.peers
    ensures Rated(cfg, es, p, xs, rs)
  {
    var rows, cs := Run(cfg, es).books.contributions, cfg.peers[p].contributors;
    xs := seq(|cs|, i requires 0 <= i < |cs| => GbSecondsFor(rows, p, cs[i].member));
    rs := seq(|cs|, i requires 0 <= i < |cs| => RateGb(cfg.peers[p], cs[i].member));
  }

  /** A group earns what its members earn, so bounds on each of them add up to one on the group. */
  lemma GroupWithin(cfg: Config, es: seq<Event>, t0: real, p: PeerId, xs: seq<real>, rs: seq<real>, rate: real, span: real)
    requires WellFormed(cfg) && t0 >= 0.0 && Monotonic(t0, es)
    requires p in cfg.peers && cfg.peers[p].capacityGb > 0.0 && cfg.peers[p].contributors != []
    requires rate == Max(cfg.peers[p].capacityGb, SumGb(cfg.peers[p].contributors))
    requires Rated(cfg, es, p, xs, rs) && forall i :: 0 <= i < |xs| ==> Earns(xs[i], rs[i], span)
    ensures GbSecondsForPeer(Run(cfg, es).books.contributions, p) <= rate * span
  {
    var rows, cs := Run(cfg, es).books.contributions, cfg.peers[p].contributors;
    RowsGoToMembers(cfg, es, t0, p);
    GroupIsItsMembers(rows, p, cs);
    EarnedSum(rows, p, cs, xs);
    RatesSum(cfg.peers[p], rs);
    SumsWithin(xs, rs, rate, span);
  }

  lemma MemberBound(cfg: Config, es: seq<Event>, t0: real, p: PeerId, m: MemberId, x: real, rate: real, elapsed: real)
    requires WellFormed(cfg) && t0 >= 0.0 && Monotonic(t0, es)
    requires p in cfg.peers && cfg.peers[p].capacityGb > 0.0 && !RunReclaims(Paid, cfg, es, Key(p, m))
    requires x == GbSecondsFor(Run(cfg, es).books.contributions, p, m)
    requires rate == RateGb(cfg.peers[p], m) && elapsed == Clock(t0, es) - t0
    ensures Earns(x, rate, elapsed)
  {
    StandingBound(cfg, es, t0, p, m, rate, elapsed);
  }

  /** With the partition in force, a group as a whole earns at most max(capacity, sum of shares) times the time elapsed. */
  lemma GroupBound(cfg: Config, es: seq<Event>, t0: real, p: PeerId, rate: real, elapsed: real)
    requires WellFormed(cfg) && t0 >= 0.0 && Monotonic(t0, es)
    requires p in cfg.peers && cfg.peers[p].capacityGb > 0.0 && cfg.peers[p].contributors != []
    requires forall i :: 0 <= i < |cfg.peers[p].contributors| ==> !RunReclaims(Paid, cfg, es, Key(p, cfg.peers[p].contributors[i].member))
    requires rate == Max(cfg.peers[p].capacityGb, SumGb(cfg.peers[p].contributors)) && elapsed == Clock(t0, es) - t0
    ensures GbSecondsForPeer(Run(cfg, es).books.contributions, p) <= rate * elapsed
  {
    var xs, rs := RatedExists(cfg, es, p);
    forall i | 0 <= i < |xs| ensures Earns(xs[i], rs[i], elapsed) {
      MemberBound(cfg, es, t0, p, cfg.peers[p].contributors[i].member, xs[i], rs[i], elapsed);
    }
    GroupWithin(cfg, es, t0, p, xs, rs, rate, elapsed);
  }

  /** Whatever the gaps, a group earns at most twice that. */
  lemma GroupBoundAnyway(cfg: Config, es: seq<Event>, t0: real, p: PeerId, rate: real, elapsed: real)
    requires WellFormed(cfg) && t0 >= 0.0 && Monotonic(t0, es)
    requires p in cfg.peers && cfg.peers[p].capacityGb > 0.0 && cfg.peers[p].contributors != []
    requires rate == Max(cfg.peers[p].capacityGb, SumGb(cfg.peers[p].contributors))
    requires elapsed == Clock(t0, es) - t0
    ensures GbSecondsForPeer(Run(cfg, es).books.contributions, p) <= 2.0 * rate * elapsed
  {
    var xs, rs := RatedExists(cfg, es, p);
    var span := 2.0 * elapsed;
    forall i | 0 <= i < |xs| ensures Earns(xs[i], rs[i], span) {
      var m := cfg.peers[p].contributors[i].member;
      WithinTwice(cfg, es, t0, p, m, xs[i], HeadGb(cfg.peers[p], m), Declared(cfg.peers[p], m), rs[i], elapsed, span);
    }
    GroupWithin(cfg, es, t0, p, xs, rs, rate, span);
    TwiceReads(GbSecondsForPeer(Run(cfg, es).books.contributions, p), rate, elapsed, span);
  }
}
