/** What one beat and one attestation pay, to the GB-second, and that no long silence is paid for. */
module Payment {
  import opened Wrappers
  import opened Peers
  import opened Ledgers
  import opened Registry
  import opened Crediting
  import opened Standing

  /** `after` is `before` and `gb` held for `seconds` more. */
  predicate Adds(before: real, after: real, gb: real, seconds: real) {
    after == before + gb * seconds
  }

  lemma PeerPush(rows: seq<Contributed>, r: Contributed, p: PeerId)
    requires r.peer == p
    ensures Adds(GbSecondsForPeer(rows, p), GbSecondsForPeer(rows + [r], p), r.gb, r.seconds)
  {
    assert (rows + [r])[..|rows|] == rows;
  }

  lemma MemberPush(rows: seq<Contributed>, r: Contributed, p: PeerId, m: MemberId)
    requires r.peer == p && r.owner == m
    ensures Adds(GbSecondsFor(rows, p, m), GbSecondsFor(rows + [r], p, m), r.gb, r.seconds)
  {
    assert (rows + [r])[..|rows|] == rows;
  }

  lemma AddsTwice(a: real, b: real, c: real, x: real, y: real, total: real, seconds: real)
    requires Adds(a, b, x, seconds) && Adds(b, c, y, seconds) && total == x + y
    ensures Adds(a, c, total, seconds)
  {
    Distribute(x, y, seconds);
  }

  lemma AddsNothing(a: real, seconds: real)
    ensures Adds(a, a, 0.0, seconds)
  {
  }

  /** Settling one share adds one row and leaves every other member's attestation alone. */
  lemma SettleSharePays(s: Reg, timeout: real, p: PeerId, share: Share, now: real, elapsed: real)
    requires elapsed > 0.0 && share.gb >= 0.0 && !Attesting(s, timeout, Key(p, share.member), now)
    ensures var s' := SettleShare(s, timeout, Key(p, share.member), share.gb, now, elapsed, true);
            s'.books.contributions == s.books.contributions + [Contributed(p, share.member, share.gb, elapsed)]
  {
  }

  lemma {:induction false} SharesPay(s: Reg, timeout: real, p: PeerId, shares: seq<Share>, now: real, elapsed: real, total: real)
    requires DistinctShares(shares) && elapsed > 0.0 && total == SumShares(shares)
    requires forall i :: 0 <= i < |shares| ==> shares[i].gb >= 0.0 && !Attesting(s, timeout, Key(p, shares[i].member), now)
    ensures Adds(GbSecondsForPeer(s.books.contributions, p),
                 GbSecondsForPeer(SettleShares(s, timeout, p, shares, now, elapsed, true).books.contributions, p), total, elapsed)
  {
    var before := GbSecondsForPeer(s.books.contributions, p);
    if shares == [] {
      AddsNothing(before, elapsed);
    } else {
      var n := |shares| - 1;
      var front, last := shares[..n], shares[n];
      var mid := SettleShares(s, timeout, p, front, now, elapsed, true);
      SharesPay(s, timeout, p, front, now, elapsed, SumShares(front));
      SettleSharesMarks(s, timeout, p, front, now, elapsed, true, Key(p, last.member));
      assert !Named(front, last.member);
      SettleSharePays(mid, timeout, p, last, now, elapsed);
      var row := Contributed(p, last.member, last.gb, elapsed);
      PeerPush(mid.books.contributions, row, p);
      AddsTwice(before, GbSecondsForPeer(mid.books.contributions, p),
                GbSecondsForPeer(mid.books.contributions + [row], p), SumShares(front), last.gb, total, elapsed);
    }
  }

  /**
   An owner's beat pays its group, for the time since the last one, all that was resident: nothing
   of it is lost in the split, as long as no contributor is attesting for itself.
   */
  lemma BeatPaysResidency(cfg: Config, s: Reg, p: PeerId, now: real, held: real, healthy: bool, detail: Detail, gb: real, elapsed: real)
    requires WellFormed(cfg) && p in cfg.peers && p in s.states && Owed(s.states[p], now)
    requires gb == s.states[p].residentGb && elapsed == Min(now - s.states[p].lastCredited, MAX_CREDITED_INTERVAL)
    requires forall i :: 0 <= i < |CreditSplit(cfg.peers[p], gb)| ==>
               !Attesting(s, cfg.timeout, Key(p, CreditSplit(cfg.peers[p], gb)[i].member), now)
    ensures Adds(GbSecondsForPeer(s.books.contributions, p),
                 GbSecondsForPeer(RecordBeat(cfg, s, p, now, held, healthy, detail).books.contributions, p), gb, elapsed)
  {
    SplitMembers(cfg.peers[p], gb);
    SplitConserves(cfg.peers[p], gb);
    SharesPay(s, cfg.timeout, p, CreditSplit(cfg.peers[p], gb), now, elapsed, gb);
  }

  /** A contributor's attestation pays what it held since it was last credited, while the group can serve. */
  lemma AttestationPays(cfg: Config, s: Reg, p: PeerId, m: MemberId, reported: real, now: real, gb: real, elapsed: real)
    requires Attest(cfg, s, p, m, reported, now).Ok? && Key(p, m) in s.attest && p in s.states && s.states[p].healthy
    requires gb == s.attest[Key(p, m)].residentGb && gb > 0.0
    requires elapsed == Min(now - s.attest[Key(p, m)].lastCredited, MAX_CREDITED_INTERVAL) && elapsed > 0.0
    ensures Adds(GbSecondsFor(s.books.contributions, p, m),
                 GbSecondsFor(Attest(cfg, s, p, m, reported, now).value.books.contributions, p, m), gb, elapsed)
  {
    MemberPush(s.books.contributions, Contributed(p, m, gb, elapsed), p, m);
  }

  // ---- silence is not paid ----

  predicate Short(log: seq<Settlement>) {
    forall i :: 0 <= i < |log| ==> log[i].upTo - log[i].start <= MAX_CREDITED_INTERVAL
  }

  lemma {:induction false} EntriesShort(s: Reg, timeout: real, p: PeerId, shares: seq<Share>, now: real, elapsed: real, owed: bool)
    requires elapsed <= MAX_CREDITED_INTERVAL
    ensures Short(Entries(s, timeout, p, shares, now, elapsed, owed))
  {
    if shares != [] {
      EntriesShort(s, timeout, p, shares[..|shares| - 1], now, elapsed, owed);
    }
  }

  lemma BeatStaysShort(cfg: Config, s: Reg, p: PeerId, now: real, held: real, healthy: bool, detail: Detail)
    requires WellFormed(cfg) && p in cfg.peers && Short(s.log)
    ensures Short(RecordBeat(cfg, s, p, now, held, healthy, detail).log)
  {
    BeatIs(cfg, s, p, now, held, healthy, detail);
    if p in s.states && now > s.states[p].lastCredited {
      var st := s.states[p];
      EntriesShort(s, cfg.timeout, p, CreditSplit(cfg.peers[p], st.residentGb), now,
                   Min(now - st.lastCredited, MAX_CREDITED_INTERVAL), Owed(st, now));
    }
  }

  lemma AttestStaysShort(cfg: Config, s: Reg, p: PeerId, m: MemberId, gb: real, now: real)
    requires Short(s.log)
    ensures Attest(cfg, s, p, m, gb, now).Ok? ==> Short(Attest(cfg, s, p, m, gb, now).value.log)
  {
  }

  /** No more than five minutes are ever paid for at once, however long the silence before. */
  lemma {:induction false} SilenceIsNotPaid(cfg: Config, es: seq<Event>)
    requires WellFormed(cfg)
    ensures Short(Run(cfg, es).log)
  {
    if es != [] {
      var s, e := Run(cfg, es[..|es| - 1]), es[|es| - 1];
      SilenceIsNotPaid(cfg, es[..|es| - 1]);
      match e {
        case Beat(p, now, later, gb, healthy, detail) =>
          if p in cfg.peers {
            var held := Capped(cfg.peers[p], gb);
            BeatStaysShort(cfg, s, p, now, held, healthy, detail);
            AttestStaysShort(cfg, RecordBeat(cfg, s, p, now, held, healthy, detail), p, cfg.peers[p].owner, held, later);
          }
        case Attests(p, m, now, gb) => AttestStaysShort(cfg, s, p, m, gb, now);
        case _ =>
      }
    }
  }
}
