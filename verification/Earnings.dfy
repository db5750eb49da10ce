/** What the owner of a peer of its own is credited over a whole run, to the GB-second. */
module Earnings {
  import opened Wrappers
  import opened Peers
  import opened Ledgers
  import opened Registry
  import opened Crediting
  import opened Standing
  import opened Payment
  import opened Scheduler
  import opened Coordinator
  import opened CoordinatorLaws
  import opened Words

  /**
   Crediting made an attestation for `m`, heard at zero, and the clock has not run for one timeout
   since its zero: the registry takes it for a recent one.
   */
  predicate Mistaken(cfg: Config, r: Reg, p: PeerId, m: MemberId, now: real) {
    Key(p, m) in r.attest && now <= cfg.timeout
  }

  /** What an owner's beat at `now` is worth: what the last one held, for the time since, at most five minutes. */
  function Pay(p: Peer, w: Word, now: real): real {
    if w.healthy && w.strikes <= 1 && now > w.at
    then HeldOf(p, w.gb) * if now - w.at < 300.0 then now - w.at else 300.0
    else 0.0
  }

  function PayAt(cfg: Config, qs: seq<Request>, p: PeerId, q: Request): real {
    var word := LastWord(cfg, qs, p);
    if OwnersBeat(cfg, q, p) && word.Some? && !Mistaken(cfg, Serve(cfg, qs).sched.reg, p, cfg.peers[p].owner, q.now)
    then Pay(cfg.peers[p], word.value, q.now) else 0.0
  }

  /** All that the owner of `p` has coming, request by request. */
  function Earned(cfg: Config, qs: seq<Request>, p: PeerId): real {
    if qs == [] then 0.0 else Earned(cfg, qs[..|qs| - 1], p) + PayAt(cfg, qs[..|qs| - 1], p, qs[|qs| - 1])
  }

  // ---- rows of other peers ----

  lemma {:induction false} OthersSettled(s: Reg, timeout: real, p: PeerId, shares: seq<Share>, now: real, elapsed: real, owed: bool, other: PeerId)
    requires other != p
    ensures GbSecondsForPeer(SettleShares(s, timeout, p, shares, now, elapsed, owed).books.contributions, other) ==
            GbSecondsForPeer(s.books.contributions, other)
  {
    if shares != [] {
      var n := |shares| - 1;
      var mid := SettleShares(s, timeout, p, shares[..n], now, elapsed, owed);
      OthersSettled(s, timeout, p, shares[..n], now, elapsed, owed, other);
      OtherRow(mid.books.contributions, Contributed(p, shares[n].member, shares[n].gb, elapsed), other);
    }
  }

  lemma OtherRow(rows: seq<Contributed>, r: Contributed, p: PeerId)
    requires r.peer != p
    ensures GbSecondsForPeer(rows + [r], p) == GbSecondsForPeer(rows, p)
  {
    assert (rows + [r])[..|rows|] == rows;
  }

  lemma OthersAttested(cfg: Config, s: Reg, p: PeerId, m: MemberId, gb: real, now: real, other: PeerId)
    requires other != p
    ensures var r := Attest(cfg, s, p, m, gb, now);
            r.Ok? ==> GbSecondsForPeer(r.value.books.contributions, other) == GbSecondsForPeer(s.books.contributions, other)
  {
    var r := Attest(cfg, s, p, m, gb, now);
    if r.Ok? && r.value.books != s.books {
      var n := |s.books.contributions|;
      OtherRow(s.books.contributions, r.value.books.contributions[n], other);
    }
  }

  lemma OthersBeaten(cfg: Config, s: Reg, p: PeerId, now: real, held: real, healthy: bool, detail: Detail, other: PeerId)
    requires other != p && p in cfg.peers
    ensures GbSecondsForPeer(RecordBeat(cfg, s, p, now, held, healthy, detail).books.contributions, other) ==
            GbSecondsForPeer(s.books.contributions, other)
  {
    if p in s.states {
      var st := s.states[p];
      OthersSettled(s, cfg.timeout, p, CreditSplit(cfg.peers[p], st.residentGb), now,
                    Min(now - st.lastCredited, MAX_CREDITED_INTERVAL), Owed(st, now), other);
    }
  }

  lemma OthersHeard(cfg: Config, c: Coord, q: Request, p: PeerId)
    requires q.HeartbeatFrom? && q.peer != p
    ensures GbSecondsForPeer(Handle(cfg, c, q).sched.reg.books.contributions, p) == GbSecondsForPeer(c.sched.reg.books.contributions, p)
  {
    RegistryRequestIs(cfg, c, q);
    var s := c.sched.reg;
    if OwnersBeat(cfg, q, q.peer) {
      var held := HeldOf(cfg.peers[q.peer], q.gb);
      OthersBeaten(cfg, s, q.peer, q.now, held, q.healthy, q.detail, p);
      OthersAttested(cfg, RecordBeat(cfg, s, q.peer, q.now, held, q.healthy, q.detail), q.peer, q.signer, held, q.later, p);
    } else {
      OthersAttested(cfg, s, q.peer, q.signer, q.gb, q.now, p);
    }
  }

  // ---- the owner's own beats ----

  lemma SoleShare(cfg: Config, s: Reg, p: PeerId, now: real, elapsed: real, owed: bool)
    requires p in cfg.peers && p in s.states && cfg.peers[p].contributors == []
    ensures var gb := s.states[p].residentGb;
            SettleShares(s, cfg.timeout, p, CreditSplit(cfg.peers[p], gb), now, elapsed, owed) ==
            SettleShare(s, cfg.timeout, Key(p, cfg.peers[p].owner), gb, now, elapsed, owed)
  {
    var one := CreditSplit(cfg.peers[p], s.states[p].residentGb);
    assert one[..0] == [];
    assert SettleShares(s, cfg.timeout, p, [], now, elapsed, owed) == s;
  }

  /** One beat of an owner alone on its peer adds one row, or none. */
  lemma SoleBeat(cfg: Config, s: Reg, p: PeerId, now: real, held: real, healthy: bool, detail: Detail)
    requires p in cfg.peers && cfg.peers[p].contributors == []
    requires Key(p, cfg.peers[p].owner) in s.attest ==> s.attest[Key(p, cfg.peers[p].owner)].lastSeen == 0.0
    ensures var rows, rows' := s.books.contributions, RecordBeat(cfg, s, p, now, held, healthy, detail).books.contributions;
            rows' == if p in s.states && Owed(s.states[p], now) && !Mistaken(cfg, s, p, cfg.peers[p].owner, now)
                     then rows + [Contributed(p, cfg.peers[p].owner, s.states[p].residentGb, Min(now - s.states[p].lastCredited, MAX_CREDITED_INTERVAL))]
                     else rows
  {
    if p in s.states && now > s.states[p].lastCredited {
      SoleShare(cfg, s, p, now, Min(now - s.states[p].lastCredited, MAX_CREDITED_INTERVAL), Owed(s.states[p], now));
    }
  }

  lemma NothingTimes(x: real)
    ensures 0.0 * x == 0.0
  {
  }

  lemma RowPays(rows: seq<Contributed>, p: PeerId, owner: MemberId, gb: real, elapsed: real)
    ensures GbSecondsForPeer(rows + [Contributed(p, owner, gb, elapsed)], p) == GbSecondsForPeer(rows, p) + gb * elapsed
  {
    assert (rows + [Contributed(p, owner, gb, elapsed)])[..|rows|] == rows;
  }

  lemma {:induction false} NobodySpeaks(cfg: Config, qs: seq<Request>, p: PeerId, m: MemberId)
    requires p in cfg.peers && cfg.peers[p].contributors == []
    ensures LastSaid(cfg, qs, p, m) == None
  {
    if qs != [] { NobodySpeaks(cfg, qs[..|qs| - 1], p, m); }
  }

  /** What the row of a beat, if there is one, is worth by the owner's word. */
  lemma WordPays(cfg: Config, s: Reg, p: PeerId, word: Option<Word>, now: real)
    requires p in cfg.peers && Keeps(cfg, s.states, p, word)
    ensures p in s.states && Owed(s.states[p], now) ==> word.Some?
    ensures word.Some? ==>
              Pay(cfg.peers[p], word.value, now) ==
              if Owed(s.states[p], now) then s.states[p].residentGb * Min(now - s.states[p].lastCredited, MAX_CREDITED_INTERVAL) else 0.0
  {
    if word.Some? && !Owed(s.states[p], now) {
      NothingTimes(if now - word.value.at < 300.0 then now - word.value.at else 300.0);
    }
  }

  lemma SoleBeatRows(cfg: Config, c: Coord, q: Request, p: PeerId)
    requires OwnersBeat(cfg, q, p) && cfg.peers[p].contributors == []
    ensures Handle(cfg, c, q).sched.reg.books ==
            RecordBeat(cfg, c.sched.reg, p, q.now, HeldOf(cfg.peers[p], q.gb), q.healthy, q.detail).books
  {
    RegistryRequestIs(cfg, c, q);
  }

  /** What the owner's beat adds to the table is what it is worth. */
  lemma BeatEarns(cfg: Config, c: Coord, q: Request, p: PeerId, word: Option<Word>)
    requires OwnersBeat(cfg, q, p) && cfg.peers[p].contributors == [] && Keeps(cfg, c.sched.reg.states, p, word)
    requires var k := Key(p, q.signer); k in c.sched.reg.attest ==> c.sched.reg.attest[k].lastSeen == 0.0
    ensures GbSecondsForPeer(Handle(cfg, c, q).sched.reg.books.contributions, p) ==
            GbSecondsForPeer(c.sched.reg.books.contributions, p) +
            if word.Some? && !Mistaken(cfg, c.sched.reg, p, q.signer, q.now) then Pay(cfg.peers[p], word.value, q.now) else 0.0
  {
    var s := c.sched.reg;
    SoleBeatRows(cfg, c, q, p);
    SoleBeat(cfg, s, p, q.now, HeldOf(cfg.peers[p], q.gb), q.healthy, q.detail);
    WordPays(cfg, s, p, word, q.now);
    if p in s.states && Owed(s.states[p], q.now) && !Mistaken(cfg, s, p, q.signer, q.now) {
      RowPays(s.books.contributions, p, q.signer, s.states[p].residentGb, Min(q.now - s.states[p].lastCredited, MAX_CREDITED_INTERVAL));
    }
  }

  lemma RequestEarns(cfg: Config, qs: seq<Request>, p: PeerId, q: Request)
    requires WellFormed(cfg) && p in cfg.peers && cfg.peers[p].contributors == []
    ensures var c := Serve(cfg, qs);
            GbSecondsForPeer(Handle(cfg, c, q).sched.reg.books.contributions, p) ==
            GbSecondsForPeer(c.sched.reg.books.contributions, p) + PayAt(cfg, qs, p, q)
  {
    var c := Serve(cfg, qs);
    if OwnersBeat(cfg, q, p) {
      WordIsKept(cfg, qs, p);
      NobodySpeaks(cfg, qs, p, q.signer);
      SaidIsKept(cfg, qs, p, q.signer, 0.0);
      BeatEarns(cfg, c, q, p, LastWord(cfg, qs, p));
    } else if q.HeartbeatFrom? {
      if q.peer == p { OnlyOwnersRoute(cfg, c, q); } else { OthersHeard(cfg, c, q, p); }
    } else if !q.ReceiptArrives? && !q.RelayBreaks? {
      OtherRequestsSlotsOnly(cfg, c, q);
    }
  }

  /**
   Over any run, whatever else the coordinator does: a peer with no contributors has been credited, in
   all, exactly what its owner reported (cut to the capacity, if one is declared) times the time to the
   owner's next beat, at most five minutes each, for each time the peer was well throughout.
   */
  lemma {:induction false} EarnsExactly(cfg: Config, qs: seq<Request>, p: PeerId)
    requires WellFormed(cfg) && p in cfg.peers && cfg.peers[p].contributors == []
    ensures GbSecondsForPeer(Serve(cfg, qs).sched.reg.books.contributions, p) == Earned(cfg, qs, p)
  {
    if qs != [] {
      EarnsExactly(cfg, qs[..|qs| - 1], p);
      RequestEarns(cfg, qs[..|qs| - 1], p, qs[|qs| - 1]);
    }
  }

  /** Once the clock has run for one timeout, no attestation is mistaken for a recent one. */
  lemma NeverMistaken(cfg: Config, qs: seq<Request>, t0: real, p: PeerId, m: MemberId, q: Request)
    requires t0 > cfg.timeout && Timely(t0, qs) && q.HeartbeatFrom? && InOrder(Now(t0, qs), q)
    ensures !Mistaken(cfg, Serve(cfg, qs).sched.reg, p, m, q.now)
  {
    TimeMoves(qs, t0);
  }

  lemma {:induction false} TimeMoves(qs: seq<Request>, t0: real)
    requires Timely(t0, qs)
    ensures Now(t0, qs) >= t0
  {
    if qs != [] { TimeMoves(qs[..|qs| - 1], t0); }
  }

  // ---- a contributor's own words ----

  /** What a contributor's word at `now` is worth, settled up to `lastCredited`: what it last said it held. */
  function WordIsWorth(said: Said, share: real, lastCredited: real, now: real): real {
    if now > lastCredited
    then (if said.gb < 0.0 then 0.0 else if said.gb > share then share else said.gb) *
         if now - lastCredited < 300.0 then now - lastCredited else 300.0
    else 0.0
  }

  /** The row of an attestation, if there is one. */
  lemma AttestAdds(cfg: Config, s: Reg, p: PeerId, m: MemberId, gb: real, now: real)
    requires p in cfg.peers && Contributes(cfg.peers[p], m)
    ensures Attest(cfg, s, p, m, gb, now).Ok?
    ensures Attest(cfg, s, p, m, gb, now).value.books.contributions == WithRow(s, p, m, now)
  {
  }

  /** A row for what was held is worth what was said; where nothing was held, nothing was due. */
  lemma WorthIs(rows: seq<Contributed>, p: PeerId, m: MemberId, said: Said, share: real, lastCredited: real, now: real, held: real)
    requires held == if said.gb < 0.0 then 0.0 else if said.gb > share then share else said.gb
    ensures now > lastCredited ==>
              GbSecondsFor(rows + [Contributed(p, m, held, Min(now - lastCredited, MAX_CREDITED_INTERVAL))], p, m) ==
              GbSecondsFor(rows, p, m) + WordIsWorth(said, share, lastCredited, now)
    ensures now <= lastCredited || held == 0.0 ==> WordIsWorth(said, share, lastCredited, now) == 0.0
  {
    NothingTimes(if now - lastCredited < 300.0 then now - lastCredited else 300.0);
    GbSecondsPush(rows, Contributed(p, m, held, Min(now - lastCredited, MAX_CREDITED_INTERVAL)), p, m);
  }

  /** The table with the row of an attestation at `now`, if it has one. */
  function WithRow(s: Reg, p: PeerId, m: MemberId, now: real): seq<Contributed> {
    var k, rows := Key(p, m), s.books.contributions;
    if k in s.attest && now > s.attest[k].lastCredited && s.attest[k].residentGb > 0.0 && p in s.states && s.states[p].healthy
    then rows + [Contributed(p, m, s.attest[k].residentGb, Min(now - s.attest[k].lastCredited, MAX_CREDITED_INTERVAL))]
    else rows
  }

  lemma RowIsWorth(s: Reg, p: PeerId, m: MemberId, now: real, share: real, said: Option<Said>)
    requires Recalls(s.attest, Key(p, m), share, said) && share >= 0.0
    ensures GbSecondsFor(WithRow(s, p, m, now), p, m) ==
            GbSecondsFor(s.books.contributions, p, m) +
            if said.Some? && p in s.states && s.states[p].healthy
            then WordIsWorth(said.value, share, s.attest[Key(p, m)].lastCredited, now) else 0.0
  {
    if said.Some? {
      var a := s.attest[Key(p, m)];
      WorthIs(s.books.contributions, p, m, said.value, share, a.lastCredited, now, a.residentGb);
    }
  }

  lemma HeardRows(cfg: Config, c: Coord, q: Request, p: PeerId, m: MemberId)
    requires SpeaksFor(cfg, q, p, m) && m != cfg.peers[p].owner
    ensures Contributes(cfg.peers[p], m) && Attest(cfg, c.sched.reg, p, m, q.gb, q.now).Ok?
    ensures Handle(cfg, c, q).sched.reg.books == Attest(cfg, c.sched.reg, p, m, q.gb, q.now).value.books
  {
    RegistryRequestIs(cfg, c, q);
  }

  /**
   In any run, a contributor's word adds to its total exactly what it said the time before (cut to its
   share) times the time since it was last settled, at most five minutes, if the peer is well, and
   nothing the first time.
   */
  lemma WordEarnsExactly(cfg: Config, qs: seq<Request>, p: PeerId, m: MemberId, share: real, q: Request)
    requires WellFormed(cfg) && p in cfg.peers && HasShare(cfg.peers[p], m, share)
    requires SpeaksFor(cfg, q, p, m) && m != cfg.peers[p].owner
    ensures var c, said, word := Serve(cfg, qs), LastSaid(cfg, qs, p, m), LastWord(cfg, qs, p);
            && (said.Some? ==> Key(p, m) in c.sched.reg.attest)
            && GbSecondsFor(Handle(cfg, c, q).sched.reg.books.contributions, p, m) ==
               GbSecondsFor(c.sched.reg.books.contributions, p, m) +
               if said.Some? && word.Some? && word.value.healthy && word.value.strikes <= 1
               then WordIsWorth(said.value, share, c.sched.reg.attest[Key(p, m)].lastCredited, q.now) else 0.0
  {
    var c := Serve(cfg, qs);
    HeardRows(cfg, c, q, p, m);
    WordIsKept(cfg, qs, p);
    SaidIsKept(cfg, qs, p, m, share);
    ShareIsDeclared(cfg.peers[p], m, share);
    AttestAdds(cfg, c.sched.reg, p, m, q.gb, q.now);
    RowIsWorth(c.sched.reg, p, m, q.now, share, LastSaid(cfg, qs, p, m));
  }

  // ---- a contributor's part of an owner's beat ----

  lemma SharesLeaveOut(s: Reg, timeout: real, p: PeerId, shares: seq<Share>, now: real, elapsed: real, m: MemberId)
    requires !Named(shares, m)
    ensures GbSecondsFor(SettleShares(s, timeout, p, shares, now, elapsed, true).books.contributions, p, m) ==
            GbSecondsFor(s.books.contributions, p, m)
  {
    if shares != [] {
      var n := |shares| - 1;
      NamedPush(shares, m);
      SharesLeaveOut(s, timeout, p, shares[..n], now, elapsed, m);
      var mid := SettleShares(s, timeout, p, shares[..n], now, elapsed, true);
      GbSecondsPush(mid.books.contributions, Contributed(p, shares[n].member, shares[n].gb, elapsed), p, m);
    }
  }

  /** Of a beat that pays, each member gets its own share for the time, unless it is attesting. */
  lemma {:induction false} SharePays(s: Reg, timeout: real, p: PeerId, shares: seq<Share>, j: nat, now: real, elapsed: real)
    requires DistinctShares(shares) && j < |shares| && elapsed > 0.0 && forall i :: 0 <= i < |shares| ==> shares[i].gb >= 0.0
    ensures var m := shares[j].member;
            Adds(GbSecondsFor(s.books.contributions, p, m),
                 GbSecondsFor(SettleShares(s, timeout, p, shares, now, elapsed, true).books.contributions, p, m),
                 if Attesting(s, timeout, Key(p, m), now) then 0.0 else shares[j].gb, elapsed)
  {
    var n, m := |shares| - 1, shares[j].member;
    var front, last := shares[..n], shares[n];
    var mid := SettleShares(s, timeout, p, front, now, elapsed, true);
    var row := Contributed(p, last.member, last.gb, elapsed);
    if j < n {
      SharePays(s, timeout, p, front, j, now, elapsed);
      GbSecondsPush(mid.books.contributions, row, p, m);
    } else {
      assert !Named(front, m);
      SharesLeaveOut(s, timeout, p, front, now, elapsed, m);
      SettleSharesMarks(s, timeout, p, front, now, elapsed, true, Key(p, m));
      if Attesting(s, timeout, Key(p, m), now) {
        AddsNothing(GbSecondsFor(s.books.contributions, p, m), elapsed);
      } else {
        SettleSharePays(mid, timeout, p, last, now, elapsed);
        MemberPush(mid.books.contributions, row, p, m);
      }
    }
  }

  /** The part of what is held that falls to one contributor: in proportion to the roster's shares. */
  predicate Portion(p: Peer, i: nat, held: real, part: real)
    requires i < |p.contributors|
  {
    part * SumGb(p.contributors) == held * p.contributors[i].gb
  }

  lemma SplitIsProportional(p: Peer, held: real, i: nat, part: real)
    requires WellFormedPeer(p) && i < |p.contributors| && Portion(p, i, held, part)
    ensures |CreditSplit(p, held)| == |p.contributors|
    ensures CreditSplit(p, held)[i] == Share(p.contributors[i].member, part)
  {
    SumGbPositive(p.contributors);
    SplitMembers(p, held);
    SamePart(CreditSplit(p, held)[i].gb, part, held * p.contributors[i].gb, SumGb(p.contributors));
  }

  lemma SamePart(a: real, b: real, x: real, total: real)
    requires total > 0.0 && a == x / total && b * total == x
    ensures a == b
  {
  }

  lemma BeatSharePays(cfg: Config, s: Reg, p: PeerId, i: nat, now: real, held: real, healthy: bool, detail: Detail, part: real, elapsed: real)
    requires WellFormed(cfg) && p in cfg.peers && i < |cfg.peers[p].contributors|
    requires p in s.states && Owed(s.states[p], now) && Portion(cfg.peers[p], i, s.states[p].residentGb, part)
    requires elapsed == Min(now - s.states[p].lastCredited, MAX_CREDITED_INTERVAL)
    ensures var m := cfg.peers[p].contributors[i].member;
            Adds(GbSecondsFor(s.books.contributions, p, m),
                 GbSecondsFor(RecordBeat(cfg, s, p, now, held, healthy, detail).books.contributions, p, m),
                 if Attesting(s, cfg.timeout, Key(p, m), now) then 0.0 else part, elapsed)
  {
    var shares := CreditSplit(cfg.peers[p], s.states[p].residentGb);
    SplitIsProportional(cfg.peers[p], s.states[p].residentGb, i, part);
    SplitMembers(cfg.peers[p], s.states[p].residentGb);
    SharePays(s, cfg.timeout, p, shares, i, now, elapsed);
  }

  /** `m` spoke for itself at most the timeout ago, or is taken to have. */
  predicate Recent(cfg: Config, r: Reg, p: PeerId, m: MemberId, said: Option<Said>, now: real) {
    if said.Some? then now - said.value.at <= cfg.timeout else Mistaken(cfg, r, p, m, now)
  }

  lemma OwnersBeatRows(cfg: Config, c: Coord, q: Request, p: PeerId, m: MemberId)
    requires OwnersBeat(cfg, q, p) && m != q.signer
    ensures GbSecondsFor(Handle(cfg, c, q).sched.reg.books.contributions, p, m) ==
            GbSecondsFor(RecordBeat(cfg, c.sched.reg, p, q.now, HeldOf(cfg.peers[p], q.gb), q.healthy, q.detail).books.contributions, p, m)
  {
    RegistryRequestIs(cfg, c, q);
    var held := HeldOf(cfg.peers[p], q.gb);
    var mid := RecordBeat(cfg, c.sched.reg, p, q.now, held, q.healthy, q.detail);
    if Contributes(cfg.peers[p], q.signer) {
      AttestAdds(cfg, mid, p, q.signer, held, q.later);
      if Key(p, q.signer) in mid.attest {
        var a := mid.attest[Key(p, q.signer)];
        GbSecondsPush(mid.books.contributions, Contributed(p, q.signer, a.residentGb, Min(q.later - a.lastCredited, MAX_CREDITED_INTERVAL)), p, m);
      }
    }
  }

  /**
   In any run, the owner's beat adds to the total of each other contributor exactly its part of what the
   owner reported the time before, for the time since, at most five minutes, if the peer was well
   throughout and the contributor has not spoken for itself within the timeout.
   */
  lemma PartEarnsExactly(cfg: Config, qs: seq<Request>, p: PeerId, i: nat, q: Request, part: real, elapsed: real)
    requires WellFormed(cfg) && OwnersBeat(cfg, q, p) && i < |cfg.peers[p].contributors|
    requires cfg.peers[p].contributors[i].member != q.signer
    requires var word := LastWord(cfg, qs, p);
             && word.Some? && word.value.healthy && word.value.strikes <= 1 && q.now > word.value.at
             && HeldOf(cfg.peers[p], word.value.gb) > 0.0 && Portion(cfg.peers[p], i, HeldOf(cfg.peers[p], word.value.gb), part)
             && elapsed == if q.now - word.value.at < 300.0 then q.now - word.value.at else 300.0
    ensures var c, m := Serve(cfg, qs), cfg.peers[p].contributors[i].member;
            Adds(GbSecondsFor(c.sched.reg.books.contributions, p, m),
                 GbSecondsFor(Handle(cfg, c, q).sched.reg.books.contributions, p, m),
                 if Recent(cfg, c.sched.reg, p, m, LastSaid(cfg, qs, p, m), q.now) then 0.0 else part, elapsed)
  {
    var c, share := Serve(cfg, qs), cfg.peers[p].contributors[i];
    WordIsKept(cfg, qs, p);
    SaidIsKept(cfg, qs, p, share.member, share.gb);
    OwnersBeatRows(cfg, c, q, p, share.member);
    BeatSharePays(cfg, c.sched.reg, p, i, q.now, HeldOf(cfg.peers[p], q.gb), q.healthy, q.detail, part, elapsed);
  }

  // ---- a run in which an attestation is mistaken for a recent one ----

  predicate AlonePeer(p: Peer) {
    p.id == "p" && p.owner == "bob" && p.capacityGb == 2.0 && p.maxConcurrent == 1 && p.contributors == []
  }

  function AloneConfig(p: Peer): Config {
    Config(map["p" := p], ["p"], 90.0, 300.0, 32)
  }

  function EarlyBeats(d: Detail): seq<Request> {
    [HeartbeatFrom("bob", "p", 10.0, 10.0, 2.0, true, d), HeartbeatFrom("bob", "p", 30.0, 30.0, 2.0, true, d),
     HeartbeatFrom("bob", "p", 50.0, 50.0, 2.0, true, d)]
  }

  /** The registry after the first beat; after a later one the attestation that crediting made is there too. */
  function BeatOnce(d: Detail): Reg {
    Reg(map["p" := PeerState(10.0, 2.0, 0, true, 0, d, 10.0)], map[], Books([], []), [])
  }

  function BeatAgain(d: Detail, now: real): Reg {
    Reg(map["p" := PeerState(now, 2.0, 0, true, 0, d, now)], map[Key("p", "bob") := Attestation(0.0, 0.0, 30.0)],
        Books([Contributed("p", "bob", 2.0, 20.0)], []), [Settlement(Key("p", "bob"), 10.0, 30.0, 2.0, HeadsWord)])
  }

  lemma EarlyBeat(p: Peer, d: Detail, s: Reg, now: real)
    requires AlonePeer(p)
    ensures Handle(AloneConfig(p), BOOT.(sched := BOOT.sched.(reg := s)), HeartbeatFrom("bob", "p", now, now, 2.0, true, d)) ==
            BOOT.(sched := BOOT.sched.(reg := RecordBeat(AloneConfig(p), s, "p", now, 2.0, true, d)))
  {
  }

  lemma EarlyStates(p: Peer, d: Detail)
    requires AlonePeer(p)
    ensures RecordBeat(AloneConfig(p), EMPTY, "p", 10.0, 2.0, true, d) == BeatOnce(d)
    ensures RecordBeat(AloneConfig(p), BeatOnce(d), "p", 30.0, 2.0, true, d) == BeatAgain(d, 30.0)
    ensures RecordBeat(AloneConfig(p), BeatAgain(d, 30.0), "p", 50.0, 2.0, true, d) == BeatAgain(d, 50.0)
  {
    SoleShare(AloneConfig(p), BeatOnce(d), "p", 30.0, 20.0, true);
    SoleShare(AloneConfig(p), BeatAgain(d, 30.0), "p", 50.0, 20.0, true);
  }

  lemma EarlyTimely(d: Detail)
    ensures Timely(0.0, EarlyBeats(d))
  {
    var qs := EarlyBeats(d);
    assert qs[..0] == [] && qs[..3] == qs;
    Coordinator.NextReading(0.0, qs, 0);
    Coordinator.NextReading(0.0, qs, 1);
    Coordinator.NextReading(0.0, qs, 2);
  }

  /**
   With beats at 10, 30 and 50 seconds on a clock that has just started, the last twenty seconds are
   paid to nobody: the attestation made by crediting the first twenty was never heard, dates from zero
   and passes for a recent one.
   */
  lemma EarlyClockCosts(p: Peer, d: Detail)
    requires AlonePeer(p)
    ensures WellFormed(AloneConfig(p)) && Timely(0.0, EarlyBeats(d))
    ensures var r := Serve(AloneConfig(p), EarlyBeats(d)).sched.reg;
            && r.books.contributions == [Contributed("p", "bob", 2.0, 20.0)]
            && "p" in r.states && r.states["p"].lastCredited == 50.0
  {
    var cfg, qs := AloneConfig(p), EarlyBeats(d);
    EarlyTimely(d);
    assert qs[..0] == [] && qs[..3] == qs;
    NextRequest(cfg, qs, 0);
    NextRequest(cfg, qs, 1);
    NextRequest(cfg, qs, 2);
    EarlyStates(p, d);
    EarlyBeat(p, d, EMPTY, 10.0);
    EarlyBeat(p, d, BeatOnce(d), 30.0);
    EarlyBeat(p, d, BeatAgain(d, 30.0), 50.0);
  }
}
