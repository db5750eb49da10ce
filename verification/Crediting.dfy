/** The two crediting paths. Over whole runs: what their clocks keep, and exactly when they partition time. */
module Crediting {
  import opened Wrappers
  import opened Peers
  import opened Ledgers
  import opened Registry

  // ---- what one owner's beat settles ----

  /** The entries a beat adds: one for each share whose member is not attesting, in roster order. */
  function Entries(s: Reg, timeout: real, p: PeerId, shares: seq<Share>, now: real, elapsed: real, owed: bool): seq<Settlement> {
    if shares == [] then []
    else
      var n := |shares| - 1;
      var k := Key(p, shares[n].member);
      Entries(s, timeout, p, shares[..n], now, elapsed, owed) +
      if Attesting(s, timeout, k, now) then []
      else [Settlement(k, now - elapsed, now, if owed then shares[n].gb else 0.0, HeadsWord)]
  }

  predicate DistinctShares(shares: seq<Share>) {
    forall i, j :: 0 <= i < j < |shares| ==> shares[i].member != shares[j].member
  }

  predicate Named(shares: seq<Share>, m: MemberId) {
    exists i :: 0 <= i < |shares| && shares[i].member == m
  }

  predicate Settles(s: Reg, timeout: real, p: PeerId, shares: seq<Share>, now: real, k: Key) {
    k.peer == p && Named(shares, k.member) && !Attesting(s, timeout, k, now)
  }

  lemma NamedPush(shares: seq<Share>, m: MemberId)
    requires shares != []
    ensures Named(shares, m) <==> Named(shares[..|shares| - 1], m) || m == shares[|shares| - 1].member
  {
    var n := |shares| - 1;
    if Named(shares[..n], m) {
      var i :| 0 <= i < n && shares[..n][i].member == m;
      assert shares[i].member == m;
    }
    if Named(shares, m) && m != shares[n].member {
      var i :| 0 <= i < |shares| && shares[i].member == m;
      assert shares[..n][i].member == m;
    }
  }

  ghost predicate MarkedAt(before: map<Key, Attestation>, after: map<Key, Attestation>, k: Key, marked: bool, now: real) {
    && (k in after <==> k in before || marked)
    && (k in after ==>
          after[k] == if !marked then before[k]
                      else if k in before then before[k].(lastCredited := now)
                      else Attestation(0.0, 0.0, now))
  }

  /** Settling shares one after another marks the non-attesting members and no one else. */
  lemma {:induction false} SettleSharesMarks(s: Reg, timeout: real, p: PeerId, shares: seq<Share>, now: real, elapsed: real, owed: bool, k: Key)
    requires DistinctShares(shares)
    ensures MarkedAt(s.attest, SettleShares(s, timeout, p, shares, now, elapsed, owed).attest, k, Settles(s, timeout, p, shares, now, k), now)
  {
    if shares != [] {
      var n := |shares| - 1;
      var kn := Key(p, shares[n].member);
      SettleSharesMarks(s, timeout, p, shares[..n], now, elapsed, owed, k);
      SettleSharesMarks(s, timeout, p, shares[..n], now, elapsed, owed, kn);
      assert !Named(shares[..n], shares[n].member);
      NamedPush(shares, k.member);
    }
  }

  /** ... and logs the entries, touching nothing else. */
  lemma {:induction false} SettleSharesIs(s: Reg, timeout: real, p: PeerId, shares: seq<Share>, now: real, elapsed: real, owed: bool)
    requires DistinctShares(shares)
    ensures var s' := SettleShares(s, timeout, p, shares, now, elapsed, owed);
            && s'.states == s.states
            && s'.log == s.log + Entries(s, timeout, p, shares, now, elapsed, owed)
            && s'.books.consumptions == s.books.consumptions
            && forall k :: MarkedAt(s.attest, s'.attest, k, Settles(s, timeout, p, shares, now, k), now)
  {
    if shares != [] {
      var n := |shares| - 1;
      SettleSharesIs(s, timeout, p, shares[..n], now, elapsed, owed);
      SettleSharesMarks(s, timeout, p, shares[..n], now, elapsed, owed, Key(p, shares[n].member));
      assert !Named(shares[..n], shares[n].member);
    }
    forall k
      ensures MarkedAt(s.attest, SettleShares(s, timeout, p, shares, now, elapsed, owed).attest, k, Settles(s, timeout, p, shares, now, k), now)
    {
      SettleSharesMarks(s, timeout, p, shares, now, elapsed, owed, k);
    }
  }

  predicate PaysShare(e: Settlement, share: Share, owed: bool) {
    e.key.member == share.member && e.gb == if owed then share.gb else 0.0
  }

  predicate PaysOne(e: Settlement, shares: seq<Share>, owed: bool) {
    exists j :: 0 <= j < |shares| && PaysShare(e, shares[j], owed)
  }

  /** What the entry for a beat at `now` looks like. */
  predicate EntryOf(e: Settlement, s: Reg, timeout: real, p: PeerId, shares: seq<Share>, now: real, elapsed: real, owed: bool) {
    && e.start == now - elapsed && e.upTo == now && e.path == HeadsWord && e.key.peer == p
    && !Attesting(s, timeout, e.key, now)
    && PaysOne(e, shares, owed)
  }

  predicate DistinctKeys(es: seq<Settlement>) {
    forall i, j :: 0 <= i < j < |es| ==> es[i].key != es[j].key
  }

  /** Each entry is for one of the shares and covers exactly the beat's interval; no key has two. */
  lemma {:induction false} EntriesSound(s: Reg, timeout: real, p: PeerId, shares: seq<Share>, now: real, elapsed: real, owed: bool)
    requires DistinctShares(shares)
    ensures forall e :: e in Entries(s, timeout, p, shares, now, elapsed, owed) ==>
              EntryOf(e, s, timeout, p, shares, now, elapsed, owed)
    ensures DistinctKeys(Entries(s, timeout, p, shares, now, elapsed, owed))
  {
    if shares != [] {
      var n := |shares| - 1;
      var front, last := shares[..n], shares[n];
      EntriesSound(s, timeout, p, front, now, elapsed, owed);
      var es0 := Entries(s, timeout, p, front, now, elapsed, owed);
      forall e | e in es0
        ensures e.key.member != last.member && PaysOne(e, shares, owed)
      {
        assert PaysOne(e, front, owed);
        var j :| 0 <= j < |front| && PaysShare(e, front[j], owed);
        assert PaysShare(e, shares[j], owed);
      }
      var e := Settlement(Key(p, last.member), now - elapsed, now, if owed then last.gb else 0.0, HeadsWord);
      assert PaysShare(e, shares[n], owed);
    }
  }

  /** Every share whose member is not attesting gets an entry. */
  lemma {:induction false} EntriesComplete(s: Reg, timeout: real, p: PeerId, shares: seq<Share>, now: real, elapsed: real, owed: bool, j: nat)
    requires j < |shares| && !Attesting(s, timeout, Key(p, shares[j].member), now)
    ensures Settlement(Key(p, shares[j].member), now - elapsed, now, if owed then shares[j].gb else 0.0, HeadsWord)
            in Entries(s, timeout, p, shares, now, elapsed, owed)
  {
    var n := |shares| - 1;
    if j < n {
      EntriesComplete(s, timeout, p, shares[..n], now, elapsed, owed, j);
    }
  }

  // ---- what every run keeps ----

  /** No clock a step wrote lies in the future, and nothing held exceeds what the roster declares. */
  ghost predicate Consistent(cfg: Config, s: Reg, t: real) {
    && t >= 0.0
    && (forall p :: p in s.states ==>
          && p in cfg.peers
          && 0.0 <= s.states[p].lastCredited <= t
          && 0.0 <= s.states[p].residentGb
          && (cfg.peers[p].capacityGb > 0.0 ==> s.states[p].residentGb <= cfg.peers[p].capacityGb))
    && (forall k :: k in s.attest ==> ConsistentAttestation(cfg, s, k, t))
  }

  /** The key fact: a contributor is settled no further than the peer, unless its own last word is newer. */
  ghost predicate ConsistentAttestation(cfg: Config, s: Reg, k: Key, t: real)
    requires k in s.attest
  {
    var a := s.attest[k];
    && k.peer in cfg.peers
    && 0.0 <= a.lastSeen <= a.lastCredited <= t
    && (a.lastCredited == a.lastSeen || (k.peer in s.states && a.lastCredited <= s.states[k.peer].lastCredited))
    && 0.0 <= a.residentGb
    && (a.residentGb > 0.0 ==> Contributes(cfg.peers[k.peer], k.member) && a.residentGb <= Declared(cfg.peers[k.peer], k.member))
  }

  ghost predicate SettlesUpTo(log: seq<Settlement>, k: Key, t: real) {
    exists e :: e in log && e.key == k && e.upTo == t
  }

  ghost predicate Within(e: Settlement, attest: map<Key, Attestation>) {
    e.key in attest && e.start <= e.upTo <= attest[e.key].lastCredited && e.gb >= 0.0
  }

  /** `lastCredited` is exactly how far the log settles a key. */
  ghost predicate LogMatches(s: Reg) {
    && (forall e :: e in s.log ==> Within(e, s.attest))
    && (forall k :: k in s.attest ==> SettlesUpTo(s.log, k, s.attest[k].lastCredited))
  }

  /** An owner's word settles nothing past its last beat. */
  ghost predicate HeadsSettled(s: Reg) {
    forall e :: e in s.log && e.path == HeadsWord ==> e.key.peer in s.states && e.upTo <= s.states[e.key.peer].lastCredited
  }

  ghost predicate Inv(cfg: Config, s: Reg, t: real) {
    Consistent(cfg, s, t) && LogMatches(s) && HeadsSettled(s)
  }

  // ---- partition ----

  /** Two readings of what may not be paid for again: time that was paid for, or any time that was settled. */
  datatype Claim = Paid | Settled

  predicate Counts(claim: Claim, e: Settlement) {
    if claim == Paid then e.gb > 0.0 else e.start < e.upTo
  }

  /** No interval paid to `k` starts before an earlier one of `k`'s that counts has ended. */
  ghost predicate Partitioned(claim: Claim, log: seq<Settlement>, k: Key) {
    forall i, j :: 0 <= i < j < |log| && log[i].key == k == log[j].key && Counts(claim, log[i]) && log[j].gb > 0.0
               ==> log[i].upTo <= log[j].start
  }

  /** `k`'s own word has been settled, in the sense of `claim`, past `t`. */
  ghost predicate HeardPast(claim: Claim, log: seq<Settlement>, k: Key, t: real) {
    exists i :: 0 <= i < |log| && log[i].key == k && log[i].path == OwnWord && Counts(claim, log[i]) && log[i].upTo > t
  }

  /** Where an owner's beat at `now` starts paying from. */
  function BeatStart(st: PeerState, now: real): real {
    Max(st.lastCredited, now - MAX_CREDITED_INTERVAL)
  }

  /** The guard under which an owner's beat at `now` pays `k` again for time that counts. */
  ghost predicate PaysAgain(claim: Claim, cfg: Config, s: Reg, k: Key, now: real) {
    && k.peer in cfg.peers && k.peer in s.states && Owed(s.states[k.peer], now)
    && Named(CreditSplit(cfg.peers[k.peer], s.states[k.peer].residentGb), k.member)
    && Overtaken(claim, cfg, s, k, now)
  }

  /** `k` is not attesting any more, but was heard past the start of the beat. */
  ghost predicate Overtaken(claim: Claim, cfg: Config, s: Reg, k: Key, now: real)
    requires k.peer in s.states
  {
    !Attesting(s, cfg.timeout, k, now) && HeardPast(claim, s.log, k, BeatStart(s.states[k.peer], now))
  }

  lemma PartitionedPrefix(claim: Claim, log: seq<Settlement>, more: seq<Settlement>, k: Key)
    requires Partitioned(claim, log + more, k)
    ensures Partitioned(claim, log, k)
  {
    forall i, j | 0 <= i < j < |log| && log[i].key == k == log[j].key && Counts(claim, log[i]) && log[j].gb > 0.0
      ensures log[i].upTo <= log[j].start
    {
      assert (log + more)[i] == log[i] && (log + more)[j] == log[j];
    }
  }

  /** The one entry an attestation logs: it starts no earlier than where the key was settled. */
  lemma AttestLogs(cfg: Config, s: Reg, p: PeerId, m: MemberId, gb: real, t: real, now: real) returns (e: Settlement)
    requires WellFormed(cfg) && Consistent(cfg, s, t) && t <= now
    requires Attest(cfg, s, p, m, gb, now).Ok?
    ensures var s' := Attest(cfg, s, p, m, gb, now).value;
            var k := Key(p, m);
            && s'.states == s.states && s'.log == s.log + [e]
            && e.key == k && e.path == OwnWord && e.upTo == now && e.start <= now && e.gb >= 0.0
            && (e.gb > 0.0 ==> k in s.attest && e.gb == s.attest[k].residentGb)
            && (k in s.attest ==> s.attest[k].lastCredited <= e.start)
            && k in s'.attest && s'.attest == s.attest[k := s'.attest[k]]
            && s'.attest[k].lastSeen == now && s'.attest[k].lastCredited == now
            && 0.0 <= s'.attest[k].residentGb <= Declared(cfg.peers[p], m)
  {
    DeclaredNonNegative(cfg.peers[p].contributors, m);
    var s' := Attest(cfg, s, p, m, gb, now).value;
    e := s'.log[|s.log|];
    if Key(p, m) in s.attest {
      assert ConsistentAttestation(cfg, s, Key(p, m), t);
    }
  }

  lemma MoreLog(log: seq<Settlement>, more: seq<Settlement>, k: Key, t: real)
    requires SettlesUpTo(log, k, t)
    ensures SettlesUpTo(log + more, k, t)
  {
    var e :| e in log && e.key == k && e.upTo == t;
    assert e in log + more;
  }

  /** `e` starts no earlier than everything logged for its key that counts. */
  ghost predicate StartsAfter(claim: Claim, log: seq<Settlement>, e: Settlement) {
    forall i :: 0 <= i < |log| && log[i].key == e.key && Counts(claim, log[i]) ==> log[i].upTo <= e.start
  }

  /** Adding entries keeps the partition exactly when a paid one for `k` starts after what was logged for it. */
  lemma PartitionedAppend(claim: Claim, log: seq<Settlement>, es: seq<Settlement>, k: Key)
    requires DistinctKeys(es)
    ensures Partitioned(claim, log + es, k) <==>
            Partitioned(claim, log, k) && forall e :: e in es && e.key == k && e.gb > 0.0 ==> StartsAfter(claim, log, e)
  {
    var log' := log + es;
    if Partitioned(claim, log', k) {
      PartitionedPrefix(claim, log, es, k);
      forall e, i | e in es && e.key == k && e.gb > 0.0 && 0 <= i < |log| && log[i].key == k && Counts(claim, log[i])
        ensures log[i].upTo <= e.start
      {
        var j :| 0 <= j < |es| && es[j] == e;
        assert log'[i] == log[i] && log'[|log| + j] == e;
      }
    }
    if Partitioned(claim, log, k) && forall e :: e in es && e.key == k && e.gb > 0.0 ==> StartsAfter(claim, log, e) {
      forall i, j | 0 <= i < j < |log'| && log'[i].key == k == log'[j].key && Counts(claim, log'[i]) && log'[j].gb > 0.0
        ensures log'[i].upTo <= log'[j].start
      {
        if j >= |log| {
          assert log'[j] in es;
          if i < |log| { assert StartsAfter(claim, log, log'[j]); }
        }
      }
    }
  }

  /** An attestation never pays again: it starts where its key was last settled. */
  lemma AttestPartitions(claim: Claim, cfg: Config, s: Reg, p: PeerId, m: MemberId, gb: real, t: real, now: real, k: Key)
    requires WellFormed(cfg) && Inv(cfg, s, t) && t <= now && Attest(cfg, s, p, m, gb, now).Ok?
    ensures Partitioned(claim, Attest(cfg, s, p, m, gb, now).value.log, k) <==> Partitioned(claim, s.log, k)
  {
    var e := AttestLogs(cfg, s, p, m, gb, t, now);
    PartitionedAppend(claim, s.log, [e], k);
    forall i | 0 <= i < |s.log| && s.log[i].key == e.key
      ensures s.log[i].upTo <= e.start
    {
      assert s.log[i] in s.log && Within(s.log[i], s.attest);
    }
  }

  lemma AttestKeeps(cfg: Config, s: Reg, p: PeerId, m: MemberId, gb: real, t: real, now: real)
    requires WellFormed(cfg) && Inv(cfg, s, t) && t <= now
    ensures var r := Attest(cfg, s, p, m, gb, now);
            r.Ok? ==> && Inv(cfg, r.value, now)
                      && r.value.states == s.states
  {
    var r := Attest(cfg, s, p, m, gb, now);
    if r.Ok? {
      var k, s' := Key(p, m), r.value;
      var e := AttestLogs(cfg, s, p, m, gb, t, now);
      assert e in s'.log;
      forall k' | k' in s'.attest
        ensures ConsistentAttestation(cfg, s', k', now) && SettlesUpTo(s'.log, k', s'.attest[k'].lastCredited)
      {
        if k' != k {
          assert ConsistentAttestation(cfg, s, k', t);
          MoreLog(s.log, [e], k', s.attest[k'].lastCredited);
        }
      }
      forall e' | e' in s'.log
        ensures Within(e', s'.attest)
      {
        if e' in s.log {
          assert Within(e', s.attest);
          if e'.key == k { assert ConsistentAttestation(cfg, s, k, t); }
        }
      }
    }
  }

  lemma {:induction false} DeclaredNonNegative(cs: seq<Contribution>, m: MemberId)
    requires forall i :: 0 <= i < |cs| ==> cs[i].gb > 0.0
    ensures DeclaredFrom(cs, m) >= 0.0
  {
    if cs != [] {
      DeclaredNonNegative(cs[1..], m);
    }
  }

  function BeatEntries(cfg: Config, s: Reg, p: PeerId, now: real): seq<Settlement>
    requires p in cfg.peers
  {
    if p !in s.states || now <= s.states[p].lastCredited then []
    else
      var st := s.states[p];
      Entries(s, cfg.timeout, p, CreditSplit(cfg.peers[p], st.residentGb), now,
              Min(now - st.lastCredited, MAX_CREDITED_INTERVAL), Owed(st, now))
  }

  ghost predicate Marks(cfg: Config, s: Reg, p: PeerId, now: real, k: Key)
    requires p in cfg.peers
  {
    && p in s.states && now > s.states[p].lastCredited
    && Settles(s, cfg.timeout, p, CreditSplit(cfg.peers[p], s.states[p].residentGb), now, k)
  }

  /** Everything the owner's beat changes before the owner attests. */
  lemma BeatIs(cfg: Config, s: Reg, p: PeerId, now: real, held: real, healthy: bool, detail: Detail)
    requires WellFormed(cfg) && p in cfg.peers
    ensures var s' := RecordBeat(cfg, s, p, now, held, healthy, detail);
            && s'.log == s.log + BeatEntries(cfg, s, p, now)
            && s'.books.consumptions == s.books.consumptions
            && p in s'.states && s'.states == s.states[p := s'.states[p]]
            && s'.states[p].lastCredited == now && s'.states[p].residentGb == held && s'.states[p].healthy == healthy
            && (forall k :: k in s'.attest || k in s.attest ==> MarkedAt(s.attest, s'.attest, k, Marks(cfg, s, p, now, k), now))
            && (forall k :: Marks(cfg, s, p, now, k) ==> k in s'.attest)
    ensures DistinctKeys(BeatEntries(cfg, s, p, now))
  {
    if p in s.states && now > s.states[p].lastCredited {
      var st := s.states[p];
      var shares := CreditSplit(cfg.peers[p], st.residentGb);
      SplitMembers(cfg.peers[p], st.residentGb);
      var elapsed := Min(now - st.lastCredited, MAX_CREDITED_INTERVAL);
      SettleSharesIs(s, cfg.timeout, p, shares, now, elapsed, Owed(st, now));
    }
    BeatKeysDistinct(cfg, s, p, now);
  }

  lemma BeatKeysDistinct(cfg: Config, s: Reg, p: PeerId, now: real)
    requires WellFormed(cfg) && p in cfg.peers
    ensures DistinctKeys(BeatEntries(cfg, s, p, now))
  {
    if p in s.states && now > s.states[p].lastCredited {
      var st := s.states[p];
      SplitMembers(cfg.peers[p], st.residentGb);
      EntriesSound(s, cfg.timeout, p, CreditSplit(cfg.peers[p], st.residentGb), now,
                   Min(now - st.lastCredited, MAX_CREDITED_INTERVAL), Owed(st, now));
    }
  }

  /** What an entry of a beat says, in terms of the peer's state before it. */
  lemma BeatEntryIs(cfg: Config, s: Reg, p: PeerId, now: real, e: Settlement)
    requires WellFormed(cfg) && p in cfg.peers && e in BeatEntries(cfg, s, p, now)
    requires p in s.states ==> s.states[p].residentGb >= 0.0
    ensures p in s.states && now > s.states[p].lastCredited
    ensures e.upTo == now && e.path == HeadsWord && e.key.peer == p && e.gb >= 0.0
    ensures e.start == Max(s.states[p].lastCredited, now - MAX_CREDITED_INTERVAL)
    ensures Marks(cfg, s, p, now, e.key)
    ensures e.gb > 0.0 ==>
              && Owed(s.states[p], now)
              && var shares := CreditSplit(cfg.peers[p], s.states[p].residentGb);
                 exists j :: 0 <= j < |shares| && PaysShare(e, shares[j], true)
  {
    var st := s.states[p];
    var shares := CreditSplit(cfg.peers[p], st.residentGb);
    SplitMembers(cfg.peers[p], st.residentGb);
    var elapsed := Min(now - st.lastCredited, MAX_CREDITED_INTERVAL);
    EntriesSound(s, cfg.timeout, p, shares, now, elapsed, Owed(st, now));
    assert EntryOf(e, s, cfg.timeout, p, shares, now, elapsed, Owed(st, now));
    var j :| 0 <= j < |shares| && PaysShare(e, shares[j], Owed(st, now));
  }

  /** A beat's entry for `k` starts before something that counts exactly when `k` was heard past its start. */
  lemma BeatOverlaps(claim: Claim, cfg: Config, s: Reg, p: PeerId, t: real, now: real, e: Settlement)
    requires WellFormed(cfg) && Inv(cfg, s, t) && p in cfg.peers && e in BeatEntries(cfg, s, p, now)
    ensures p in s.states && e.key.peer == p
    ensures StartsAfter(claim, s.log, e) <==> !HeardPast(claim, s.log, e.key, BeatStart(s.states[p], now))
  {
    BeatEntryIs(cfg, s, p, now, e);
    forall i | 0 <= i < |s.log| && s.log[i].key == e.key && s.log[i].path == HeadsWord
      ensures s.log[i].upTo <= e.start
    {
      assert s.log[i] in s.log;
    }
  }

  lemma PayingAgainBreaks(claim: Claim, cfg: Config, s: Reg, k: Key, t: real, now: real) returns (e: Settlement)
    requires WellFormed(cfg) && Inv(cfg, s, t) && PaysAgain(claim, cfg, s, k, now)
    ensures e in BeatEntries(cfg, s, k.peer, now) && e.key == k && e.gb > 0.0 && !StartsAfter(claim, s.log, e)
  {
    var st := s.states[k.peer];
    var shares := CreditSplit(cfg.peers[k.peer], st.residentGb);
    var elapsed := Min(now - st.lastCredited, MAX_CREDITED_INTERVAL);
    SplitMembers(cfg.peers[k.peer], st.residentGb);
    var i :| 0 <= i < |shares| && shares[i].member == k.member;
    EntriesComplete(s, cfg.timeout, k.peer, shares, now, elapsed, true, i);
    e := Settlement(k, now - elapsed, now, shares[i].gb, HeadsWord);
    BeatOverlaps(claim, cfg, s, k.peer, t, now, e);
  }

  lemma PaidEntryOvertaken(claim: Claim, cfg: Config, s: Reg, p: PeerId, now: real, e: Settlement)
    requires WellFormed(cfg) && p in cfg.peers && p in s.states && s.states[p].residentGb >= 0.0
    requires e in BeatEntries(cfg, s, p, now) && e.key.peer == p && e.gb > 0.0
    requires HeardPast(claim, s.log, e.key, BeatStart(s.states[p], now))
    ensures PaysAgain(claim, cfg, s, e.key, now)
  {
    BeatEntryIs(cfg, s, p, now, e);
  }

  /** The first half of a beat keeps `k`'s partition exactly when it is no beat of its peer that pays it again. */
  lemma BeatPartitions(claim: Claim, cfg: Config, s: Reg, p: PeerId, t: real, now: real, held: real, healthy: bool, detail: Detail, k: Key)
    requires WellFormed(cfg) && Inv(cfg, s, t) && t <= now && p in cfg.peers
    ensures Partitioned(claim, RecordBeat(cfg, s, p, now, held, healthy, detail).log, k) <==>
            Partitioned(claim, s.log, k) && !(k.peer == p && PaysAgain(claim, cfg, s, k, now))
  {
    BeatIs(cfg, s, p, now, held, healthy, detail);
    var es := BeatEntries(cfg, s, p, now);
    PartitionedAppend(claim, s.log, es, k);
    if k.peer == p && PaysAgain(claim, cfg, s, k, now) {
      var e := PayingAgainBreaks(claim, cfg, s, k, t, now);
    }
    forall e | e in es && e.key == k && e.gb > 0.0 && !StartsAfter(claim, s.log, e)
      ensures k.peer == p && PaysAgain(claim, cfg, s, k, now)
    {
      BeatOverlaps(claim, cfg, s, p, t, now, e);
      PaidEntryOvertaken(claim, cfg, s, p, now, e);
    }
  }

  lemma BeatHeadsSettled(cfg: Config, s: Reg, p: PeerId, t: real, now: real, held: real, healthy: bool, detail: Detail)
    requires WellFormed(cfg) && Consistent(cfg, s, t) && HeadsSettled(s) && t <= now && p in cfg.peers
    ensures HeadsSettled(RecordBeat(cfg, s, p, now, held, healthy, detail))
  {
    var s' := RecordBeat(cfg, s, p, now, held, healthy, detail);
    BeatIs(cfg, s, p, now, held, healthy, detail);
    forall e | e in s'.log && e.path == HeadsWord
      ensures e.key.peer in s'.states && e.upTo <= s'.states[e.key.peer].lastCredited
    {
      if e !in s.log { BeatEntryIs(cfg, s, p, now, e); }
    }
  }

  /** The two books agree after a beat: every entry is within what is settled, and the settled ends are logged. */
  lemma BeatLogMatches(cfg: Config, s: Reg, p: PeerId, t: real, now: real, held: real, healthy: bool, detail: Detail)
    requires WellFormed(cfg) && Inv(cfg, s, t) && t <= now && p in cfg.peers
    ensures LogMatches(RecordBeat(cfg, s, p, now, held, healthy, detail))
  {
    var s' := RecordBeat(cfg, s, p, now, held, healthy, detail);
    BeatIs(cfg, s, p, now, held, healthy, detail);
    var es := BeatEntries(cfg, s, p, now);
    forall k | k in s'.attest
      ensures SettlesUpTo(s'.log, k, s'.attest[k].lastCredited)
    {
      if Marks(cfg, s, p, now, k) {
        BeatMarksLogged(cfg, s, p, now, k);
        MoreLogged(s.log, es, k, now);
      } else {
        MoreLog(s.log, es, k, s.attest[k].lastCredited);
      }
    }
    forall e | e in s'.log
      ensures Within(e, s'.attest)
    {
      if e in s.log {
        assert Within(e, s.attest);
        assert ConsistentAttestation(cfg, s, e.key, t);
      } else {
        BeatEntryIs(cfg, s, p, now, e);
      }
    }
  }

  lemma BeatKeeps(cfg: Config, s: Reg, p: PeerId, t: real, now: real, gb: real, healthy: bool, detail: Detail)
    requires WellFormed(cfg) && Inv(cfg, s, t) && t <= now && p in cfg.peers
    ensures Inv(cfg, RecordBeat(cfg, s, p, now, Capped(cfg.peers[p], gb), healthy, detail), now)
  {
    var s' := RecordBeat(cfg, s, p, now, Capped(cfg.peers[p], gb), healthy, detail);
    BeatIs(cfg, s, p, now, Capped(cfg.peers[p], gb), healthy, detail);
    BeatLogMatches(cfg, s, p, t, now, Capped(cfg.peers[p], gb), healthy, detail);
    BeatHeadsSettled(cfg, s, p, t, now, Capped(cfg.peers[p], gb), healthy, detail);
    forall k | k in s'.attest
      ensures ConsistentAttestation(cfg, s', k, now)
    {
      if k in s.attest { assert ConsistentAttestation(cfg, s, k, t); }
    }
  }

  lemma MoreLogged(log: seq<Settlement>, es: seq<Settlement>, k: Key, t: real)
    requires SettlesUpTo(es, k, t)
    ensures SettlesUpTo(log + es, k, t)
  {
    var e :| e in es && e.key == k && e.upTo == t;
    assert e in log + es;
  }

  lemma BeatMarksLogged(cfg: Config, s: Reg, p: PeerId, now: real, k: Key)
    requires WellFormed(cfg) && p in cfg.peers && Marks(cfg, s, p, now, k)
    ensures SettlesUpTo(BeatEntries(cfg, s, p, now), k, now)
  {
    var st := s.states[p];
    var shares := CreditSplit(cfg.peers[p], st.residentGb);
    var j :| 0 <= j < |shares| && shares[j].member == k.member;
    EntriesComplete(s, cfg.timeout, p, shares, now, Min(now - st.lastCredited, MAX_CREDITED_INTERVAL), Owed(st, now), j);
  }

  lemma QuietStepIs(cfg: Config, s: Reg, e: Event)
    requires !e.Beat? && !e.Attests? && forall p :: p in s.states ==> p in cfg.peers
    ensures var s' := Step(cfg, s, e);
            && s'.attest == s.attest && s'.log == s.log && (forall p :: p in s.states ==> p in s'.states)
            && forall p :: p in s'.states ==>
                 if p in s.states then s'.states[p].lastCredited == s.states[p].lastCredited && s'.states[p].residentGb == s.states[p].residentGb
                 else p in cfg.peers && s'.states[p].lastCredited == 0.0 && s'.states[p].residentGb == 0.0
  {
  }

  /** The steps that neither settle anything nor read the clock. */
  lemma QuietStepKeeps(cfg: Config, s: Reg, e: Event, t: real)
    requires Inv(cfg, s, t) && !e.Beat? && !e.Attests?
    ensures Inv(cfg, Step(cfg, s, e), t) && Step(cfg, s, e).log == s.log
  {
    var s' := Step(cfg, s, e);
    QuietStepIs(cfg, s, e);
    forall k | k in s'.attest
      ensures ConsistentAttestation(cfg, s', k, t)
    {
      assert ConsistentAttestation(cfg, s, k, t);
    }
  }

  lemma StepKeeps(cfg: Config, s: Reg, e: Event, t: real)
    requires WellFormed(cfg) && Inv(cfg, s, t) && ReadsForward(t, e)
    ensures Inv(cfg, Step(cfg, s, e), ClockAfter(t, e))
  {
    match e {
      case Beat(p, now, later, gb, healthy, detail) =>
        if p in cfg.peers {
          var held := Capped(cfg.peers[p], gb);
          BeatKeeps(cfg, s, p, t, now, gb, healthy, detail);
          var mid := RecordBeat(cfg, s, p, now, held, healthy, detail);
          AttestKeeps(cfg, mid, p, cfg.peers[p].owner, held, now, later);
          LaterKeeps(cfg, mid, now, later);
        } else {
          LaterKeeps(cfg, s, t, later);
        }
      case Attests(p, m, now, gb) =>
        AttestKeeps(cfg, s, p, m, gb, t, now);
        LaterKeeps(cfg, s, t, now);
      case _ =>
        QuietStepKeeps(cfg, s, e, t);
    }
  }

  /** One step keeps the partition exactly when it is no beat that pays again. */
  lemma StepPartitions(claim: Claim, cfg: Config, s: Reg, e: Event, t: real, k: Key)
    requires WellFormed(cfg) && Inv(cfg, s, t) && ReadsForward(t, e)
    ensures Partitioned(claim, Step(cfg, s, e).log, k) <==>
            Partitioned(claim, s.log, k) && !(e.Beat? && e.peer == k.peer && PaysAgain(claim, cfg, s, k, e.now))
  {
    match e {
      case Beat(p, now, later, gb, healthy, detail) =>
        if p in cfg.peers {
          var held := Capped(cfg.peers[p], gb);
          var mid := RecordBeat(cfg, s, p, now, held, healthy, detail);
          BeatKeeps(cfg, s, p, t, now, gb, healthy, detail);
          BeatPartitions(claim, cfg, s, p, t, now, held, healthy, detail, k);
          if Attest(cfg, mid, p, cfg.peers[p].owner, held, later).Ok? {
            AttestPartitions(claim, cfg, mid, p, cfg.peers[p].owner, held, now, later, k);
          }
        }
      case Attests(p, m, now, gb) =>
        if Attest(cfg, s, p, m, gb, now).Ok? {
          AttestPartitions(claim, cfg, s, p, m, gb, t, now, k);
        }
      case _ =>
        QuietStepKeeps(cfg, s, e, t);
    }
  }

  lemma LaterKeeps(cfg: Config, s: Reg, t: real, t': real)
    requires Inv(cfg, s, t) && t <= t'
    ensures Inv(cfg, s, t')
  {
    forall k | k in s.attest
      ensures ConsistentAttestation(cfg, s, k, t')
    {
      assert ConsistentAttestation(cfg, s, k, t);
    }
  }

  lemma {:induction false} RunKeeps(cfg: Config, es: seq<Event>, t0: real)
    requires WellFormed(cfg) && t0 >= 0.0 && Monotonic(t0, es)
    ensures Inv(cfg, Run(cfg, es), Clock(t0, es))
  {
    if es != [] {
      var n := |es| - 1;
      RunKeeps(cfg, es[..n], t0);
      StepKeeps(cfg, Run(cfg, es[..n]), es[n], Clock(t0, es[..n]));
    }
  }

  // ---- the guard, in terms of the run ----

  /** An attestation of `k` at `now` settles some time, and pays for it if that is what counts. */
  predicate SettlesMore(claim: Claim, s: Reg, k: Key, now: real) {
    && k in s.attest && now > s.attest[k].lastCredited
    && (claim == Paid ==> s.attest[k].residentGb > 0.0 && k.peer in s.states && s.states[k.peer].healthy)
  }

  /** `e` is `k`'s own word past `t`: its attestation, or its beat if it owns the peer and contributes to it. */
  predicate SpeaksPast(claim: Claim, cfg: Config, s: Reg, e: Event, k: Key, t: real) {
    && k.peer in cfg.peers && Contributes(cfg.peers[k.peer], k.member)
    && match e
       case Attests(p, m, now, _) => Key(p, m) == k && now > t && SettlesMore(claim, s, k, now)
       case Beat(p, now, later, gb, healthy, detail) =>
         && p == k.peer && cfg.peers[p].owner == k.member && later > t
         && SettlesMore(claim, RecordBeat(cfg, s, p, now, Capped(cfg.peers[p], gb), healthy, detail), k, later)
       case _ => false
  }

  ghost predicate SpokePast(claim: Claim, cfg: Config, es: seq<Event>, k: Key, t: real) {
    es != [] &&
    (SpokePast(claim, cfg, es[..|es| - 1], k, t) || SpeaksPast(claim, cfg, Run(cfg, es[..|es| - 1]), es[|es| - 1], k, t))
  }

  lemma HeardConcat(claim: Claim, a: seq<Settlement>, b: seq<Settlement>, k: Key, t: real)
    ensures HeardPast(claim, a + b, k, t) <==> HeardPast(claim, a, k, t) || HeardPast(claim, b, k, t)
  {
    var c := a + b;
    if i :| 0 <= i < |a| && a[i].key == k && a[i].path == OwnWord && Counts(claim, a[i]) && a[i].upTo > t {
      assert c[i] == a[i];
    }
    if i :| 0 <= i < |b| && b[i].key == k && b[i].path == OwnWord && Counts(claim, b[i]) && b[i].upTo > t {
      assert c[|a| + i] == b[i];
    }
    if i :| 0 <= i < |c| && c[i].key == k && c[i].path == OwnWord && Counts(claim, c[i]) && c[i].upTo > t {
      assert if i < |a| then c[i] == a[i] else c[i] == b[i - |a|];
    }
  }

  /** What an attestation adds to what has been heard. */
  lemma AttestHeard(claim: Claim, cfg: Config, s: Reg, p: PeerId, m: MemberId, gb: real, now: real, k: Key, t: real)
    requires Attest(cfg, s, p, m, gb, now).Ok?
    ensures HeardPast(claim, Attest(cfg, s, p, m, gb, now).value.log, k, t) <==>
            HeardPast(claim, s.log, k, t) || (Key(p, m) == k && now > t && SettlesMore(claim, s, k, now))
  {
    var log' := Attest(cfg, s, p, m, gb, now).value.log;
    var e := log'[|s.log|];
    assert log' == s.log + [e];
    HeardConcat(claim, s.log, [e], k, t);
    assert HeardPast(claim, [e], k, t) <==> e.key == k && e.path == OwnWord && Counts(claim, e) && e.upTo > t by {
      assert [e][0] == e;
    }
  }

  lemma BeatHeard(claim: Claim, cfg: Config, s: Reg, p: PeerId, now: real, held: real, healthy: bool, detail: Detail, k: Key, t: real)
    requires WellFormed(cfg) && p in cfg.peers
    ensures HeardPast(claim, RecordBeat(cfg, s, p, now, held, healthy, detail).log, k, t) <==> HeardPast(claim, s.log, k, t)
  {
    var es := BeatEntries(cfg, s, p, now);
    BeatIs(cfg, s, p, now, held, healthy, detail);
    HeardConcat(claim, s.log, es, k, t);
    if p in s.states && now > s.states[p].lastCredited {
      var st := s.states[p];
      SplitMembers(cfg.peers[p], st.residentGb);
      EntriesSound(s, cfg.timeout, p, CreditSplit(cfg.peers[p], st.residentGb), now,
                   Min(now - st.lastCredited, MAX_CREDITED_INTERVAL), Owed(st, now));
    }
    assert forall e :: e in es ==> e.path == HeadsWord;
  }

  /** What the log has heard is what the run's own events said. */
  lemma {:induction false} HeardIsSpoken(claim: Claim, cfg: Config, es: seq<Event>, k: Key, t: real)
    requires WellFormed(cfg)
    ensures HeardPast(claim, Run(cfg, es).log, k, t) <==> SpokePast(claim, cfg, es, k, t)
  {
    if es != [] {
      var s, e := Run(cfg, es[..|es| - 1]), es[|es| - 1];
      HeardIsSpoken(claim, cfg, es[..|es| - 1], k, t);
      match e {
        case Beat(p, now, later, gb, healthy, detail) =>
          if p in cfg.peers {
            var held := Capped(cfg.peers[p], gb);
            BeatHeard(claim, cfg, s, p, now, held, healthy, detail, k, t);
            var mid := RecordBeat(cfg, s, p, now, held, healthy, detail);
            if Attest(cfg, mid, p, cfg.peers[p].owner, held, later).Ok? {
              AttestHeard(claim, cfg, mid, p, cfg.peers[p].owner, held, later, k, t);
            }
          }
        case Attests(p, m, now, gb) =>
          if Attest(cfg, s, p, m, gb, now).Ok? { AttestHeard(claim, cfg, s, p, m, gb, now, k, t); }
        case _ =>
      }
    }
  }

  /** After `before`, an owner's beat at `now` owes `k`, which is not attesting any more but spoke past its start. */
  ghost predicate Reclaims(claim: Claim, cfg: Config, before: seq<Event>, k: Key, now: real) {
    var s := Run(cfg, before);
    && k.peer in cfg.peers && k.peer in s.states && Owed(s.states[k.peer], now)
    && Named(CreditSplit(cfg.peers[k.peer], s.states[k.peer].residentGb), k.member)
    && !Attesting(s, cfg.timeout, k, now)
    && SpokePast(claim, cfg, before, k, BeatStart(s.states[k.peer], now))
  }

  lemma GuardsAgree(claim: Claim, cfg: Config, before: seq<Event>, k: Key, now: real)
    requires WellFormed(cfg)
    ensures Reclaims(claim, cfg, before, k, now) <==> PaysAgain(claim, cfg, Run(cfg, before), k, now)
  {
    var s := Run(cfg, before);
    if k.peer in s.states { HeardIsSpoken(claim, cfg, before, k, BeatStart(s.states[k.peer], now)); }
  }

  /** Some owner's beat of the run meets the guard for `k`. */
  ghost predicate RunReclaims(claim: Claim, cfg: Config, es: seq<Event>, k: Key) {
    es != [] &&
    (RunReclaims(claim, cfg, es[..|es| - 1], k) ||
     (es[|es| - 1].Beat? && es[|es| - 1].peer == k.peer && Reclaims(claim, cfg, es[..|es| - 1], k, es[|es| - 1].now)))
  }

  /**
   Over any run, for any member of any peer: no two intervals paid to it overlap if and only if no
   beat of that peer's owner that owes it finds it not attesting any more, its own word having been
   paid past where the beat starts. The same holds, reading settled for paid, of time that was
   settled as owing nothing.
   */
  lemma {:induction false} PartitionExactly(claim: Claim, cfg: Config, es: seq<Event>, t0: real, k: Key)
    requires WellFormed(cfg) && t0 >= 0.0 && Monotonic(t0, es)
    ensures Partitioned(claim, Run(cfg, es).log, k) <==> !RunReclaims(claim, cfg, es, k)
  {
    if es != [] {
      var before, e := es[..|es| - 1], es[|es| - 1];
      PartitionExactly(claim, cfg, before, t0, k);
      RunKeeps(cfg, before, t0);
      StepPartitions(claim, cfg, Run(cfg, before), e, Clock(t0, before), k);
      if e.Beat? { GuardsAgree(claim, cfg, before, k, e.now); }
    }
  }

  // ---- the gap condition ----

  /** When `p`'s owner last beat, if it has. */
  function LastBeat(cfg: Config, es: seq<Event>, p: PeerId): Option<real> {
    if es == [] then None
    else if es[|es| - 1].Beat? && es[|es| - 1].peer == p && p in cfg.peers then Some(es[|es| - 1].now)
    else LastBeat(cfg, es[..|es| - 1], p)
  }

  predicate BeatInTime(cfg: Config, before: seq<Event>, e: Event, p: PeerId, gap: real) {
    e.Beat? && e.peer == p ==> var last := LastBeat(cfg, before, p); last.Some? ==> e.now - last.value <= gap
  }

  /** The owner of `p` never lets more than `gap` pass between two beats. */
  predicate BeatsWithin(cfg: Config, es: seq<Event>, p: PeerId, gap: real) {
    es == [] || (BeatsWithin(cfg, es[..|es| - 1], p, gap) && BeatInTime(cfg, es[..|es| - 1], es[|es| - 1], p, gap))
  }

  /** A healthy peer is credited up to its owner's last beat. */
  lemma {:induction false} HealthyMeansBeaten(cfg: Config, es: seq<Event>, p: PeerId)
    requires WellFormed(cfg)
    ensures var s := Run(cfg, es);
            p in s.states && s.states[p].healthy ==> LastBeat(cfg, es, p) == Some(s.states[p].lastCredited)
  {
    if es != [] {
      var n := |es| - 1;
      var s0 := Run(cfg, es[..n]);
      HealthyMeansBeaten(cfg, es[..n], p);
      match es[n] {
        case Beat(q, now, later, gb, healthy, detail) =>
          if q in cfg.peers {
            BeatIs(cfg, s0, q, now, Capped(cfg.peers[q], gb), healthy, detail);
          }
        case _ =>
      }
    }
  }

  /** A contributor gone quiet was last heard after the owner's last beat, and longer ago than the timeout. */
  lemma OvertakenIsLate(claim: Claim, cfg: Config, s: Reg, k: Key, t: real, now: real)
    requires WellFormed(cfg) && Inv(cfg, s, t) && k.peer in s.states && Overtaken(claim, cfg, s, k, now)
    ensures now - s.states[k.peer].lastCredited > cfg.timeout
  {
    var i :| 0 <= i < |s.log| && s.log[i].key == k && s.log[i].path == OwnWord && Counts(claim, s.log[i]) &&
              s.log[i].upTo > BeatStart(s.states[k.peer], now);
    assert s.log[i] in s.log && Within(s.log[i], s.attest);
    assert ConsistentAttestation(cfg, s, k, t);
  }

  lemma {:induction false} TimelyNeverReclaims(claim: Claim, cfg: Config, es: seq<Event>, t0: real, k: Key)
    requires WellFormed(cfg) && t0 >= 0.0 && Monotonic(t0, es) && BeatsWithin(cfg, es, k.peer, cfg.timeout)
    ensures !RunReclaims(claim, cfg, es, k)
  {
    if es != [] {
      var before, e := es[..|es| - 1], es[|es| - 1];
      TimelyNeverReclaims(claim, cfg, before, t0, k);
      if e.Beat? && e.peer == k.peer && Reclaims(claim, cfg, before, k, e.now) {
        RunKeeps(cfg, before, t0);
        GuardsAgree(claim, cfg, before, k, e.now);
        OvertakenIsLate(claim, cfg, Run(cfg, before), k, Clock(t0, before), e.now);
        HealthyMeansBeaten(cfg, before, k.peer);
      }
    }
  }

  /** If a peer's owner beats at most `heartbeat_timeout` apart, the two paths partition its members' time. */
  lemma PartitionsUnderTimelyBeats(claim: Claim, cfg: Config, es: seq<Event>, t0: real, k: Key)
    requires WellFormed(cfg) && t0 >= 0.0 && Monotonic(t0, es)
    requires BeatsWithin(cfg, es, k.peer, cfg.timeout)
    ensures Partitioned(claim, Run(cfg, es).log, k)
  {
    TimelyNeverReclaims(claim, cfg, es, t0, k);
    PartitionExactly(claim, cfg, es, t0, k);
  }

  /** Under the partition no instant is paid twice to the same key. */
  lemma NoInstantPaidTwice(log: seq<Settlement>, i: nat, j: nat, instant: real)
    requires i < |log| && j < |log| && i != j && log[i].key == log[j].key && Partitioned(Paid, log, log[i].key)
    requires log[i].gb > 0.0 && log[j].gb > 0.0
    requires log[i].start < instant < log[i].upTo
    ensures !(log[j].start < instant < log[j].upTo)
  {
  }

  // ---- overlap, instant by instant ----

  /** `e` pays `k` for an interval with `instant` inside. */
  predicate PaidAt(e: Settlement, k: Key, instant: real) {
    e.key == k && e.gb > 0.0 && e.start < instant < e.upTo
  }

  /** Two different intervals paid to `k` both have `instant` inside. */
  ghost predicate PaidTwiceAt(log: seq<Settlement>, k: Key, instant: real) {
    exists i, j :: 0 <= i < j < |log| && PaidAt(log[i], k, instant) && PaidAt(log[j], k, instant)
  }

  /** Entries end in the order they are logged, no later than `t`, and nothing is paid for no time. */
  predicate Tidy(log: seq<Settlement>, t: real) {
    && (forall i, j :: 0 <= i < j < |log| ==> log[i].upTo <= log[j].upTo)
    && (forall i :: 0 <= i < |log| ==> log[i].upTo <= t && (log[i].gb > 0.0 ==> log[i].start < log[i].upTo))
  }

  lemma TidyAppend(log: seq<Settlement>, es: seq<Settlement>, t: real, now: real)
    requires Tidy(log, t) && t <= now
    requires forall i :: 0 <= i < |es| ==> es[i].upTo == now && (es[i].gb > 0.0 ==> es[i].start < now)
    ensures Tidy(log + es, now)
  {
  }

  lemma AttestTidy(cfg: Config, s: Reg, p: PeerId, m: MemberId, gb: real, t: real, now: real)
    requires Tidy(s.log, t) && t <= now
    ensures var r := Attest(cfg, s, p, m, gb, now); r.Ok? ==> Tidy(r.value.log, now)
  {
    var r := Attest(cfg, s, p, m, gb, now);
    if r.Ok? {
      var e := r.value.log[|s.log|];
      assert r.value.log == s.log + [e];
      TidyAppend(s.log, [e], t, now);
    }
  }

  lemma BeatTidy(cfg: Config, s: Reg, p: PeerId, t: real, now: real, held: real, healthy: bool, detail: Detail)
    requires WellFormed(cfg) && Inv(cfg, s, t) && Tidy(s.log, t) && t <= now && p in cfg.peers
    ensures Tidy(RecordBeat(cfg, s, p, now, held, healthy, detail).log, now)
  {
    var es := BeatEntries(cfg, s, p, now);
    BeatIs(cfg, s, p, now, held, healthy, detail);
    forall i | 0 <= i < |es| ensures es[i].upTo == now && es[i].start < now {
      BeatEntryIs(cfg, s, p, now, es[i]);
    }
    TidyAppend(s.log, es, t, now);
  }

  lemma {:induction false} RunTidy(cfg: Config, es: seq<Event>, t0: real)
    requires WellFormed(cfg) && t0 >= 0.0 && Monotonic(t0, es)
    ensures Tidy(Run(cfg, es).log, Clock(t0, es))
  {
    if es != [] {
      var before, e := es[..|es| - 1], es[|es| - 1];
      var s, t := Run(cfg, before), Clock(t0, before);
      RunTidy(cfg, before, t0);
      RunKeeps(cfg, before, t0);
      match e {
        case Beat(p, now, later, gb, healthy, detail) =>
          if p in cfg.peers {
            var held := Capped(cfg.peers[p], gb);
            BeatTidy(cfg, s, p, t, now, held, healthy, detail);
            AttestTidy(cfg, RecordBeat(cfg, s, p, now, held, healthy, detail), p, cfg.peers[p].owner, held, now, later);
          }
        case Attests(p, m, now, gb) => AttestTidy(cfg, s, p, m, gb, t, now);
        case _ =>
      }
    }
  }

  /** Two paid intervals out of order share an instant. */
  lemma OverlapHasInstant(log: seq<Settlement>, i: nat, j: nat, t: real) returns (instant: real)
    requires Tidy(log, t) && i < j < |log| && log[i].key == log[j].key && log[i].gb > 0.0 && log[j].gb > 0.0
    requires log[j].start < log[i].upTo
    ensures PaidTwiceAt(log, log[i].key, instant)
  {
    instant := (Max(log[i].start, log[j].start) + log[i].upTo) / 2.0;
    assert PaidAt(log[i], log[i].key, instant) && PaidAt(log[j], log[i].key, instant);
  }

  /** Over any run, some instant is paid twice to `k` exactly when the guard of `PartitionExactly` fires for it. */
  lemma PaidOnceExactly(cfg: Config, es: seq<Event>, t0: real, k: Key)
    requires WellFormed(cfg) && t0 >= 0.0 && Monotonic(t0, es)
    ensures (exists instant :: PaidTwiceAt(Run(cfg, es).log, k, instant)) <==> RunReclaims(Paid, cfg, es, k)
  {
    var log := Run(cfg, es).log;
    RunTidy(cfg, es, t0);
    PartitionExactly(Paid, cfg, es, t0, k);
    if !Partitioned(Paid, log, k) {
      var i, j :| 0 <= i < j < |log| && log[i].key == k == log[j].key && Counts(Paid, log[i]) && log[j].gb > 0.0
                  && log[j].start < log[i].upTo;
      var instant := OverlapHasInstant(log, i, j, Clock(t0, es));
    }
    if instant :| PaidTwiceAt(log, k, instant) {
      PaidTwiceBreaks(log, k, instant);
    }
  }

  /** Time paid twice is what the partition excludes. */
  lemma PaidTwiceBreaks(log: seq<Settlement>, k: Key, instant: real)
    requires PaidTwiceAt(log, k, instant)
    ensures !Partitioned(Paid, log, k)
  {
  }

  // ---- a run in which it fails ----

  predicate TwoShares(p: Peer) {
    && p.id == "p" && p.owner == "bob" && p.capacityGb == 2.0 && p.maxConcurrent == 1
    && p.contributors == [Contribution("alice", 1.0), Contribution("carol", 1.0)]
  }

  function OnePeer(p: Peer): Config {
    Config(map["p" := p], ["p"], 90.0, 300.0, 32)
  }

  function LateBeatRun(d: Detail): seq<Event> {
    [Beat("p", 0.0, 0.0, 2.0, true, d), Attests("p", "alice", 0.0, 1.0), Attests("p", "alice", 100.0, 1.0),
     Beat("p", 200.0, 200.0, 2.0, true, d)]
  }

  lemma LateBeatClock(d: Detail)
    ensures Monotonic(0.0, LateBeatRun(d))
    ensures Monotonic(0.0, LateBeatRun(d)[..2]) && Clock(0.0, LateBeatRun(d)[..2]) == 0.0
    ensures Monotonic(0.0, LateBeatRun(d)[..1]) && Clock(0.0, LateBeatRun(d)[..1]) == 0.0
  {
    var es := LateBeatRun(d);
    var es1, es2, es3 := es[..1], es[..2], es[..3];
    assert es3[..2] == es2 && es2[..1] == es1 && es1[..0] == [];
    assert Monotonic(0.0, es1) && Clock(0.0, es1) == 0.0;
    assert Monotonic(0.0, es2) && Clock(0.0, es2) == 0.0;
    assert Monotonic(0.0, es3) && Clock(0.0, es3) == 100.0;
  }

  lemma FirstBeat(p: Peer, d: Detail)
    requires TwoShares(p)
    ensures WellFormed(OnePeer(p))
    ensures var s := Run(OnePeer(p), LateBeatRun(d)[..1]);
            "p" in s.states && Owed(s.states["p"], 200.0) && s.states["p"].residentGb == 2.0 &&
            s.states["p"].lastCredited == 0.0 && s.attest == map[]
  {
    var es1 := LateBeatRun(d)[..1];
    assert es1[..0] == [];
    assert !Contributes(p, "bob");
  }

  lemma TwoPayments(log: seq<Settlement>, late: seq<Settlement>, k: Key, instant: real)
    requires log != [] && PaidAt(log[|log| - 1], k, instant) && exists e :: e in late && PaidAt(e, k, instant)
    ensures PaidTwiceAt(log + late, k, instant)
  {
    var j :| 0 <= j < |late| && PaidAt(late[j], k, instant);
    assert (log + late)[|log| - 1] == log[|log| - 1] && (log + late)[|log| + j] == late[j];
  }

  /** Alice's own word, heard at 0 and 100, pays her for the time between. */
  lemma AliceIsPaid(p: Peer, d: Detail)
    requires TwoShares(p)
    ensures var s := Run(OnePeer(p), LateBeatRun(d)[..3]);
            var k := Key("p", "alice");
            && s.states == Run(OnePeer(p), LateBeatRun(d)[..1]).states
            && s.log != [] && s.log[|s.log| - 1] == Settlement(k, 0.0, 100.0, 1.0, OwnWord)
            && k in s.attest && s.attest[k].lastSeen == 100.0
  {
    var cfg, es := OnePeer(p), LateBeatRun(d);
    FirstBeat(p, d);
    assert es[..3][..2] == es[..2] && es[..2][..1] == es[..1];
    assert p.contributors[0].member == "alice";
    var s1 := Run(cfg, es[..1]);
    var s2 := Run(cfg, es[..2]);
    assert s2 == Attest(cfg, s1, "p", "alice", 1.0, 0.0).value;
    assert Run(cfg, es[..3]) == Attest(cfg, s2, "p", "alice", 1.0, 100.0).value;
  }

  /** The late beat pays her on the owner's word for all of the 200 seconds. */
  lemma AliceIsPaidAgain(p: Peer, d: Detail)
    requires TwoShares(p)
    ensures var s := Run(OnePeer(p), LateBeatRun(d)[..3]);
            exists e :: e in BeatEntries(OnePeer(p), s, "p", 200.0) && PaidAt(e, Key("p", "alice"), 50.0)
  {
    var cfg := OnePeer(p);
    var s := Run(cfg, LateBeatRun(d)[..3]);
    FirstBeat(p, d);
    AliceIsPaid(p, d);
    var shares := CreditSplit(p, 2.0);
    SplitMembers(p, 2.0);
    SumGbPositive(p.contributors);
    assert shares[0].member == "alice";
    EntriesComplete(s, cfg.timeout, "p", shares, 200.0, 200.0, true, 0);
    assert PaidAt(Settlement(Key("p", "alice"), 0.0, 200.0, shares[0].gb, HeadsWord), Key("p", "alice"), 50.0);
  }

  lemma LateBeatLogs(p: Peer, d: Detail)
    requires TwoShares(p)
    ensures WellFormed(OnePeer(p))
    ensures var s := Run(OnePeer(p), LateBeatRun(d)[..3]);
            Run(OnePeer(p), LateBeatRun(d)).log == s.log + BeatEntries(OnePeer(p), s, "p", 200.0)
  {
    var cfg, es := OnePeer(p), LateBeatRun(d);
    FirstBeat(p, d);
    assert es[..|es| - 1] == es[..3];
    BeatIs(cfg, Run(cfg, es[..3]), "p", 200.0, Capped(p, 2.0), true, d);
    assert !Contributes(p, "bob");
  }

  /**
   The partition does fail: with beats at 0 and 200 and alice attesting at 0 and 100 in between, the
   owner's second beat pays her for the whole 200 seconds, the first 100 of which she was paid for.
   */
  lemma PartitionCanFail(p: Peer, d: Detail)
    requires TwoShares(p)
    ensures WellFormed(OnePeer(p)) && Monotonic(0.0, LateBeatRun(d))
    ensures var log := Run(OnePeer(p), LateBeatRun(d)).log;
            PaidTwiceAt(log, Key("p", "alice"), 50.0) && !Partitioned(Paid, log, Key("p", "alice"))
  {
    var k, s := Key("p", "alice"), Run(OnePeer(p), LateBeatRun(d)[..3]);
    LateBeatClock(d);
    LateBeatLogs(p, d);
    AliceIsPaid(p, d);
    AliceIsPaidAgain(p, d);
    TwoPayments(s.log, BeatEntries(OnePeer(p), s, "p", 200.0), k, 50.0);
    PaidTwiceBreaks(Run(OnePeer(p), LateBeatRun(d)).log, k, 50.0);
  }
}
