/** Whether time is left out: what the two paths settle between them, and exactly when a gap opens. */
module Coverage {
  import opened Wrappers
  import opened Peers
  import opened Ledgers
  import opened Registry
  import opened Crediting

  /** Where `e` may start without leaving time out after `end`; time older than five minutes is forfeit. */
  function Reach(end: real, e: Settlement): real {
    Max(end, e.upTo - MAX_CREDITED_INTERVAL)
  }

  ghost predicate Heard(log: seq<Settlement>, k: Key) {
    exists i :: 0 <= i < |log| && log[i].key == k
  }

  /** `e` begins no later than where some earlier entry of its key ended. */
  ghost predicate Meets(log: seq<Settlement>, e: Settlement) {
    exists i :: 0 <= i < |log| && log[i].key == e.key && e.start <= Reach(log[i].upTo, e)
  }

  /** Each entry but the first of its key takes up where an earlier one left off. */
  ghost predicate Covered(log: seq<Settlement>) {
    forall j :: 0 <= j < |log| && Heard(log[..j], log[j].key) ==> Meets(log[..j], log[j])
  }

  /** So every instant since a key was first settled lies in one of its entries, unless it was forfeit. */
  lemma CoveredLeavesNothingOut(log: seq<Settlement>, first: nat, last: nat, instant: real)
    requires Covered(log) && first < |log| && last < |log| && log[last].key == log[first].key
    requires log[first].start <= instant < log[last].upTo
    requires forall i :: 0 <= i < first ==> log[i].key != log[first].key
    requires forall i :: 0 <= i < |log| && log[i].key == log[first].key ==> !(instant < log[i].start <= log[i].upTo - MAX_CREDITED_INTERVAL)
    ensures exists i :: 0 <= i < |log| && log[i].key == log[first].key && log[i].start <= instant < log[i].upTo
  {
    var j := FirstPast(log, log[first].key, instant, last);
    if j != first {
      assert log[..j][first] == log[first];
      assert Heard(log[..j], log[j].key);
      var i :| 0 <= i < j && log[..j][i].key == log[j].key && log[j].start <= Reach(log[..j][i].upTo, log[j]);
      assert log[i].upTo <= instant;
    }
  }

  lemma {:induction false} FirstPast(log: seq<Settlement>, k: Key, instant: real, last: nat) returns (j: nat)
    requires last < |log| && log[last].key == k && instant < log[last].upTo
    ensures j <= last && log[j].key == k && instant < log[j].upTo
    ensures forall i :: 0 <= i < j && log[i].key == k ==> log[i].upTo <= instant
  {
    j := last;
    if i: nat :| i < last && log[i].key == k && instant < log[i].upTo {
      j := FirstPast(log, k, instant, i);
    }
  }

  // ---- one step ----

  lemma OthersDoNotMatter(log: seq<Settlement>, es: seq<Settlement>, m: nat)
    requires DistinctKeys(es) && m < |es|
    ensures Heard(log + es[..m], es[m].key) <==> Heard(log, es[m].key)
    ensures Meets(log + es[..m], es[m]) <==> Meets(log, es[m])
  {
    var before := log + es[..m];
    forall i | |log| <= i < |before| ensures before[i].key != es[m].key {
      assert before[i] == es[i - |log|];
    }
    forall i | 0 <= i < |log| ensures before[i] == log[i] {}
  }

  lemma PrefixOfBoth(log: seq<Settlement>, es: seq<Settlement>, j: nat)
    requires j <= |log| + |es|
    ensures (log + es)[..j] == if j <= |log| then log[..j] else log + es[..j - |log|]
  {
  }

  ghost predicate AllMeet(log: seq<Settlement>, es: seq<Settlement>) {
    forall m :: 0 <= m < |es| && Heard(log, es[m].key) ==> Meets(log, es[m])
  }

  /** Adding entries under different keys keeps coverage exactly when each meets what went before. */
  lemma CoveredAppend(log: seq<Settlement>, es: seq<Settlement>)
    requires DistinctKeys(es)
    ensures Covered(log + es) <==> Covered(log) && AllMeet(log, es)
  {
    var log' := log + es;
    if Covered(log) && AllMeet(log, es) {
      forall j | 0 <= j < |log'| && Heard(log'[..j], log'[j].key) ensures Meets(log'[..j], log'[j]) {
        PrefixOfBoth(log, es, j);
        if j >= |log| { OthersDoNotMatter(log, es, j - |log|); }
      }
    }
    if Covered(log') {
      forall j | 0 <= j < |log| && Heard(log[..j], log[j].key) ensures Meets(log[..j], log[j]) {
        PrefixOfBoth(log, es, j);
        assert log'[j] == log[j];
      }
      forall m | 0 <= m < |es| && Heard(log, es[m].key) ensures Meets(log, es[m]) {
        PrefixOfBoth(log, es, |log| + m);
        assert log'[|log| + m] == es[m];
        OthersDoNotMatter(log, es, m);
      }
    }
  }

  /** What has been heard of a key, and how far, is what its attestation says. */
  lemma MeetsIs(s: Reg, e: Settlement)
    requires LogMatches(s)
    ensures Heard(s.log, e.key) <==> e.key in s.attest
    ensures e.key in s.attest ==> (Meets(s.log, e) <==> e.start <= Reach(s.attest[e.key].lastCredited, e))
  {
    forall i | 0 <= i < |s.log| ensures Within(s.log[i], s.attest) { assert s.log[i] in s.log; }
    if e.key in s.attest {
      assert SettlesUpTo(s.log, e.key, s.attest[e.key].lastCredited);
      var f :| f in s.log && f.key == e.key && f.upTo == s.attest[e.key].lastCredited;
      var i :| 0 <= i < |s.log| && s.log[i] == f;
    }
  }

  /** `k` was settled on its own word before the owner's last beat, when it was skipped, and is silent now. */
  predicate LeftBehind(cfg: Config, s: Reg, k: Key, now: real)
    requires k.peer in s.states
  {
    && k in s.attest && !Attesting(s, cfg.timeout, k, now)
    && s.attest[k].lastCredited < s.states[k.peer].lastCredited
    && now - MAX_CREDITED_INTERVAL < s.states[k.peer].lastCredited
  }

  /** The guard under which an owner's beat at `now` leaves out time of one of its contributors. */
  predicate Skips(cfg: Config, s: Reg, p: PeerId, now: real) {
    && p in cfg.peers && p in s.states && now > s.states[p].lastCredited
    && var shares := CreditSplit(cfg.peers[p], s.states[p].residentGb);
       exists i :: 0 <= i < |shares| && LeftBehind(cfg, s, Key(p, shares[i].member), now)
  }

  lemma BeatEntryMeets(cfg: Config, s: Reg, p: PeerId, t: real, now: real, e: Settlement)
    requires WellFormed(cfg) && Inv(cfg, s, t) && p in cfg.peers && e in BeatEntries(cfg, s, p, now)
    ensures p in s.states && e.key.peer == p
    ensures (Heard(s.log, e.key) ==> Meets(s.log, e)) <==> !LeftBehind(cfg, s, e.key, now)
  {
    BeatEntryIs(cfg, s, p, now, e);
    MeetsIs(s, e);
  }

  lemma SkippedEntry(cfg: Config, s: Reg, p: PeerId, t: real, now: real) returns (e: Settlement)
    requires WellFormed(cfg) && Inv(cfg, s, t) && Skips(cfg, s, p, now)
    ensures e in BeatEntries(cfg, s, p, now) && e.key.peer == p && LeftBehind(cfg, s, e.key, now)
  {
    var st := s.states[p];
    var shares := CreditSplit(cfg.peers[p], st.residentGb);
    var elapsed := Min(now - st.lastCredited, MAX_CREDITED_INTERVAL);
    var i :| 0 <= i < |shares| && LeftBehind(cfg, s, Key(p, shares[i].member), now);
    EntriesComplete(s, cfg.timeout, p, shares, now, elapsed, Owed(st, now), i);
    e := Settlement(Key(p, shares[i].member), now - elapsed, now, if Owed(st, now) then shares[i].gb else 0.0, HeadsWord);
  }

  lemma EntryIsShare(cfg: Config, s: Reg, p: PeerId, now: real, e: Settlement)
    requires WellFormed(cfg) && p in cfg.peers && p in s.states && s.states[p].residentGb >= 0.0
    requires e in BeatEntries(cfg, s, p, now) && e.key.peer == p && LeftBehind(cfg, s, e.key, now)
    ensures Skips(cfg, s, p, now)
  {
    BeatEntryIs(cfg, s, p, now, e);
    var shares := CreditSplit(cfg.peers[p], s.states[p].residentGb);
    assert Named(shares, e.key.member);
    var i :| 0 <= i < |shares| && shares[i].member == e.key.member;
    assert e.key == Key(p, shares[i].member);
  }

  lemma BeatCovers(cfg: Config, s: Reg, p: PeerId, t: real, now: real, held: real, healthy: bool, detail: Detail)
    requires WellFormed(cfg) && Inv(cfg, s, t) && t <= now && p in cfg.peers
    ensures Covered(RecordBeat(cfg, s, p, now, held, healthy, detail).log) <==> Covered(s.log) && !Skips(cfg, s, p, now)
  {
    BeatIs(cfg, s, p, now, held, healthy, detail);
    var es := BeatEntries(cfg, s, p, now);
    CoveredAppend(s.log, es);
    if Skips(cfg, s, p, now) {
      var e := SkippedEntry(cfg, s, p, t, now);
      var m :| 0 <= m < |es| && es[m] == e;
      BeatEntryMeets(cfg, s, p, t, now, es[m]);
    } else {
      forall m | 0 <= m < |es| && Heard(s.log, es[m].key) ensures Meets(s.log, es[m]) {
        BeatEntryMeets(cfg, s, p, t, now, es[m]);
        if LeftBehind(cfg, s, es[m].key, now) { EntryIsShare(cfg, s, p, now, es[m]); }
      }
    }
  }

  /** An attestation takes up exactly where its key was last settled. */
  lemma AttestCovers(cfg: Config, s: Reg, p: PeerId, m: MemberId, gb: real, t: real, now: real)
    requires WellFormed(cfg) && Inv(cfg, s, t) && t <= now && Attest(cfg, s, p, m, gb, now).Ok?
    ensures Covered(Attest(cfg, s, p, m, gb, now).value.log) <==> Covered(s.log)
  {
    var log' := Attest(cfg, s, p, m, gb, now).value.log;
    var e := log'[|s.log|];
    assert log' == s.log + [e];
    CoveredAppend(s.log, [e]);
    MeetsIs(s, e);
    assert AllMeet(s.log, [e]);
  }

  lemma StepCovers(cfg: Config, s: Reg, e: Event, t: real)
    requires WellFormed(cfg) && Inv(cfg, s, t) && ReadsForward(t, e)
    ensures Covered(Step(cfg, s, e).log) <==> Covered(s.log) && !(e.Beat? && Skips(cfg, s, e.peer, e.now))
  {
    match e {
      case Beat(p, now, later, gb, healthy, detail) =>
        if p in cfg.peers {
          var held := Capped(cfg.peers[p], gb);
          var mid := RecordBeat(cfg, s, p, now, held, healthy, detail);
          BeatKeeps(cfg, s, p, t, now, gb, healthy, detail);
          BeatCovers(cfg, s, p, t, now, held, healthy, detail);
          if Attest(cfg, mid, p, cfg.peers[p].owner, held, later).Ok? {
            AttestCovers(cfg, mid, p, cfg.peers[p].owner, held, now, later);
          }
        }
      case Attests(p, m, now, gb) =>
        if Attest(cfg, s, p, m, gb, now).Ok? { AttestCovers(cfg, s, p, m, gb, t, now); }
      case _ => QuietStepKeeps(cfg, s, e, t);
    }
  }

  // ---- every run ----

  /** Some owner's beat of the run meets the guard. */
  predicate RunSkips(cfg: Config, es: seq<Event>) {
    es != [] &&
    (RunSkips(cfg, es[..|es| - 1]) ||
     (es[|es| - 1].Beat? && Skips(cfg, Run(cfg, es[..|es| - 1]), es[|es| - 1].peer, es[|es| - 1].now)))
  }

  /**
   Over any run: no time is left out between the entries of a key, but for what is older than five
   minutes, if and only if no owner's beat finds a contributor that fell silent after an earlier beat
   had left it to its own word.
   */
  lemma {:induction false} JoinsExactly(cfg: Config, es: seq<Event>, t0: real)
    requires WellFormed(cfg) && t0 >= 0.0 && Monotonic(t0, es)
    ensures Covered(Run(cfg, es).log) <==> !RunSkips(cfg, es)
  {
    if es != [] {
      var before := es[..|es| - 1];
      JoinsExactly(cfg, before, t0);
      RunKeeps(cfg, before, t0);
      StepCovers(cfg, Run(cfg, before), es[|es| - 1], Clock(t0, before));
    }
  }

  // ---- from the owner's last credited point, first entries included ----

  /** The owner's last word is that the group can serve and holds something. */
  predicate Serving(s: Reg, p: PeerId) {
    p in s.states && s.states[p].healthy && s.states[p].residentGb > 0.0
  }

  /** `k` has been heard itself. */
  ghost predicate Spoken(log: seq<Settlement>, k: Key) {
    exists i :: 0 <= i < |log| && log[i].key == k && log[i].path == OwnWord
  }

  /** From when `e.key` has time coming to it: where it was last settled or, before that, the owner's last beat. */
  function DueFrom(s: Reg, e: Settlement): real {
    if e.key in s.attest then s.attest[e.key].lastCredited
    else if Serving(s, e.key.peer) then s.states[e.key.peer].lastCredited
    else e.upTo
  }

  /** Why `k` may be settled for nothing: its group is out, or it said itself that it held nothing. */
  ghost predicate Excused(s: Reg, k: Key) {
    !Serving(s, k.peer) || (Spoken(s.log, k) && k in s.attest && s.attest[k].residentGb == 0.0)
  }

  /** `e`, about to be logged, leaves out no time that is due and settles none for nothing without excuse. */
  ghost predicate Accounts(s: Reg, e: Settlement) {
    e.start <= Reach(DueFrom(s, e), e) && (DueFrom(s, e) < e.upTo && e.gb == 0.0 ==> Excused(s, e.key))
  }

  /** Every entry logged between two moments accounts for its key's time, judged at the first of them. */
  ghost predicate AccountsSince(before: Reg, after: Reg) {
    forall j :: |before.log| <= j < |after.log| ==> Accounts(before, after.log[j])
  }

  /** The registry between the two halves of an owner's beat: the split is settled, the owner has yet to attest. */
  function Midway(cfg: Config, s: Reg, e: Event): Reg
    requires e.Beat? && e.peer in cfg.peers
  {
    RecordBeat(cfg, s, e.peer, e.now, Capped(cfg.peers[e.peer], e.gb), e.healthy, e.detail)
  }

  ghost predicate StepAccounts(cfg: Config, s: Reg, e: Event) {
    if e.Beat? && e.peer in cfg.peers then
      AccountsSince(s, Midway(cfg, s, e)) && AccountsSince(Midway(cfg, s, e), Step(cfg, s, e))
    else
      AccountsSince(s, Step(cfg, s, e))
  }

  /** Over the whole run no time that was due is left out, or settled for nothing without excuse. */
  ghost predicate RunAccounts(cfg: Config, es: seq<Event>) {
    es == [] || (RunAccounts(cfg, es[..|es| - 1]) && StepAccounts(cfg, Run(cfg, es[..|es| - 1]), es[|es| - 1]))
  }

  /** The guard under which `k`'s own word at `now` costs it time: its first one, while the group serves. */
  ghost predicate WordLoses(s: Reg, k: Key, now: real) {
    && Serving(s, k.peer) && !Spoken(s.log, k)
    && now > if k in s.attest then s.attest[k].lastCredited else s.states[k.peer].lastCredited
  }

  ghost predicate Loses(cfg: Config, s: Reg, e: Event) {
    match e
    case Beat(p, now, later, _, _, _) =>
      Skips(cfg, s, p, now) ||
      (p in cfg.peers && Contributes(cfg.peers[p], cfg.peers[p].owner) &&
       WordLoses(Midway(cfg, s, e), Key(p, cfg.peers[p].owner), later))
    case Attests(p, m, now, _) =>
      p in cfg.peers && Contributes(cfg.peers[p], m) && WordLoses(s, Key(p, m), now)
    case _ => false
  }

  /** Some owner's beat or member's word of the run meets its guard. */
  ghost predicate RunLoses(cfg: Config, es: seq<Event>) {
    es != [] && (RunLoses(cfg, es[..|es| - 1]) || Loses(cfg, Run(cfg, es[..|es| - 1]), es[|es| - 1]))
  }

  /** Who has not spoken holds nothing by its own account, and who has been heard has an attestation. */
  ghost predicate SilentHoldNothing(s: Reg) {
    && (forall k :: k in s.attest && s.attest[k].residentGb > 0.0 ==> Spoken(s.log, k))
    && (forall k :: Spoken(s.log, k) ==> k in s.attest)
  }

  lemma SpokenStays(log: seq<Settlement>, more: seq<Settlement>, k: Key)
    requires forall e :: e in more && e.path == OwnWord ==> e.key != k
    ensures Spoken(log + more, k) <==> Spoken(log, k)
  {
    if Spoken(log, k) {
      var i :| 0 <= i < |log| && log[i].key == k && log[i].path == OwnWord;
      assert (log + more)[i] == log[i];
    }
    if i :| 0 <= i < |log + more| && (log + more)[i].key == k && (log + more)[i].path == OwnWord {
      assert i >= |log| ==> (log + more)[i] in more;
    }
  }

  lemma WordKeepsSilent(cfg: Config, s: Reg, p: PeerId, m: MemberId, gb: real, now: real)
    requires SilentHoldNothing(s) && Attest(cfg, s, p, m, gb, now).Ok?
    ensures SilentHoldNothing(Attest(cfg, s, p, m, gb, now).value)
  {
    var s' := Attest(cfg, s, p, m, gb, now).value;
    var e := s'.log[|s.log|];
    assert s'.log == s.log + [e] && s'.log[|s.log|].key == Key(p, m) && s'.log[|s.log|].path == OwnWord;
    forall k | k != Key(p, m) ensures Spoken(s'.log, k) <==> Spoken(s.log, k) { SpokenStays(s.log, [e], k); }
  }

  lemma BeatKeepsSilent(cfg: Config, s: Reg, p: PeerId, t: real, now: real, held: real, healthy: bool, detail: Detail)
    requires WellFormed(cfg) && Inv(cfg, s, t) && SilentHoldNothing(s) && p in cfg.peers
    ensures SilentHoldNothing(RecordBeat(cfg, s, p, now, held, healthy, detail))
    ensures forall k :: Spoken(RecordBeat(cfg, s, p, now, held, healthy, detail).log, k) <==> Spoken(s.log, k)
  {
    var s' := RecordBeat(cfg, s, p, now, held, healthy, detail);
    BeatIs(cfg, s, p, now, held, healthy, detail);
    var es := BeatEntries(cfg, s, p, now);
    forall e | e in es ensures e.path == HeadsWord { BeatEntryIs(cfg, s, p, now, e); }
    forall k ensures Spoken(s'.log, k) <==> Spoken(s.log, k) { SpokenStays(s.log, es, k); }
  }

  lemma StepKeepsSilent(cfg: Config, s: Reg, e: Event, t: real)
    requires WellFormed(cfg) && Inv(cfg, s, t) && SilentHoldNothing(s)
    ensures SilentHoldNothing(Step(cfg, s, e))
  {
    match e {
      case Beat(p, now, later, gb, healthy, detail) =>
        if p in cfg.peers {
          var held := Capped(cfg.peers[p], gb);
          BeatKeepsSilent(cfg, s, p, t, now, held, healthy, detail);
          var mid := Midway(cfg, s, e);
          if Attest(cfg, mid, p, cfg.peers[p].owner, held, later).Ok? {
            WordKeepsSilent(cfg, mid, p, cfg.peers[p].owner, held, later);
          }
        }
      case Attests(p, m, now, gb) =>
        if Attest(cfg, s, p, m, gb, now).Ok? { WordKeepsSilent(cfg, s, p, m, gb, now); }
      case _ => QuietStepKeeps(cfg, s, e, t);
    }
  }

  /** A word accounts for its member's time unless it is the first and the group was serving. */
  lemma WordAccounts(cfg: Config, s: Reg, p: PeerId, m: MemberId, gb: real, t: real, now: real)
    requires WellFormed(cfg) && Inv(cfg, s, t) && SilentHoldNothing(s) && t <= now && Attest(cfg, s, p, m, gb, now).Ok?
    ensures AccountsSince(s, Attest(cfg, s, p, m, gb, now).value) <==> !WordLoses(s, Key(p, m), now)
  {
    var s', k := Attest(cfg, s, p, m, gb, now).value, Key(p, m);
    var e := s'.log[|s.log|];
    assert s'.log == s.log + [e];
    if k in s.attest { assert ConsistentAttestation(cfg, s, k, t); }
    assert Accounts(s, e) <==> !WordLoses(s, k, now);
  }

  /** An entry of a beat accounts for its member's time unless the member was left behind. */
  lemma BeatEntryAccounts(cfg: Config, s: Reg, p: PeerId, t: real, now: real, e: Settlement)
    requires WellFormed(cfg) && Inv(cfg, s, t) && p in cfg.peers && e in BeatEntries(cfg, s, p, now)
    ensures p in s.states && e.key.peer == p
    ensures Accounts(s, e) <==> !LeftBehind(cfg, s, e.key, now)
  {
    BeatEntryIs(cfg, s, p, now, e);
    if Owed(s.states[p], now) { OwedEntryPays(cfg, s, p, now, e); }
  }

  lemma OwedEntryPays(cfg: Config, s: Reg, p: PeerId, now: real, e: Settlement)
    requires WellFormed(cfg) && p in cfg.peers && e in BeatEntries(cfg, s, p, now)
    requires p in s.states && Owed(s.states[p], now)
    ensures e.gb > 0.0
  {
    var st := s.states[p];
    var shares := CreditSplit(cfg.peers[p], st.residentGb);
    SplitMembers(cfg.peers[p], st.residentGb);
    var elapsed := Min(now - st.lastCredited, MAX_CREDITED_INTERVAL);
    EntriesSound(s, cfg.timeout, p, shares, now, elapsed, true);
    assert EntryOf(e, s, cfg.timeout, p, shares, now, elapsed, true);
    var j :| 0 <= j < |shares| && PaysShare(e, shares[j], true);
  }

  lemma BeatAccounts(cfg: Config, s: Reg, p: PeerId, t: real, now: real, held: real, healthy: bool, detail: Detail)
    requires WellFormed(cfg) && Inv(cfg, s, t) && t <= now && p in cfg.peers
    ensures AccountsSince(s, RecordBeat(cfg, s, p, now, held, healthy, detail)) <==> !Skips(cfg, s, p, now)
  {
    BeatIs(cfg, s, p, now, held, healthy, detail);
    var s', es := RecordBeat(cfg, s, p, now, held, healthy, detail), BeatEntries(cfg, s, p, now);
    if Skips(cfg, s, p, now) {
      var e := SkippedEntry(cfg, s, p, t, now);
      var m :| 0 <= m < |es| && es[m] == e;
      BeatEntryAccounts(cfg, s, p, t, now, e);
      assert s'.log[|s.log| + m] == e;
    } else {
      forall j | |s.log| <= j < |s'.log| ensures Accounts(s, s'.log[j]) {
        var e := s'.log[j];
        assert e == es[j - |s.log|];
        BeatEntryAccounts(cfg, s, p, t, now, e);
        if LeftBehind(cfg, s, e.key, now) { EntryIsShare(cfg, s, p, now, e); }
      }
    }
  }

  lemma StepAccountsExactly(cfg: Config, s: Reg, e: Event, t: real)
    requires WellFormed(cfg) && Inv(cfg, s, t) && SilentHoldNothing(s) && ReadsForward(t, e)
    ensures StepAccounts(cfg, s, e) <==> !Loses(cfg, s, e)
  {
    match e {
      case Beat(p, now, later, gb, healthy, detail) =>
        if p in cfg.peers {
          var held := Capped(cfg.peers[p], gb);
          BeatKeeps(cfg, s, p, t, now, gb, healthy, detail);
          BeatKeepsSilent(cfg, s, p, t, now, held, healthy, detail);
          BeatAccounts(cfg, s, p, t, now, held, healthy, detail);
          var mid := Midway(cfg, s, e);
          if Attest(cfg, mid, p, cfg.peers[p].owner, held, later).Ok? {
            WordAccounts(cfg, mid, p, cfg.peers[p].owner, held, now, later);
          }
        }
      case Attests(p, m, now, gb) =>
        if Attest(cfg, s, p, m, gb, now).Ok? { WordAccounts(cfg, s, p, m, gb, t, now); }
      case _ => QuietStepKeeps(cfg, s, e, t);
    }
  }

  /**
   Over any run: no time due to a member is left out, or settled for nothing without excuse, if and
   only if no owner's beat meets the guard of `JoinsExactly` and no member's first own word comes,
   while the group serves, after it was last settled or its owner last beat.
   */
  lemma {:induction false} CoversExactly(cfg: Config, es: seq<Event>, t0: real)
    requires WellFormed(cfg) && t0 >= 0.0 && Monotonic(t0, es)
    ensures SilentHoldNothing(Run(cfg, es))
    ensures RunAccounts(cfg, es) <==> !RunLoses(cfg, es)
    ensures RunAccounts(cfg, es) ==> Covered(Run(cfg, es).log)
  {
    if es != [] {
      var before, e := es[..|es| - 1], es[|es| - 1];
      CoversExactly(cfg, before, t0);
      RunKeeps(cfg, before, t0);
      StepKeepsSilent(cfg, Run(cfg, before), e, Clock(t0, before));
      StepAccountsExactly(cfg, Run(cfg, before), e, Clock(t0, before));
      if RunAccounts(cfg, es) { StepCovers(cfg, Run(cfg, before), e, Clock(t0, before)); }
    }
  }

  // ---- a run in which a gap opens ----

  function FallsSilent(d: Detail): seq<Event> {
    [Beat("p", 1000.0, 1000.0, 2.0, true, d), Attests("p", "alice", 1000.0, 1.0),
     Beat("p", 1060.0, 1060.0, 2.0, true, d), Beat("p", 1120.0, 1120.0, 2.0, true, d)]
  }

  lemma {:induction false} Next(cfg: Config, es: seq<Event>, i: nat)
    requires i < |es|
    ensures Run(cfg, es[..i + 1]) == Step(cfg, Run(cfg, es[..i]), es[i])
  {
    assert es[..i + 1][..i] == es[..i];
  }

  lemma {:induction false} NextReading(t0: real, es: seq<Event>, i: nat)
    requires i < |es|
    ensures Monotonic(t0, es[..i + 1]) <==> Monotonic(t0, es[..i]) && ReadsForward(Clock(t0, es[..i]), es[i])
    ensures Clock(t0, es[..i + 1]) == ClockAfter(Clock(t0, es[..i]), es[i])
  {
    assert es[..i + 1][..i] == es[..i];
  }

  lemma EvenShares(p: Peer)
    requires TwoShares(p)
    ensures WellFormed(OnePeer(p)) && !Contributes(p, "bob") && Contributes(p, "alice") && Declared(p, "alice") == 1.0
    ensures CreditSplit(p, 2.0) == [Share("alice", 1.0), Share("carol", 1.0)]
  {
    var cs := p.contributors;
    assert cs[0].member == "alice" && cs[1].member == "carol";
    assert cs[..1] == [cs[0]] && cs[..1][..0] == [];
    assert SumGb(cs[..1]) == 1.0 && SumGb(cs) == 2.0;
  }

  lemma TwoSettled(s: Reg, timeout: real, p: PeerId, a: Share, b: Share, now: real, elapsed: real, owed: bool)
    ensures SettleShares(s, timeout, p, [a, b], now, elapsed, owed) ==
            SettleShare(SettleShare(s, timeout, Key(p, a.member), a.gb, now, elapsed, owed),
                        timeout, Key(p, b.member), b.gb, now, elapsed, owed)
  {
    assert [a, b][..1] == [a] && [a][..0] == [];
    assert SettleShares(s, timeout, p, [], now, elapsed, owed) == s;
  }

  /** One more beat of the group, everybody in good health. */
  lemma NextBeat(p: Peer, d: Detail, s: Reg, now: real)
    requires TwoShares(p) && "p" in s.states
    requires s.states["p"] == PeerState(now - 60.0, 2.0, 0, true, 0, d, now - 60.0)
    ensures var cfg, alice, carol := OnePeer(p), Key("p", "alice"), Key("p", "carol");
            var s' := Step(cfg, s, Beat("p", now, now, 2.0, true, d));
            && s'.states == s.states["p" := PeerState(now, 2.0, 0, true, 0, d, now)]
            && s' == SettleShare(SettleShare(s, 90.0, alice, 1.0, now, 60.0, true), 90.0, carol, 1.0, now, 60.0, true).(states := s'.states)
  {
    EvenShares(p);
    TwoSettled(s, 90.0, "p", Share("alice", 1.0), Share("carol", 1.0), now, 60.0, true);
    assert Capped(p, 2.0) == 2.0 && Owed(s.states["p"], now);
  }

  /** Once the owner has beaten and alice has spoken. */
  function AfterAlice(d: Detail): Reg {
    var k := Key("p", "alice");
    Reg(map["p" := PeerState(1000.0, 2.0, 0, true, 0, d, 1000.0)], map[k := Attestation(1000.0, 1.0, 1000.0)],
        Books([], []), [Settlement(k, 1000.0, 1000.0, 0.0, OwnWord)])
  }

  lemma AliceSpeaks(p: Peer, d: Detail)
    requires TwoShares(p)
    ensures Run(OnePeer(p), FallsSilent(d)[..2]) == AfterAlice(d)
  {
    var cfg, es := OnePeer(p), FallsSilent(d);
    EvenShares(p);
    assert es[..0] == [];
    Next(cfg, es, 0);
    Next(cfg, es, 1);
    assert Capped(p, 2.0) == 2.0;
  }

  lemma OnlyCarolIsPaid(s: Reg, alice: Key, carol: Key)
    requires alice != carol && s.attest == map[alice := Attestation(1000.0, 1.0, 1000.0)] && carol.peer == "p" && carol.member == "carol"
    ensures var s' := SettleShare(SettleShare(s, 90.0, alice, 1.0, 1060.0, 60.0, true), 90.0, carol, 1.0, 1060.0, 60.0, true);
            && s'.attest == map[alice := Attestation(1000.0, 1.0, 1000.0), carol := Attestation(0.0, 0.0, 1060.0)]
            && s'.books == s.books.(contributions := s.books.contributions + [Contributed("p", "carol", 1.0, 60.0)])
            && s'.log == s.log + [Settlement(carol, 1000.0, 1060.0, 1.0, HeadsWord)]
  {
    assert SettleShare(s, 90.0, alice, 1.0, 1060.0, 60.0, true) == s;
  }

  ghost predicate OnlyCarolPaid(s: Reg, d: Detail) {
    var alice, carol := Key("p", "alice"), Key("p", "carol");
    && s.states == map["p" := PeerState(1060.0, 2.0, 0, true, 0, d, 1060.0)]
    && s.attest == map[alice := Attestation(1000.0, 1.0, 1000.0), carol := Attestation(0.0, 0.0, 1060.0)]
    && s.books == Books([Contributed("p", "carol", 1.0, 60.0)], [])
    && s.log == [Settlement(alice, 1000.0, 1000.0, 0.0, OwnWord), Settlement(carol, 1000.0, 1060.0, 1.0, HeadsWord)]
  }

  lemma SecondBeat(p: Peer, d: Detail, s: Reg, s': Reg)
    requires s == AfterAlice(d) && s'.states == s.states["p" := PeerState(1060.0, 2.0, 0, true, 0, d, 1060.0)]
    requires s' == SettleShare(SettleShare(s, 90.0, Key("p", "alice"), 1.0, 1060.0, 60.0, true),
                               90.0, Key("p", "carol"), 1.0, 1060.0, 60.0, true).(states := s'.states)
    ensures OnlyCarolPaid(s', d)
  {
    OnlyCarolIsPaid(s, Key("p", "alice"), Key("p", "carol"));
  }

  lemma AliceIsSkipped(p: Peer, d: Detail)
    requires TwoShares(p)
    ensures OnlyCarolPaid(Run(OnePeer(p), FallsSilent(d)[..3]), d)
  {
    var cfg, es := OnePeer(p), FallsSilent(d);
    AliceSpeaks(p, d);
    Next(cfg, es, 2);
    NextBeat(p, d, AfterAlice(d), 1060.0);
    SecondBeat(p, d, AfterAlice(d), Run(cfg, es[..3]));
  }

  lemma AliceFallsSilent(p: Peer, d: Detail)
    requires TwoShares(p)
    ensures var s := Run(OnePeer(p), FallsSilent(d));
            var alice, carol := Key("p", "alice"), Key("p", "carol");
            && s.log == [Settlement(alice, 1000.0, 1000.0, 0.0, OwnWord), Settlement(carol, 1000.0, 1060.0, 1.0, HeadsWord),
                         Settlement(alice, 1060.0, 1120.0, 1.0, HeadsWord), Settlement(carol, 1060.0, 1120.0, 1.0, HeadsWord)]
            && s.books.contributions == [Contributed("p", "carol", 1.0, 60.0), Contributed("p", "alice", 1.0, 60.0),
                                         Contributed("p", "carol", 1.0, 60.0)]
            && alice in s.attest && s.attest[alice].lastCredited == 1120.0
  {
    var cfg, es := OnePeer(p), FallsSilent(d);
    AliceIsSkipped(p, d);
    assert es[..4] == es;
    Next(cfg, es, 3);
    NextBeat(p, d, Run(cfg, es[..3]), 1120.0);
  }

  /**
   Coverage does fail, although the owner beats every sixty seconds: alice says so once, is left to
   her own word by the beat a minute later, and is silent by the one after. Her first minute is
   settled by no one, and her clock has passed it.
   */
  lemma GapCanOpen(p: Peer, d: Detail, instant: real)
    requires TwoShares(p) && 1000.0 <= instant < 1060.0
    ensures WellFormed(OnePeer(p)) && Monotonic(0.0, FallsSilent(d)) && BeatsWithin(OnePeer(p), FallsSilent(d), "p", 60.0)
    ensures var s, alice := Run(OnePeer(p), FallsSilent(d)), Key("p", "alice");
            && !Covered(s.log)
            && (forall e :: e in s.log && e.key == alice ==> !(e.start <= instant < e.upTo))
            && alice in s.attest && s.attest[alice].lastCredited == 1120.0
            && s.books.contributions == [Contributed("p", "carol", 1.0, 60.0), Contributed("p", "alice", 1.0, 60.0),
                                         Contributed("p", "carol", 1.0, 60.0)]
  {
    var cfg, es := OnePeer(p), FallsSilent(d);
    EvenShares(p);
    AliceFallsSilent(p, d);
    SilentRunIsTimely(d);
    SilentBeatsWithin(p, d);
    var log := Run(cfg, es).log;
    assert log[..2][0].key == log[2].key;
    assert Heard(log[..2], log[2].key) && !Meets(log[..2], log[2]);
  }

  lemma SilentRunIsTimely(d: Detail)
    ensures Monotonic(0.0, FallsSilent(d))
  {
    var es := FallsSilent(d);
    assert es[..0] == [] && es[..4] == es;
    NextReading(0.0, es, 0);
    NextReading(0.0, es, 1);
    NextReading(0.0, es, 2);
    NextReading(0.0, es, 3);
  }

  lemma {:induction false} NextInTime(cfg: Config, es: seq<Event>, p: PeerId, gap: real, i: nat)
    requires i < |es|
    ensures BeatsWithin(cfg, es[..i + 1], p, gap) <==> BeatsWithin(cfg, es[..i], p, gap) && BeatInTime(cfg, es[..i], es[i], p, gap)
  {
    assert es[..i + 1][..i] == es[..i];
  }

  lemma SilentBeatsWithin(p: Peer, d: Detail)
    requires TwoShares(p)
    ensures BeatsWithin(OnePeer(p), FallsSilent(d), "p", 60.0)
  {
    var cfg, es := OnePeer(p), FallsSilent(d);
    LastBeatsAre(p, d);
    assert es[..0] == [] && es[..4] == es;
    NextInTime(cfg, es, "p", 60.0, 0);
    NextInTime(cfg, es, "p", 60.0, 1);
    NextInTime(cfg, es, "p", 60.0, 2);
    NextInTime(cfg, es, "p", 60.0, 3);
  }

  lemma LastBeatsAre(p: Peer, d: Detail)
    requires TwoShares(p)
    ensures var cfg, es := OnePeer(p), FallsSilent(d);
            && LastBeat(cfg, es[..0], "p") == None && LastBeat(cfg, es[..2], "p") == Some(1000.0)
            && LastBeat(cfg, es[..3], "p") == Some(1060.0)
  {
    var cfg, es := OnePeer(p), FallsSilent(d);
    assert es[..2][..1] == es[..1] && es[..1][..0] == [];
    assert LastBeat(cfg, es[..1], "p") == Some(1000.0);
  }
}
