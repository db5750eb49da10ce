/**
 What heartbeats leave behind in the coordinator: after any run, each peer's state is what its owner
 last said and how many relays have failed since, and each attestation what its member last said.
 */
module Words {
  import opened Wrappers
  import opened Peers
  import opened Ledgers
  import opened Registry
  import opened Crediting
  import opened WaitHeap
  import opened Scheduler
  import opened Slots
  import opened Fairness
  import opened Coordinator
  import opened CoordinatorLaws

  // ---- what is said, read off the requests ----

  predicate OwnersBeat(cfg: Config, q: Request, p: PeerId) {
    q.HeartbeatFrom? && q.peer == p && p in cfg.peers && q.signer == cfg.peers[p].owner
  }

  /** A relay to `p` that is under way fails. */
  predicate BreaksAt(c: Coord, q: Request, p: PeerId) {
    q.RelayBreaks? && q.id in c.running && c.running[q.id].peer == p
  }

  /** An owner's beat, and how many relays to its peer have failed since. */
  datatype Word = Word(at: real, gb: real, healthy: bool, detail: Detail, strikes: nat)

  /** The last word on `p` its owner has given. */
  function LastWord(cfg: Config, qs: seq<Request>, p: PeerId): Option<Word> {
    if qs == [] then None
    else
      var before, q := LastWord(cfg, qs[..|qs| - 1], p), qs[|qs| - 1];
      if OwnersBeat(cfg, q, p) then Some(Word(q.now, q.gb, q.healthy, q.detail, 0))
      else if before.Some? && BreaksAt(Serve(cfg, qs[..|qs| - 1]), q, p) then Some(before.value.(strikes := before.value.strikes + 1))
      else before
  }

  /** What counts as resident of a report: nothing below zero, nothing above the capacity, if one is declared. */
  function HeldOf(p: Peer, reported: real): real {
    if reported < 0.0 then 0.0
    else if p.capacityGb > 0.0 && reported > p.capacityGb then p.capacityGb
    else reported
  }

  /** A member's word on its own share: when it was heard, and how much it claimed. */
  datatype Said = Said(at: real, gb: real)

  predicate SpeaksFor(cfg: Config, q: Request, p: PeerId, m: MemberId) {
    q.HeartbeatFrom? && q.peer == p && q.signer == m && p in cfg.peers && exists i :: 0 <= i < |cfg.peers[p].contributors| && cfg.peers[p].contributors[i].member == m
  }

  /** The last word `m` has given on its share of `p`; an owner's beat is one, at its second reading of the clock. */
  function LastSaid(cfg: Config, qs: seq<Request>, p: PeerId, m: MemberId): Option<Said> {
    if qs == [] then None
    else
      var q := qs[|qs| - 1];
      if !SpeaksFor(cfg, q, p, m) then LastSaid(cfg, qs[..|qs| - 1], p, m)
      else if m == cfg.peers[p].owner then Some(Said(q.later, HeldOf(cfg.peers[p], q.gb)))
      else Some(Said(q.now, q.gb))
  }

  // ---- what the scheduler leaves alone ----

  datatype Vitals = Vitals(lastSeen: real, residentGb: real, healthy: bool, failures: nat, detail: Detail, lastCredited: real)

  /** What the registry knows of a peer, slots apart; a peer never seen is an unhealthy one. */
  function VitalsOf(states: map<PeerId, PeerState>, p: PeerId): Vitals {
    if p in states then
      Vitals(states[p].lastSeen, states[p].residentGb, states[p].healthy, states[p].failures, states[p].detail, states[p].lastCredited)
    else Vitals(0.0, 0.0, false, 0, Reported(""), 0.0)
  }

  /** Slots may have changed hands and unseen peers been looked at, but nothing else has happened. */
  ghost predicate SlotsOnly(a: Reg, b: Reg) {
    && b.attest == a.attest && b.books == a.books && b.log == a.log
    && (forall p :: p in a.states ==> p in b.states)
    && forall p :: VitalsOf(b.states, p) == VitalsOf(a.states, p)
  }

  lemma ServeSlotsOnly(cfg: Config, s: Sched, w: Waiter, now: real)
    ensures SlotsOnly(s.reg, ServeOne(cfg, s, w, now).reg)
  {
  }

  lemma {:induction false} ServeAllSlotsOnly(cfg: Config, s: Sched, ws: seq<Waiter>, now: real)
    ensures SlotsOnly(s.reg, ServeAll(cfg, s, ws, now).reg)
  {
    if ws != [] {
      ServeAllSlotsOnly(cfg, s, ws[..|ws| - 1], now);
      ServeSlotsOnly(cfg, ServeAll(cfg, s, ws[..|ws| - 1], now), ws[|ws| - 1], now);
    }
  }

  lemma GiveBackSlotsOnly(s: Sched, id: RequestId)
    ensures SlotsOnly(s.reg, GiveBack(s, id).reg)
  {
  }

  lemma ReleaseSlotsOnly(cfg: Config, s: Sched, id: RequestId, now: real)
    ensures SlotsOnly(s.reg, Release(cfg, s, id, now).reg)
  {
    var mid := GiveBack(s, id);
    GiveBackSlotsOnly(s, id);
    ServeAllSlotsOnly(cfg, mid.(waiting := []), mid.waiting, now);
  }

  lemma {:induction false} ReleaseAllSlotsOnly(cfg: Config, s: Sched, ids: seq<RequestId>, now: real)
    ensures SlotsOnly(s.reg, ReleaseAll(cfg, s, ids, now).reg)
  {
    if ids != [] {
      ReleaseAllSlotsOnly(cfg, s, ids[..|ids| - 1], now);
      ReleaseSlotsOnly(cfg, ReleaseAll(cfg, s, ids[..|ids| - 1], now), ids[|ids| - 1], now);
    }
  }

  lemma AcquireSlotsOnly(cfg: Config, s: Sched, member: MemberId, model: string, now: real)
    ensures SlotsOnly(s.reg, Acquire(cfg, s, member, model, now).reg)
  {
  }

  lemma ObserveSlotsOnly(cfg: Config, s: Sched)
    ensures SlotsOnly(s.reg, Observe(cfg, s).reg)
  {
    LookAllIs(cfg, s.reg, cfg.order);
  }

  lemma LeaseSlotsOnly(cfg: Config, s: Sched, member: MemberId, model: string, now: real)
    ensures SlotsOnly(s.reg, HandleLease(cfg, s, member, model, now).reg)
  {
    if model != "" {
      var s1 := ExpireStale(cfg, s, now);
      ReleaseAllSlotsOnly(cfg, s, StaleIds(s.leases, now), now);
      AcquireSlotsOnly(cfg, s1, member, model, now);
      ObserveSlotsOnly(cfg, Acquire(cfg, s1, member, model, now));
    }
  }

  lemma InferSlotsOnly(cfg: Config, c: Coord, id: RequestId, sender: MemberId, now: real)
    ensures SlotsOnly(c.sched.reg, HandleInfer(cfg, c, id, sender, now).sched.reg)
  {
    ReleaseSlotsOnly(cfg, c.sched, id, now);
    ObserveSlotsOnly(cfg, c.sched.(redeemed := c.sched.redeemed + {id}));
  }

  lemma EndSlotsOnly(cfg: Config, s: Sched, id: RequestId, now: real)
    ensures SlotsOnly(s.reg, Observe(cfg, Release(cfg, s, id, now)).reg)
  {
    ReleaseSlotsOnly(cfg, s, id, now);
    ObserveSlotsOnly(cfg, Release(cfg, s, id, now));
  }

  /** Heartbeats, receipts and failing relays aside, requests only move slots. */
  lemma OtherRequestsSlotsOnly(cfg: Config, c: Coord, q: Request)
    requires !q.HeartbeatFrom? && !q.ReceiptArrives? && !q.RelayBreaks?
    ensures SlotsOnly(c.sched.reg, Handle(cfg, c, q).sched.reg)
  {
    match q {
      case LeaseFor(member, model, now) => LeaseSlotsOnly(cfg, c.sched, member, model, now);
      case InferFor(id, sender, now) => InferSlotsOnly(cfg, c, id, sender, now);
      case RelayEnds(id, now) => EndSlotsOnly(cfg, c.sched, id, now);
      case StatsRead => ObserveSlotsOnly(cfg, c.sched);
      case _ =>
    }
  }

  // ---- heartbeats ----

  /** An owner's beat sets what is known of its peer, from the request alone, and of no other peer. */
  lemma OwnersBeatSets(cfg: Config, c: Coord, q: Request, p: PeerId, other: PeerId)
    requires OwnersBeat(cfg, q, p)
    ensures var v, v' := VitalsOf(c.sched.reg.states, p), VitalsOf(Handle(cfg, c, q).sched.reg.states, p);
            v' == Vitals(q.now, HeldOf(cfg.peers[p], q.gb), q.healthy, if q.healthy then 0 else v.failures, q.detail, q.now)
    ensures var states, states' := c.sched.reg.states, Handle(cfg, c, q).sched.reg.states;
            p in states' && (other in states ==> other in states') &&
            (other != p ==> VitalsOf(states', other) == VitalsOf(states, other))
    ensures InFlight(Handle(cfg, c, q).sched.reg.states, other) == InFlight(c.sched.reg.states, other)
  {
    RegistryRequestIs(cfg, c, q);
    Routing.StatesFollow(cfg, c.sched.reg, EventOf(cfg, c, q).value);
  }

  /**
   A heartbeat from anyone but the owner leaves every peer's state, every lease and the queue as they
   were; from one who holds no share either, everything.
   */
  lemma OnlyOwnersRoute(cfg: Config, c: Coord, q: Request)
    requires q.HeartbeatFrom? && !OwnersBeat(cfg, q, q.peer)
    ensures var c' := Handle(cfg, c, q);
            c' == c.(sched := c.sched.(reg := c'.sched.reg)) && c'.sched.reg.states == c.sched.reg.states
    ensures !SpeaksFor(cfg, q, q.peer, q.signer) ==> Handle(cfg, c, q) == c
  {
  }

  lemma BreakStrikes(cfg: Config, c: Coord, q: Request, p: PeerId)
    requires q.RelayBreaks?
    ensures var v, v' := VitalsOf(c.sched.reg.states, p), VitalsOf(Handle(cfg, c, q).sched.reg.states, p);
            if BreaksAt(c, q, p) && p in c.sched.reg.states
            then v' == v.(failures := v.failures + 1, healthy := v.healthy && v.failures + 1 < 2,
                         detail := if v.failures + 1 < 2 then v.detail else RelayFailures(v.failures + 1))
            else v' == v
    ensures p in c.sched.reg.states ==> p in Handle(cfg, c, q).sched.reg.states
  {
    RegistryRequestIs(cfg, c, q);
  }

  // ---- the owner's word is kept ----

  /** What is known of a peer is what its owner last said; two relays failed since then end its health. */
  predicate Keeps(cfg: Config, states: map<PeerId, PeerState>, p: PeerId, word: Option<Word>) {
    var v := VitalsOf(states, p);
    match word
    case None => v.lastSeen == 0.0 && v.residentGb == 0.0 && v.lastCredited == 0.0 && !v.healthy
    case Some(w) =>
      && p in cfg.peers && p in states
      && v.lastSeen == w.at && v.lastCredited == w.at && v.residentGb == HeldOf(cfg.peers[p], w.gb)
      && (v.healthy <==> w.healthy && w.strikes < 2)
      && (w.strikes == 0 ==> v.detail == w.detail)
      && (w.healthy ==> v.failures == w.strikes && v.detail == if w.strikes < 2 then w.detail else RelayFailures(w.strikes))
  }

  lemma WordStep(cfg: Config, c: Coord, q: Request, p: PeerId, before: Option<Word>, after: Option<Word>)
    requires Keeps(cfg, c.sched.reg.states, p, before)
    requires after == if OwnersBeat(cfg, q, p) then Some(Word(q.now, q.gb, q.healthy, q.detail, 0))
                      else if before.Some? && BreaksAt(c, q, p) then Some(before.value.(strikes := before.value.strikes + 1))
                      else before
    ensures Keeps(cfg, Handle(cfg, c, q).sched.reg.states, p, after)
  {
    if OwnersBeat(cfg, q, p) {
      OwnersBeatSets(cfg, c, q, p, p);
    } else if q.HeartbeatFrom? {
      if OwnersBeat(cfg, q, q.peer) { OwnersBeatSets(cfg, c, q, q.peer, p); } else { OnlyOwnersRoute(cfg, c, q); }
    } else if q.RelayBreaks? {
      BreakStrikes(cfg, c, q, p);
    } else if !q.ReceiptArrives? {
      OtherRequestsSlotsOnly(cfg, c, q);
    }
  }

  /** In every reachable state, each peer is as its owner last said, failed relays since then counted. */
  lemma {:induction false} WordIsKept(cfg: Config, qs: seq<Request>, p: PeerId)
    ensures Keeps(cfg, Serve(cfg, qs).sched.reg.states, p, LastWord(cfg, qs, p))
  {
    if qs != [] {
      var before, q := qs[..|qs| - 1], qs[|qs| - 1];
      WordIsKept(cfg, before, p);
      WordStep(cfg, Serve(cfg, before), q, p, LastWord(cfg, before, p), LastWord(cfg, qs, p));
    }
  }

  /**
   A peer is live if and only if its owner's last word, at most the timeout ago, was that it is well,
   and at most one relay to it has failed since.
   */
  lemma LiveExactly(cfg: Config, qs: seq<Request>, p: PeerId, now: real)
    ensures IsLive(cfg, Serve(cfg, qs).sched.reg.states, p, now) <==>
            var word := LastWord(cfg, qs, p);
            word.Some? && word.value.healthy && word.value.strikes <= 1 && now - word.value.at <= cfg.timeout
  {
    WordIsKept(cfg, qs, p);
  }

  // ---- a member's word is kept ----

  /** An attestation stands for what its member last said; one that only crediting made says nothing. */
  predicate Recalls(attest: map<Key, Attestation>, k: Key, share: real, said: Option<Said>) {
    match said
    case None => k in attest ==> attest[k].lastSeen == 0.0 && attest[k].residentGb == 0.0
    case Some(w) =>
      && k in attest && attest[k].lastSeen == w.at
      && attest[k].residentGb == if w.gb < 0.0 then 0.0 else if w.gb > share then share else w.gb
  }

  /** The roster's share of `m`, whatever it is, is what it is held to. */
  predicate HasShare(p: Peer, m: MemberId, share: real) {
    forall i :: 0 <= i < |p.contributors| && p.contributors[i].member == m ==> p.contributors[i].gb == share
  }

  lemma ShareIsDeclared(p: Peer, m: MemberId, share: real)
    requires WellFormedPeer(p) && HasShare(p, m, share) && Contributes(p, m)
    ensures Declared(p, m) == share && share > 0.0
  {
    var i :| 0 <= i < |p.contributors| && p.contributors[i].member == m;
    DeclaredIs(p.contributors, i);
  }

  lemma AttestRecalls(cfg: Config, s: Reg, p: PeerId, m: MemberId, gb: real, now: real, share: real)
    requires WellFormed(cfg) && p in cfg.peers && HasShare(cfg.peers[p], m, share) && Contributes(cfg.peers[p], m)
    ensures Attest(cfg, s, p, m, gb, now).Ok?
    ensures Recalls(Attest(cfg, s, p, m, gb, now).value.attest, Key(p, m), share, Some(Said(now, gb)))
    ensures forall k :: k != Key(p, m) ==>
              (k in Attest(cfg, s, p, m, gb, now).value.attest <==> k in s.attest) &&
              (k in s.attest ==> Attest(cfg, s, p, m, gb, now).value.attest[k] == s.attest[k])
  {
    ShareIsDeclared(cfg.peers[p], m, share);
  }

  /** The split marks attestations as credited, and that is all it does to them. */
  lemma BeatRecalls(cfg: Config, s: Reg, p: PeerId, now: real, held: real, healthy: bool, detail: Detail, k: Key, share: real, said: Option<Said>)
    requires WellFormed(cfg) && p in cfg.peers && Recalls(s.attest, k, share, said)
    ensures Recalls(RecordBeat(cfg, s, p, now, held, healthy, detail).attest, k, share, said)
  {
    BeatIs(cfg, s, p, now, held, healthy, detail);
  }

  lemma HeartbeatRecalls(cfg: Config, c: Coord, q: Request, p: PeerId, m: MemberId, share: real, before: Option<Said>)
    requires WellFormed(cfg) && p in cfg.peers && HasShare(cfg.peers[p], m, share)
    requires q.HeartbeatFrom? && !OwnersBeat(cfg, q, q.peer) && Recalls(c.sched.reg.attest, Key(p, m), share, before)
    ensures Recalls(Handle(cfg, c, q).sched.reg.attest, Key(p, m), share,
                    if SpeaksFor(cfg, q, p, m) then Some(Said(q.now, q.gb)) else before)
  {
    RegistryRequestIs(cfg, c, q);
    if SpeaksFor(cfg, q, p, m) { AttestRecalls(cfg, c.sched.reg, p, m, q.gb, q.now, share); }
  }

  lemma OwnerRecalls(cfg: Config, s: Reg, q: PeerId, held: real, now: real, p: PeerId, m: MemberId, share: real, before: Option<Said>)
    requires WellFormed(cfg) && p in cfg.peers && HasShare(cfg.peers[p], m, share) && q in cfg.peers
    requires Recalls(s.attest, Key(p, m), share, before)
    ensures Recalls(AttestOwner(cfg, s, q, held, now).attest, Key(p, m), share,
                    if q == p && m == cfg.peers[p].owner && Contributes(cfg.peers[p], m) then Some(Said(now, held)) else before)
  {
    if q == p && m == cfg.peers[p].owner && Contributes(cfg.peers[p], m) { AttestRecalls(cfg, s, p, m, held, now, share); }
  }

  lemma BeatStepRecalls(cfg: Config, s: Reg, e: Event, p: PeerId, m: MemberId, share: real, before: Option<Said>)
    requires WellFormed(cfg) && p in cfg.peers && HasShare(cfg.peers[p], m, share)
    requires e.Beat? && e.peer in cfg.peers && Recalls(s.attest, Key(p, m), share, before)
    ensures Recalls(Step(cfg, s, e).attest, Key(p, m), share,
                    if e.peer == p && m == cfg.peers[p].owner && Contributes(cfg.peers[p], m)
                    then Some(Said(e.later, HeldOf(cfg.peers[p], e.gb))) else before)
  {
    var held := HeldOf(cfg.peers[e.peer], e.gb);
    var mid := RecordBeat(cfg, s, e.peer, e.now, held, e.healthy, e.detail);
    BeatRecalls(cfg, s, e.peer, e.now, held, e.healthy, e.detail, Key(p, m), share, before);
    OwnerRecalls(cfg, mid, e.peer, held, e.later, p, m, share, before);
  }

  lemma OwnersBeatRecalls(cfg: Config, c: Coord, q: Request, p: PeerId, m: MemberId, share: real, before: Option<Said>)
    requires WellFormed(cfg) && p in cfg.peers && HasShare(cfg.peers[p], m, share)
    requires q.HeartbeatFrom? && OwnersBeat(cfg, q, q.peer) && Recalls(c.sched.reg.attest, Key(p, m), share, before)
    ensures Recalls(Handle(cfg, c, q).sched.reg.attest, Key(p, m), share,
                    if SpeaksFor(cfg, q, p, m) then Some(Said(q.later, HeldOf(cfg.peers[p], q.gb))) else before)
  {
    RegistryRequestIs(cfg, c, q);
    BeatStepRecalls(cfg, c.sched.reg, EventOf(cfg, c, q).value, p, m, share, before);
  }

  lemma SaidStep(cfg: Config, c: Coord, q: Request, p: PeerId, m: MemberId, share: real, before: Option<Said>, after: Option<Said>)
    requires WellFormed(cfg) && p in cfg.peers && HasShare(cfg.peers[p], m, share)
    requires Recalls(c.sched.reg.attest, Key(p, m), share, before)
    requires after == if !SpeaksFor(cfg, q, p, m) then before
                      else if m == cfg.peers[p].owner then Some(Said(q.later, HeldOf(cfg.peers[p], q.gb)))
                      else Some(Said(q.now, q.gb))
    ensures Recalls(Handle(cfg, c, q).sched.reg.attest, Key(p, m), share, after)
  {
    if q.HeartbeatFrom? {
      if OwnersBeat(cfg, q, q.peer) {
        OwnersBeatRecalls(cfg, c, q, p, m, share, before);
      } else {
        HeartbeatRecalls(cfg, c, q, p, m, share, before);
      }
    } else if !q.ReceiptArrives? && !q.RelayBreaks? {
      OtherRequestsSlotsOnly(cfg, c, q);
    }
  }

  /** In every reachable state, each attestation is what its member last said, its claim cut to its share. */
  lemma {:induction false} SaidIsKept(cfg: Config, qs: seq<Request>, p: PeerId, m: MemberId, share: real)
    requires WellFormed(cfg) && p in cfg.peers && HasShare(cfg.peers[p], m, share)
    ensures Recalls(Serve(cfg, qs).sched.reg.attest, Key(p, m), share, LastSaid(cfg, qs, p, m))
  {
    if qs != [] {
      var before, q := qs[..|qs| - 1], qs[|qs| - 1];
      SaidIsKept(cfg, before, p, m, share);
      SaidStep(cfg, Serve(cfg, before), q, p, m, share, LastSaid(cfg, before, p, m), LastSaid(cfg, qs, p, m));
    }
  }

  // ---- reading ----

  lemma {:induction false} LookAllSees(cfg: Config, r: Reg, ids: seq<PeerId>, p: PeerId)
    requires p in ids && p in cfg.peers
    ensures p in LookAll(cfg, r, ids).states
  {
    if p in ids[..|ids| - 1] {
      LookAllSees(cfg, r, ids[..|ids| - 1], p);
    } else {
      assert ids == ids[..|ids| - 1] + [ids[|ids| - 1]];
    }
  }

  /** Reading the statistics leaves no peer of the roster unknown, those never heard of as unhealthy. */
  lemma ReadingSeesAll(cfg: Config, c: Coord, p: PeerId)
    requires WellFormed(cfg) && p in cfg.peers
    ensures var states, states' := c.sched.reg.states, Handle(cfg, c, StatsRead).sched.reg.states;
            p in states' && states'[p] == if p in states then states[p] else PeerState(0.0, 0.0, 0, false, 0, Reported(""), 0.0)
  {
    LookAllSees(cfg, c.sched.reg, cfg.order, p);
    LookAllIs(cfg, c.sched.reg, cfg.order);
  }

  // ---- runs without the other heartbeats ----

  /** The run without heartbeats from signers who neither own nor share the peer they name. */
  function WithoutStrangers(cfg: Config, qs: seq<Request>): seq<Request> {
    if qs == [] then []
    else
      var q := qs[|qs| - 1];
      var front := WithoutStrangers(cfg, qs[..|qs| - 1]);
      if q.HeartbeatFrom? && !OwnersBeat(cfg, q, q.peer) && !SpeaksFor(cfg, q, q.peer, q.signer) then front else front + [q]
  }

  /** Their heartbeats change nothing, in any run. */
  lemma {:induction false} StrangersChangeNothing(cfg: Config, qs: seq<Request>)
    ensures Serve(cfg, WithoutStrangers(cfg, qs)) == Serve(cfg, qs)
  {
    if qs != [] {
      var before, q := qs[..|qs| - 1], qs[|qs| - 1];
      StrangersChangeNothing(cfg, before);
      if q.HeartbeatFrom? && !OwnersBeat(cfg, q, q.peer) && !SpeaksFor(cfg, q, q.peer, q.signer) {
        OnlyOwnersRoute(cfg, Serve(cfg, before), q);
      } else {
        var rest := WithoutStrangers(cfg, before);
        assert (rest + [q])[..|rest|] == rest;
      }
    }
  }

  /** The run with owners' heartbeats only. */
  function OwnersOnly(cfg: Config, qs: seq<Request>): seq<Request> {
    if qs == [] then []
    else
      var q := qs[|qs| - 1];
      var front := OwnersOnly(cfg, qs[..|qs| - 1]);
      if q.HeartbeatFrom? && !OwnersBeat(cfg, q, q.peer) then front else front + [q]
  }

  /** The same but for the failed relays since. */
  predicate SameBeat(a: Option<Word>, b: Option<Word>) {
    if a.Some? && b.Some? then a.value.(strikes := 0) == b.value.(strikes := 0) else a == b
  }

  lemma {:induction false} SameBeatStays(cfg: Config, qs: seq<Request>, p: PeerId)
    ensures SameBeat(LastWord(cfg, OwnersOnly(cfg, qs), p), LastWord(cfg, qs, p))
  {
    if qs != [] {
      var before, q := qs[..|qs| - 1], qs[|qs| - 1];
      SameBeatStays(cfg, before, p);
      if !(q.HeartbeatFrom? && !OwnersBeat(cfg, q, q.peer)) {
        var rest := OwnersOnly(cfg, before);
        assert (rest + [q])[..|rest|] == rest;
      }
    }
  }

  /**
   Deleting every other heartbeat from a run changes whether a peer is live if and only if its owner's
   word still counts and the relays that failed since are too many in one of the runs alone.
   */
  lemma DeletionMovesExactly(cfg: Config, qs: seq<Request>, p: PeerId, now: real)
    ensures (IsLive(cfg, Serve(cfg, OwnersOnly(cfg, qs)).sched.reg.states, p, now) <==>
             IsLive(cfg, Serve(cfg, qs).sched.reg.states, p, now)) <==>
            var word, other := LastWord(cfg, qs, p), LastWord(cfg, OwnersOnly(cfg, qs), p);
            !(word.Some? && other.Some? && word.value.healthy && now - word.value.at <= cfg.timeout &&
              ((word.value.strikes <= 1) != (other.value.strikes <= 1)))
  {
    SameBeatStays(cfg, qs, p);
    LiveExactly(cfg, qs, p, now);
    LiveExactly(cfg, OwnersOnly(cfg, qs), p, now);
  }

  /** How many relays have been reported broken since the owner of `p` last beat, to whatever peer. */
  function BreaksSince(cfg: Config, qs: seq<Request>, p: PeerId): nat {
    if qs == [] || OwnersBeat(cfg, qs[|qs| - 1], p) then 0
    else BreaksSince(cfg, qs[..|qs| - 1], p) + if qs[|qs| - 1].RelayBreaks? then 1 else 0
  }

  lemma {:induction false} StrikesAreBreaks(cfg: Config, qs: seq<Request>, p: PeerId)
    ensures LastWord(cfg, qs, p).Some? ==> LastWord(cfg, qs, p).value.strikes <= BreaksSince(cfg, qs, p)
    ensures BreaksSince(cfg, OwnersOnly(cfg, qs), p) == BreaksSince(cfg, qs, p)
  {
    if qs != [] {
      var before, q := qs[..|qs| - 1], qs[|qs| - 1];
      StrikesAreBreaks(cfg, before, p);
      if !(q.HeartbeatFrom? && !OwnersBeat(cfg, q, q.peer)) {
        var rest := OwnersOnly(cfg, before);
        assert (rest + [q])[..|rest|] == rest;
      }
    }
  }

  /**
   So contributors' heartbeats do not route: what an owner's beat set stays as it was, and while at
   most one relay has broken since, so does whether the peer is live.
   */
  lemma OthersDoNotRoute(cfg: Config, qs: seq<Request>, p: PeerId, now: real)
    ensures var v, v' := VitalsOf(Serve(cfg, qs).sched.reg.states, p), VitalsOf(Serve(cfg, OwnersOnly(cfg, qs)).sched.reg.states, p);
            v'.lastSeen == v.lastSeen && v'.residentGb == v.residentGb && v'.lastCredited == v.lastCredited
    ensures BreaksSince(cfg, qs, p) <= 1 ==>
              (IsLive(cfg, Serve(cfg, OwnersOnly(cfg, qs)).sched.reg.states, p, now) <==>
               IsLive(cfg, Serve(cfg, qs).sched.reg.states, p, now))
  {
    SameBeatStays(cfg, qs, p);
    WordIsKept(cfg, qs, p);
    WordIsKept(cfg, OwnersOnly(cfg, qs), p);
    StrikesAreBreaks(cfg, qs, p);
    StrikesAreBreaks(cfg, OwnersOnly(cfg, qs), p);
    DeletionMovesExactly(cfg, qs, p, now);
  }
}
