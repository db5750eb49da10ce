/**
 Peer liveness and contribution credit: what each registry operation does, as functions on a
 value of type `Reg`. Clock readings are arguments. `log` is a record kept for the proofs only:
 one entry for every interval an operation settles, whether it paid for it or not.
 */
module Registry {
  import opened Wrappers
  import opened Peers
  import opened Ledgers

  const MAX_CREDITED_INTERVAL := 300.0

  datatype Detail = Reported(text: string) | RelayFailures(count: nat)

  datatype PeerState = PeerState(
    lastSeen: real,
    residentGb: real,
    inFlight: int,
    healthy: bool,
    failures: nat,
    detail: Detail,
    lastCredited: real)

  datatype Attestation = Attestation(lastSeen: real, residentGb: real, lastCredited: real)

  datatype Key = Key(peer: PeerId, member: MemberId)

  /** Whose beat settled an interval: the peer owner's, or the contributor's own. */
  datatype Path = HeadsWord | OwnWord

  datatype Settlement = Settlement(key: Key, start: real, upTo: real, gb: real, path: Path)

  datatype Reg = Reg(
    states: map<PeerId, PeerState>,
    attest: map<Key, Attestation>,
    books: Books,
    log: seq<Settlement>)

  /** The admin-signed peers, in document order, and the deployment's settings. */
  datatype Config = Config(
    peers: map<PeerId, Peer>,
    order: seq<PeerId>,
    timeout: real,
    leaseTtl: real,
    maxQueue: int)

  datatype RegistryError = UnknownPeer | NotAContributor

  ghost predicate WellFormed(cfg: Config) {
    && Distinct(cfg.order)
    && (forall p :: p in cfg.peers <==> p in cfg.order)
    && forall p :: p in cfg.peers ==> cfg.peers[p].id == p && WellFormedPeer(cfg.peers[p])
  }

  const EMPTY := Reg(map[], map[], Books([], []), [])

  function Min(a: real, b: real): real { if a <= b then a else b }

  function Max(a: real, b: real): real { if a >= b then a else b }

  // ---- crediting ----

  function Capped(p: Peer, gb: real): real {
    if p.capacityGb > 0.0 && gb > p.capacityGb then p.capacityGb else Max(0.0, gb)
  }

  predicate Attesting(s: Reg, timeout: real, k: Key, now: real) {
    k in s.attest && now - s.attest[k].lastSeen <= timeout
  }

  function MarkCredited(s: Reg, k: Key, now: real): Reg {
    s.(attest := s.attest[k := if k in s.attest then s.attest[k].(lastCredited := now) else Attestation(0.0, 0.0, now)])
  }

  /** Settle [now - elapsed, now] for `k`: a ledger row if anything is owed, an entry either way. */
  function Settle(s: Reg, k: Key, gb: real, now: real, elapsed: real, owed: bool, path: Path): Reg {
    s.(books := if owed then RecordContribution(s.books, Contributed(k.peer, k.member, gb, elapsed)) else s.books,
       log := s.log + [Settlement(k, now - elapsed, now, if owed then gb else 0.0, path)])
  }

  function SettleShare(s: Reg, timeout: real, k: Key, gb: real, now: real, elapsed: real, owed: bool): Reg {
    if Attesting(s, timeout, k, now) then s
    else MarkCredited(Settle(s, k, gb, now, elapsed, owed, HeadsWord), k, now)
  }

  function SettleShares(s: Reg, timeout: real, p: PeerId, shares: seq<Share>, now: real, elapsed: real, owed: bool): Reg {
    if shares == [] then s
    else
      var n := |shares| - 1;
      SettleShare(SettleShares(s, timeout, p, shares[..n], now, elapsed, owed), timeout, Key(p, shares[n].member),
                  shares[n].gb, now, elapsed, owed)
  }

  function Attest(cfg: Config, s: Reg, p: PeerId, m: MemberId, gb: real, now: real): Result<Reg, RegistryError> {
    if p !in cfg.peers then Err(UnknownPeer)
    else if !Contributes(cfg.peers[p], m) then Err(NotAContributor)
    else
      var held := Min(Max(0.0, gb), Declared(cfg.peers[p], m));
      var k := Key(p, m);
      if k !in s.attest then
        Ok(s.(attest := s.attest[k := Attestation(now, held, now)],
              log := s.log + [Settlement(k, now, now, 0.0, OwnWord)]))
      else
        var elapsed := Min(now - s.attest[k].lastCredited, MAX_CREDITED_INTERVAL);
        var owed := elapsed > 0.0 && s.attest[k].residentGb > 0.0 && p in s.states && s.states[p].healthy;
        Ok(Settle(s, k, s.attest[k].residentGb, now, elapsed, owed, OwnWord)
           .(attest := s.attest[k := Attestation(now, held, now)]))
  }

  function AttestOwner(cfg: Config, s: Reg, p: PeerId, gb: real, now: real): Reg
    requires p in cfg.peers
  {
    match Attest(cfg, s, p, cfg.peers[p].owner, gb, now)
    case Ok(s') => s'
    case Err(_) => s
  }

  predicate Owed(st: PeerState, now: real) {
    now > st.lastCredited && st.residentGb > 0.0 && st.healthy
  }

  /** The beat up to the point where the owner attests; `held` is the reported residency, capped. */
  function RecordBeat(cfg: Config, s: Reg, p: PeerId, now: real, held: real, healthy: bool, detail: Detail): Reg
    requires p in cfg.peers
  {
    if p !in s.states then
      s.(states := s.states[p := PeerState(now, held, 0, healthy, 0, detail, now)])
    else
      var st := s.states[p];
      var elapsed := Min(now - st.lastCredited, MAX_CREDITED_INTERVAL);
      var s1 := if elapsed > 0.0
                then SettleShares(s, cfg.timeout, p, CreditSplit(cfg.peers[p], st.residentGb), now, elapsed, Owed(st, now))
                else s;
      var st' := PeerState(now, held, st.inFlight, healthy, if healthy then 0 else st.failures, detail, now);
      s1.(states := s1.states[p := st'])
  }

  /** The owner's beat. The clock is read a second time when the owner also attests. */
  function Heartbeat(cfg: Config, s: Reg, p: PeerId, now: real, later: real, gb: real, healthy: bool, detail: Detail)
    : Result<Reg, RegistryError>
  {
    if p !in cfg.peers then Err(UnknownPeer)
    else
      var held := Capped(cfg.peers[p], gb);
      Ok(AttestOwner(cfg, RecordBeat(cfg, s, p, now, held, healthy, detail), p, held, later))
  }

  // ---- liveness and slots ----

  const UNSEEN := PeerState(0.0, 0.0, 0, false, 0, Reported(""), 0.0)

  /** Reading a peer's state creates an unhealthy one where none exists. */
  function EnsureState(s: Reg, p: PeerId): Reg {
    if p in s.states then s else s.(states := s.states[p := UNSEEN])
  }

  function SetInFlight(s: Reg, p: PeerId, n: int): Reg
    requires p in s.states
  {
    s.(states := s.states[p := s.states[p].(inFlight := n)])
  }

  function AcquireSlot(s: Reg, p: PeerId): Reg {
    var s1 := EnsureState(s, p);
    SetInFlight(s1, p, s1.states[p].inFlight + 1)
  }

  function ReleaseSlot(s: Reg, p: PeerId): Reg {
    var s1 := EnsureState(s, p);
    SetInFlight(s1, p, if s1.states[p].inFlight - 1 >= 0 then s1.states[p].inFlight - 1 else 0)
  }

  function MarkFailure(s: Reg, p: PeerId): Reg {
    if p !in s.states then s
    else
      var st := s.states[p];
      var n := st.failures + 1;
      var st' := st.(failures := n);
      s.(states := s.states[p := if n >= 2 then st'.(healthy := false, detail := RelayFailures(n)) else st'])
  }

  predicate IsLive(cfg: Config, states: map<PeerId, PeerState>, p: PeerId, now: real) {
    p in states && states[p].healthy && now - states[p].lastSeen <= cfg.timeout
  }

  // ---- runs ----

  datatype Event =
    | Beat(peer: PeerId, now: real, later: real, gb: real, healthy: bool, detail: Detail)
    | Attests(peer: PeerId, member: MemberId, now: real, gb: real)
    | RelayFails(peer: PeerId)
    | Look(peer: PeerId)
    | TakeSlot(peer: PeerId)
    | ReturnSlot(peer: PeerId)

  /** One operation; one that raises leaves the registry as it was. */
  function Step(cfg: Config, s: Reg, e: Event): Reg {
    match e
    case Beat(p, now, later, gb, healthy, detail) =>
      var r := Heartbeat(cfg, s, p, now, later, gb, healthy, detail);
      if r.Ok? then r.value else s
    case Attests(p, m, now, gb) =>
      var r := Attest(cfg, s, p, m, gb, now);
      if r.Ok? then r.value else s
    case RelayFails(p) => MarkFailure(s, p)
    case Look(p) => if p in cfg.peers then EnsureState(s, p) else s
    case TakeSlot(p) => if p in cfg.peers then AcquireSlot(s, p) else s
    case ReturnSlot(p) => if p in cfg.peers then ReleaseSlot(s, p) else s
  }

  function Run(cfg: Config, es: seq<Event>): Reg {
    if es == [] then EMPTY else Step(cfg, Run(cfg, es[..|es| - 1]), es[|es| - 1])
  }

  /** The clock after `e`, given what it last read. */
  function ClockAfter(t: real, e: Event): real {
    match e
    case Beat(_, _, later, _, _, _) => later
    case Attests(_, _, now, _) => now
    case _ => t
  }

  predicate ReadsForward(t: real, e: Event) {
    match e
    case Beat(_, now, later, _, _, _) => t <= now <= later
    case Attests(_, _, now, _) => t <= now
    case _ => true
  }

  function Clock(t0: real, es: seq<Event>): real {
    if es == [] then t0 else ClockAfter(Clock(t0, es[..|es| - 1]), es[|es| - 1])
  }

  /** Every clock reading is at or after `t0` and none goes backwards. */
  predicate Monotonic(t0: real, es: seq<Event>) {
    es == [] || (Monotonic(t0, es[..|es| - 1]) && ReadsForward(Clock(t0, es[..|es| - 1]), es[|es| - 1]))
  }
}
