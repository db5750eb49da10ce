/**
 Admission, queueing and leases: what each scheduler operation does, as functions on a value of
 type `Sched`. Leases are kept in the order they were issued, waiters in priority order, and each
 waiter's future under its ticket. `issued` is every lease there ever was; a request id is its
 position, which stands for a fresh random token.
 */
module Scheduler {
  import opened Wrappers
  import opened Peers
  import opened TextOrder
  import opened Ledgers
  import opened Registry
  import opened WaitHeap

  datatype Lease = Lease(id: RequestId, member: MemberId, peer: PeerId, expiresAt: real)

  datatype Future = Pending | Done(lease: Lease) | Cancelled

  datatype Sched = Sched(
    reg: Reg,
    leases: seq<Lease>,
    redeemed: set<RequestId>,
    waiting: seq<Waiter>,
    futures: map<nat, Future>,
    tickets: nat,
    issued: seq<Lease>)

  const IDLE := Sched(EMPTY, [], {}, [], map[], 0, [])

  // ---- choosing a peer ----

  /** An empty model name asks for any peer. */
  predicate Serves(p: Peer, model: string) {
    model == "" || p.model == model
  }

  predicate Offers(cfg: Config, states: map<PeerId, PeerState>, p: PeerId, model: string, now: real) {
    p in cfg.peers && Serves(cfg.peers[p], model) && IsLive(cfg, states, p, now)
  }

  predicate Candidate(cfg: Config, states: map<PeerId, PeerState>, p: PeerId, model: string, now: real) {
    Offers(cfg, states, p, model, now) && states[p].inFlight < cfg.peers[p].maxConcurrent
  }

  predicate LessLoaded(states: map<PeerId, PeerState>, a: PeerId, b: PeerId)
    requires a in states && b in states
  {
    states[a].inFlight < states[b].inFlight || (states[a].inFlight == states[b].inFlight && Before(a, b))
  }

  function PickFrom(cfg: Config, states: map<PeerId, PeerState>, model: string, now: real, ids: seq<PeerId>): (r: Option<PeerId>)
    ensures r.Some? ==> r.value in ids && Candidate(cfg, states, r.value, model, now)
  {
    if ids == [] then None
    else
      var best, p := PickFrom(cfg, states, model, now, ids[..|ids| - 1]), ids[|ids| - 1];
      if Candidate(cfg, states, p, model, now) && (best == None || LessLoaded(states, p, best.value)) then Some(p) else best
  }

  /** The least loaded live peer with a free slot, or none. */
  function Pick(cfg: Config, states: map<PeerId, PeerState>, model: string, now: real): Option<PeerId> {
    PickFrom(cfg, states, model, now, cfg.order)
  }

  // ---- leases ----

  function LeaseFrom(cfg: Config, s: Sched, member: MemberId, p: PeerId, now: real): Lease {
    Lease(|s.issued|, member, p, now + cfg.leaseTtl)
  }

  function Issue(cfg: Config, s: Sched, member: MemberId, p: PeerId, now: real): Sched {
    var l := LeaseFrom(cfg, s, member, p, now);
    s.(reg := AcquireSlot(s.reg, p), leases := s.leases + [l], issued := s.issued + [l])
  }

  predicate IsPending(futures: map<nat, Future>, t: nat) {
    t in futures && futures[t].Pending?
  }

  /** One turn of the dispatch loop: skip a waiter that is done, defer one nobody can serve, serve the rest. */
  function ServeOne(cfg: Config, s: Sched, w: Waiter, now: real): Sched {
    if !IsPending(s.futures, w.ticket) then s
    else
      match Pick(cfg, s.reg.states, w.model, now)
      case None => s.(waiting := s.waiting + [w])
      case Some(p) =>
        Issue(cfg, s, w.member, p, now).(futures := s.futures[w.ticket := Done(LeaseFrom(cfg, s, w.member, p, now))])
  }

  function ServeAll(cfg: Config, s: Sched, ws: seq<Waiter>, now: real): Sched {
    if ws == [] then s else ServeOne(cfg, ServeAll(cfg, s, ws[..|ws| - 1], now), ws[|ws| - 1], now)
  }

  function Dispatch(cfg: Config, s: Sched, now: real): Sched {
    ServeAll(cfg, s.(waiting := []), s.waiting, now)
  }

  function FindLease(leases: seq<Lease>, id: RequestId): (r: Option<Lease>)
    ensures r.Some? ==> r.value in leases && r.value.id == id
    ensures r == None ==> forall l :: l in leases ==> l.id != id
  {
    if leases == [] then None
    else if leases[0].id == id then Some(leases[0])
    else FindLease(leases[1..], id)
  }

  function Without(leases: seq<Lease>, id: RequestId): seq<Lease> {
    if leases == [] then []
    else if leases[0].id == id then leases[1..]
    else [leases[0]] + Without(leases[1..], id)
  }

  /** The lease, if it is still there, gives its slot back; the queue is served either way. */
  function GiveBack(s: Sched, id: RequestId): Sched {
    var found := FindLease(s.leases, id);
    s.(leases := Without(s.leases, id), redeemed := s.redeemed - {id},
       reg := if found.Some? then ReleaseSlot(s.reg, found.value.peer) else s.reg)
  }

  function Release(cfg: Config, s: Sched, id: RequestId, now: real): Sched {
    Dispatch(cfg, GiveBack(s, id), now)
  }

  datatype Refusal = Unknown | WrongMember | Expired | AlreadyRedeemed

  /** Why a redemption is refused, checked in this order; none means it is granted. */
  function RedeemCheck(s: Sched, id: RequestId, member: MemberId, now: real): Option<Refusal> {
    match FindLease(s.leases, id)
    case None => Some(Unknown)
    case Some(l) =>
      if l.member != member then Some(WrongMember)
      else if now > l.expiresAt then Some(Expired)
      else if id in s.redeemed then Some(AlreadyRedeemed)
      else None
  }

  function Redeem(cfg: Config, s: Sched, id: RequestId, member: MemberId, now: real): Sched {
    match RedeemCheck(s, id, member, now)
    case None => s.(redeemed := s.redeemed + {id})
    case Some(Expired) => Release(cfg, s, id, now)
    case Some(_) => s
  }

  function StaleIds(leases: seq<Lease>, now: real): seq<RequestId> {
    if leases == [] then []
    else if now > leases[|leases| - 1].expiresAt then StaleIds(leases[..|leases| - 1], now) + [leases[|leases| - 1].id]
    else StaleIds(leases[..|leases| - 1], now)
  }

  function ReleaseAll(cfg: Config, s: Sched, ids: seq<RequestId>, now: real): Sched {
    if ids == [] then s else Release(cfg, ReleaseAll(cfg, s, ids[..|ids| - 1], now), ids[|ids| - 1], now)
  }

  function ExpireStale(cfg: Config, s: Sched, now: real): Sched {
    ReleaseAll(cfg, s, StaleIds(s.leases, now), now)
  }

  // ---- waiting ----

  datatype Acquired = NoCapacity | Granted(lease: Lease) | QueueFull | Queued(ticket: nat)

  predicate AnyLive(cfg: Config, states: map<PeerId, PeerState>, model: string, now: real) {
    exists i :: 0 <= i < |cfg.order| && Offers(cfg, states, cfg.order[i], model, now)
  }

  /** How `acquire` ends, or begins to wait. */
  function AcquireOutcome(cfg: Config, s: Sched, member: MemberId, model: string, now: real): Acquired {
    if !AnyLive(cfg, s.reg.states, model, now) then NoCapacity
    else
      match Pick(cfg, s.reg.states, model, now)
      case Some(p) => Granted(LeaseFrom(cfg, s, member, p, now))
      case None => if |s.waiting| >= cfg.maxQueue then QueueFull else Queued(s.tickets)
  }

  /** Contributors in surplus sort first. */
  function WaiterFor(s: Sched, member: MemberId, model: string): Waiter {
    Waiter(-BalanceOf(s.reg.books, member).score, s.tickets, member, model)
  }

  function Acquire(cfg: Config, s: Sched, member: MemberId, model: string, now: real): Sched {
    match AcquireOutcome(cfg, s, member, model, now)
    case Granted(l) => Issue(cfg, s, member, l.peer, now)
    case Queued(t) =>
      s.(waiting := Insert(s.waiting, WaiterFor(s, member, model)), futures := s.futures[t := Pending], tickets := t + 1)
    case _ => s
  }

  /** A wait ends early: its future is cancelled unless a lease has already been put in it. */
  function Abandon(s: Sched, t: nat): Sched {
    if IsPending(s.futures, t) then s.(futures := s.futures[t := Cancelled]) else s
  }

  /** The waiting caller cleans up after itself; by then a dispatch may have removed its waiter already. */
  function Drop(s: Sched, t: nat): Sched {
    s.(waiting := WithoutTicket(s.waiting, t))
  }

  // ---- what every operation keeps ----

  function Count(leases: seq<Lease>, p: PeerId): nat {
    if leases == [] then 0 else Count(leases[1..], p) + if leases[0].peer == p then 1 else 0
  }

  function InFlight(states: map<PeerId, PeerState>, p: PeerId): int {
    if p in states then states[p].inFlight else 0
  }

  /** Each peer's slots in use are the leases naming it, and never more than it declares. */
  ghost predicate SlotsMatch(cfg: Config, s: Sched) {
    && (forall p :: p in s.reg.states ==> p in cfg.peers)
    && (forall p :: p in cfg.peers ==> InFlight(s.reg.states, p) == Count(s.leases, p) <= cfg.peers[p].maxConcurrent)
    && (forall l :: l in s.leases ==> l.peer in cfg.peers)
  }

  predicate DistinctIds(leases: seq<Lease>) {
    forall i, j :: 0 <= i < j < |leases| ==> leases[i].id != leases[j].id
  }

  /** A lease is one that was issued, under an id of its own; only leases can be redeemed. */
  ghost predicate LeasesSound(s: Sched) {
    && (forall i :: 0 <= i < |s.issued| ==> s.issued[i].id == i)
    && DistinctIds(s.leases)
    && (forall l :: l in s.leases ==> l.id < |s.issued| && l == s.issued[l.id])
    && (forall id :: id in s.redeemed ==> FindLease(s.leases, id).Some?)
  }

  ghost predicate Queues(ws: seq<Waiter>, t: nat) {
    exists w :: w in ws && w.ticket == t
  }

  /** The queue is in priority order and no pending future is missing from it. */
  ghost predicate QueueSound(s: Sched) {
    && Ascending(s.waiting) && DistinctTickets(s.waiting)
    && (forall w :: w in s.waiting ==> w.ticket in s.futures)
    && (forall t :: t in s.futures ==> t < s.tickets)
    && (forall t :: t in s.futures && s.futures[t].Pending? ==> Queues(s.waiting, t))
    && (forall t :: t in s.futures && s.futures[t].Done? ==>
          var l := s.futures[t].lease; l.id < |s.issued| && l == s.issued[l.id])
  }

  ghost predicate Sound(cfg: Config, s: Sched) {
    SlotsMatch(cfg, s) && LeasesSound(s) && QueueSound(s)
  }
}
