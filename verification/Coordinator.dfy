/**
 The coordinator's handlers as steps of one machine. A step is what runs between two awaits;
 any interleaving of steps is a run.
 */
module Coordinator {
  import opened Wrappers
  import opened Peers
  import opened Ledgers
  import opened Registry
  import opened WaitHeap
  import opened Scheduler

  /** What a relay in progress captured when its lease was redeemed. */
  datatype Stream = Stream(sender: MemberId, peer: PeerId)

  datatype Redemption = Redemption(id: RequestId, member: MemberId)

  /** `accepted` are redeemed requests whose relay has not begun; `redemptions` records every grant. */
  datatype Coord = Coord(
    sched: Sched,
    accepted: map<RequestId, Stream>,
    running: map<RequestId, Stream>,
    redemptions: seq<Redemption>)

  const BOOT := Coord(IDLE, map[], map[], [])

  datatype Request =
    | HeartbeatFrom(signer: MemberId, peer: PeerId, now: real, later: real, gb: real, healthy: bool, detail: Detail)
    | LeaseFor(member: MemberId, model: string, now: real)
    | WaitEnds(ticket: nat)
    | CleanUp(ticket: nat)
    | InferFor(id: RequestId, sender: MemberId, now: real)
    | RelayStarts(id: RequestId)
    | ReceiptArrives(id: RequestId, promptTokens: nat, completionTokens: nat)
    | RelayBreaks(id: RequestId)
    | RelayEnds(id: RequestId, now: real)
    | StatsRead

  datatype Role = AsOwner | AsContributor | Stranger

  /** The owner reports liveness; a declared contributor may only attest; anyone else is refused. */
  function RoleOf(p: Peer, signer: MemberId): Role {
    if p.owner == signer then AsOwner else if Contributes(p, signer) then AsContributor else Stranger
  }

  function HeartbeatEvent(cfg: Config, p: PeerId, signer: MemberId, now: real, later: real, gb: real, healthy: bool, detail: Detail): Option<Event> {
    if p !in cfg.peers then None
    else
      match RoleOf(cfg.peers[p], signer)
      case AsOwner => Some(Beat(p, now, later, gb, healthy, detail))
      case AsContributor => Some(Attests(p, signer, now, gb))
      case Stranger => None
  }

  /** Metering and statistics read every peer's state, creating those that are missing. */
  function LookAll(cfg: Config, r: Reg, ids: seq<PeerId>): Reg {
    if ids == [] then r else Step(cfg, LookAll(cfg, r, ids[..|ids| - 1]), Look(ids[|ids| - 1]))
  }

  function Observe(cfg: Config, s: Sched): Sched {
    s.(reg := LookAll(cfg, s.reg, cfg.order))
  }

  /** Expired leases are reclaimed before the newcomer is considered. */
  function HandleLease(cfg: Config, s: Sched, member: MemberId, model: string, now: real): Sched {
    if model == "" then s
    else
      var s1 := ExpireStale(cfg, s, now);
      var s2 := Acquire(cfg, s1, member, model, now);
      if AcquireOutcome(cfg, s1, member, model, now).Granted? then Observe(cfg, s2) else s2
  }

  function HandleInfer(cfg: Config, c: Coord, id: RequestId, sender: MemberId, now: real): Coord {
    var s := Redeem(cfg, c.sched, id, sender, now);
    if RedeemCheck(c.sched, id, sender, now) == None then
      var l := FindLease(c.sched.leases, id).value;
      c.(sched := Observe(cfg, s), accepted := c.accepted[id := Stream(sender, l.peer)],
         redemptions := c.redemptions + [Redemption(id, sender)])
    else
      c.(sched := s)
  }

  function Bill(s: Sched, row: Consumed): Sched {
    s.(reg := s.reg.(books := RecordConsumption(s.reg.books, row)))
  }

  function Handle(cfg: Config, c: Coord, q: Request): Coord {
    match q
    case HeartbeatFrom(signer, p, now, later, gb, healthy, detail) =>
      var e := HeartbeatEvent(cfg, p, signer, now, later, gb, healthy, detail);
      if e.Some? then c.(sched := c.sched.(reg := Step(cfg, c.sched.reg, e.value))) else c
    case LeaseFor(member, model, now) => c.(sched := HandleLease(cfg, c.sched, member, model, now))
    case WaitEnds(t) => c.(sched := Abandon(c.sched, t))
    case CleanUp(t) => if IsPending(c.sched.futures, t) then c else c.(sched := Drop(c.sched, t))
    case InferFor(id, sender, now) => HandleInfer(cfg, c, id, sender, now)
    case RelayStarts(id) =>
      if id in c.accepted then c.(running := c.running[id := c.accepted[id]], accepted := c.accepted - {id}) else c
    case ReceiptArrives(id, prompt, completion) =>
      if id in c.running then
        c.(sched := Bill(c.sched, Consumed(c.running[id].sender, id, c.running[id].peer, prompt, completion)))
      else c
    case RelayBreaks(id) =>
      if id in c.running then c.(sched := c.sched.(reg := Step(cfg, c.sched.reg, RelayFails(c.running[id].peer)))) else c
    case RelayEnds(id, now) =>
      if id in c.running then c.(sched := Observe(cfg, Release(cfg, c.sched, id, now)), running := c.running - {id}) else c
    case StatsRead => c.(sched := Observe(cfg, c.sched))
  }

  function Serve(cfg: Config, qs: seq<Request>): Coord {
    if qs == [] then BOOT else Handle(cfg, Serve(cfg, qs[..|qs| - 1]), qs[|qs| - 1])
  }

  function TimeAfter(t: real, q: Request): real {
    match q
    case HeartbeatFrom(_, _, _, later, _, _, _) => later
    case LeaseFor(_, _, now) => now
    case InferFor(_, _, now) => now
    case RelayEnds(_, now) => now
    case _ => t
  }

  predicate InOrder(t: real, q: Request) {
    match q
    case HeartbeatFrom(_, _, now, later, _, _, _) => t <= now <= later
    case LeaseFor(_, _, now) => t <= now
    case InferFor(_, _, now) => t <= now
    case RelayEnds(_, now) => t <= now
    case _ => true
  }

  function Now(t0: real, qs: seq<Request>): real {
    if qs == [] then t0 else TimeAfter(Now(t0, qs[..|qs| - 1]), qs[|qs| - 1])
  }

  /** No clock reading of the run goes backwards. */
  predicate Timely(t0: real, qs: seq<Request>) {
    qs == [] || (Timely(t0, qs[..|qs| - 1]) && InOrder(Now(t0, qs[..|qs| - 1]), qs[|qs| - 1]))
  }

  // ---- one request further ----

  lemma {:induction false} NextRequest(cfg: Config, qs: seq<Request>, i: nat)
    requires i < |qs|
    ensures Serve(cfg, qs[..i + 1]) == Handle(cfg, Serve(cfg, qs[..i]), qs[i])
  {
    assert qs[..i + 1][..i] == qs[..i];
  }

  lemma {:induction false} NextReading(t0: real, qs: seq<Request>, i: nat)
    requires i < |qs|
    ensures Timely(t0, qs[..i + 1]) <==> Timely(t0, qs[..i]) && InOrder(Now(t0, qs[..i]), qs[i])
    ensures Now(t0, qs[..i + 1]) == TimeAfter(Now(t0, qs[..i]), qs[i])
  {
    assert qs[..i + 1][..i] == qs[..i];
  }
}
