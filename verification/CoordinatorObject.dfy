/** The coordinator's handlers over its registry, scheduler and ledger, cut where they await. */
module CoordinatorObject {
  import opened Wrappers
  import opened Peers
  import opened Ledgers
  import R = Registry
  import S = Scheduler
  import C = Coordinator
  import RegistryObject
  import SchedulerObject

  class Coordinator {
    const cfg: R.Config
    const ledger: Ledger
    const registry: RegistryObject.Registry
    const scheduler: SchedulerObject.Scheduler
    var accepted: map<RequestId, C.Stream>
    var running: map<RequestId, C.Stream>
    ghost var redemptions: seq<C.Redemption>

    ghost predicate Valid()
      reads this, scheduler
    {
      && scheduler.Valid() && scheduler.cfg == cfg && scheduler.registry == registry
      && registry.cfg == cfg && registry.ledger == ledger && R.WellFormed(cfg)
    }

    ghost function View(): C.Coord
      requires Valid()
      reads this, scheduler, registry, ledger
    {
      C.Coord(scheduler.View(), accepted, running, redemptions)
    }

    constructor (cfg: R.Config)
      requires R.WellFormed(cfg)
      ensures Valid() && this.cfg == cfg && View() == C.BOOT
      ensures fresh(ledger) && fresh(registry) && fresh(scheduler)
    {
      var books := new Ledger();
      var reg := new RegistryObject.Registry(cfg, books);
      var sched := new SchedulerObject.Scheduler(reg);
      this.cfg, ledger, registry, scheduler := cfg, books, reg, sched;
      accepted, running, redemptions := map[], map[], [];
    }

    /** Metering reads every peer's state. */
    method Observe()
      requires Valid()
      modifies registry`states
      ensures Valid() && View() == old(View()).(sched := C.Observe(cfg, old(View()).sched))
    {
      for i := 0 to |cfg.order|
        invariant Valid() && scheduler.View() == old(scheduler.View()).(reg := C.LookAll(cfg, old(registry.View()), cfg.order[..i]))
      {
        assert cfg.order[..i + 1][..i] == cfg.order[..i];
        var _ := registry.State(cfg.order[i]);
      }
      assert cfg.order[..|cfg.order|] == cfg.order;
    }

    /** The owner reports liveness, a declared contributor attests, anyone else is turned away. */
    method Heartbeat(signer: MemberId, p: PeerId, now: real, later: real, gb: real, healthy: bool, detail: R.Detail)
      returns (ok: bool)
      requires Valid()
      modifies registry, ledger
      ensures Valid() && View() == C.Handle(cfg, old(View()), C.HeartbeatFrom(signer, p, now, later, gb, healthy, detail))
      ensures ok <==> p in cfg.peers && C.RoleOf(cfg.peers[p], signer) != C.Stranger
    {
      if p !in cfg.peers {
        return false;
      }
      match C.RoleOf(cfg.peers[p], signer) {
        case AsOwner => var _ := registry.Heartbeat(p, now, later, gb, healthy, detail);
        case AsContributor => var _ := registry.Attest(p, signer, gb, now);
        case Stranger => return false;
      }
      ok := true;
    }

    /** Expired leases are reclaimed before the newcomer is considered; no answer means it asked for no model. */
    method Lease(member: MemberId, model: string, now: real) returns (r: Option<S.Acquired>)
      requires Valid()
      modifies scheduler, registry`states
      ensures Valid() && View() == C.Handle(cfg, old(View()), C.LeaseFor(member, model, now))
      ensures r == if model == "" then None
                   else Some(S.AcquireOutcome(cfg, S.ExpireStale(cfg, old(View()).sched, now), member, model, now))
    {
      if model == "" {
        return None;
      }
      var _ := scheduler.ExpireStale(now);
      var outcome := scheduler.Acquire(member, model, now);
      if outcome.Granted? {
        Observe();
      }
      r := Some(outcome);
    }

    /** Redeeming comes before anything is relayed; a refusal leaves no relay behind. */
    method Infer(id: RequestId, sender: MemberId, now: real) returns (r: Result<S.Lease, S.Refusal>)
      requires Valid()
      modifies this, scheduler, registry`states
      ensures Valid() && View() == C.Handle(cfg, old(View()), C.InferFor(id, sender, now))
      ensures r.Ok? <==> S.RedeemCheck(old(View()).sched, id, sender, now) == None
    {
      r := scheduler.Redeem(id, sender, now);
      if r.Ok? {
        Observe();
        accepted := accepted[id := C.Stream(sender, r.value.peer)];
        redemptions := redemptions + [C.Redemption(id, sender)];
      }
    }

    method RelayStarts(id: RequestId)
      requires Valid()
      modifies this
      ensures Valid() && View() == C.Handle(cfg, old(View()), C.RelayStarts(id))
    {
      if id in accepted {
        running, accepted := running[id := accepted[id]], accepted - {id};
      }
    }

    /** A receipt is billed to the relay it came through; the ledger keeps one row an id. */
    method OnReceipt(id: RequestId, promptTokens: nat, completionTokens: nat)
      requires Valid()
      modifies ledger
      ensures Valid() && View() == C.Handle(cfg, old(View()), C.ReceiptArrives(id, promptTokens, completionTokens))
    {
      if id in running {
        ledger.Consume(Consumed(running[id].sender, id, running[id].peer, promptTokens, completionTokens));
      }
    }

    method RelayBreaks(id: RequestId)
      requires Valid()
      modifies registry`states
      ensures Valid() && View() == C.Handle(cfg, old(View()), C.RelayBreaks(id))
    {
      if id in running {
        registry.MarkFailure(running[id].peer);
      }
    }

    /** Whatever way the relay ends, its lease is given back. */
    method RelayEnds(id: RequestId, now: real)
      requires Valid()
      modifies this, scheduler, registry`states
      ensures Valid() && View() == C.Handle(cfg, old(View()), C.RelayEnds(id, now))
    {
      if id in running {
        scheduler.Release(id, now);
        Observe();
        running := running - {id};
      }
    }
  }
}
