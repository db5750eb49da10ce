/** The scheduler as the coordinator runs it: a heap of waiters, a dictionary of leases, one task at a time. */
module SchedulerObject {
  import opened Wrappers
  import opened Peers
  import opened Ledgers
  import opened WaitHeap
  import opened Slots
  import R = Registry
  import S = Scheduler
  import RegistryObject

  lemma ServeNext(cfg: R.Config, s: S.Sched, ws: seq<Waiter>, i: nat, w: Waiter, rest: seq<Waiter>, now: real)
    requires i <= |ws| && ws[i..] == [w] + rest
    ensures i < |ws| && ws[i + 1..] == rest
    ensures S.ServeAll(cfg, s, ws[..i + 1], now) == S.ServeOne(cfg, S.ServeAll(cfg, s, ws[..i], now), w, now)
  {
    assert ws[i..][0] == w && ws[i..][1..] == rest;
    assert ws[..i + 1][..i] == ws[..i];
  }

  class Scheduler {
    const cfg: R.Config
    const ledger: Ledger
    const registry: RegistryObject.Registry
    var waiters: seq<Waiter>
    var leases: seq<S.Lease>
    var redeemed: set<RequestId>
    var futures: map<nat, S.Future>
    var tickets: nat
    var nextId: nat
    ghost var issued: seq<S.Lease>

    ghost predicate Valid()
      reads this
    {
      && registry.cfg == cfg && registry.ledger == ledger
      && Queue(waiters)
      && (forall w :: w in waiters ==> w.ticket < tickets)
      && nextId == |issued|
    }

    ghost function View(): S.Sched
      reads this, registry, registry.ledger
    {
      S.Sched(registry.View(), leases, redeemed, Sort(waiters), futures, tickets, issued)
    }

    constructor (registry: RegistryObject.Registry)
      ensures this.registry == registry && cfg == registry.cfg && ledger == registry.ledger
      ensures Valid() && View() == S.IDLE.(reg := registry.View())
    {
      this.cfg, this.ledger, this.registry := registry.cfg, registry.ledger, registry;
      waiters, leases, redeemed, futures, tickets, nextId, issued := [], [], {}, map[], 0, 0, [];
    }

    /** One pass over the live peers with a free slot, keeping the least loaded. */
    method Pick(model: string, now: real) returns (best: Option<PeerId>)
      requires Valid() && R.WellFormed(cfg)
      ensures best == S.Pick(cfg, registry.states, model, now)
    {
      best := None;
      for i := 0 to |cfg.order|
        invariant best == S.PickFrom(cfg, registry.states, model, now, cfg.order[..i])
      {
        assert cfg.order[..i + 1][..i] == cfg.order[..i];
        var p := cfg.order[i];
        if S.Serves(cfg.peers[p], model) && registry.IsLive(p, now) && registry.states[p].inFlight < cfg.peers[p].maxConcurrent {
          if best == None || S.LessLoaded(registry.states, p, best.value) {
            best := Some(p);
          }
        }
      }
      assert cfg.order[..|cfg.order|] == cfg.order;
    }

    method Issue(member: MemberId, p: PeerId, now: real) returns (l: S.Lease)
      requires Valid()
      modifies `leases, `nextId, `issued, registry`states
      ensures Valid() && View() == S.Issue(cfg, old(View()), member, p, now)
      ensures l == S.LeaseFrom(cfg, old(View()), member, p, now)
    {
      registry.AcquireSlot(p);
      l := S.Lease(nextId, member, p, now + cfg.leaseTtl);
      leases := leases + [l];
      nextId := nextId + 1;
      issued := issued + [l];
    }

    /** One turn of the loop below for a waiter already taken off the heap; `deferred` if nobody can serve it. */
    method Offer(w: Waiter, now: real, ghost aside: seq<Waiter>) returns (deferred: bool)
      requires Valid() && R.WellFormed(cfg)
      modifies `leases, `nextId, `issued, `futures, registry`states
      ensures Valid()
      ensures View().(waiting := if deferred then aside + [w] else aside) ==
              S.ServeOne(cfg, old(View()).(waiting := aside), w, now)
    {
      if !S.IsPending(futures, w.ticket) {
        return false;
      }
      var peer := Pick(w.model, now);
      if peer == None {
        return true;
      }
      var l := Issue(w.member, peer.value, now);
      futures := futures[w.ticket := S.Done(l)];
      return false;
    }

    /** One turn of the scan: take the best waiter off the heap and serve it, drop it or set it aside. */
    method TakeOne(aside: seq<Waiter>, now: real) returns (aside': seq<Waiter>, ghost w: Waiter)
      requires Valid() && R.WellFormed(cfg) && waiters != []
      modifies this, registry`states
      ensures Valid() && |waiters| < |old(waiters)| && Sort(old(waiters)) == [w] + Sort(waiters)
      ensures View().(waiting := aside') == S.ServeOne(cfg, old(View()).(waiting := aside), w, now)
    {
      var best, rest := PopBest(waiters);
      waiters := rest;
      var deferred := Offer(best, now, aside);
      aside', w := if deferred then aside + [best] else aside, best;
    }

    /** Take the best waiter until the heap is empty; `aside` collects those nobody can serve. */
    method Scan(now: real) returns (aside: seq<Waiter>)
      requires Valid() && R.WellFormed(cfg)
      modifies this, registry`states
      ensures Valid() && waiters == []
      ensures View().(waiting := aside) == S.Dispatch(cfg, old(View()), now)
    {
      ghost var s0, ws, i := old(View()).(waiting := []), Sort(waiters), 0;
      aside := [];
      while waiters != []
        invariant Valid() && 0 <= i <= |ws| && Sort(waiters) == ws[i..]
        invariant View().(waiting := aside) == S.ServeAll(cfg, s0, ws[..i], now)
        decreases |waiters|
      {
        ghost var w;
        aside, w := TakeOne(aside, now);
        ServeNext(cfg, s0, ws, i, w, Sort(waiters), now);
        i := i + 1;
      }
      assert ws[..i] == ws;
    }

    /** Serve the queue, then push back the waiters set aside. */
    method Dispatch(now: real)
      requires Valid() && R.WellFormed(cfg)
      modifies this, registry`states
      ensures Valid() && View() == S.Dispatch(cfg, old(View()), now)
    {
      SortIs(waiters);
      UniqueTickets(Sort(waiters));
      SortMembers(waiters);
      ServeAllOrders(cfg, View().(waiting := []), Sort(waiters), now);
      var aside := Scan(now);
      waiters := PushAll(aside);
      SortMembers(waiters);
    }

    method Release(id: RequestId, now: real)
      requires Valid() && R.WellFormed(cfg)
      modifies this, registry`states
      ensures Valid() && View() == S.Release(cfg, old(View()), id, now)
    {
      var found := S.FindLease(leases, id);
      leases := S.Without(leases, id);
      redeemed := redeemed - {id};
      if found.Some? {
        registry.ReleaseSlot(found.value.peer);
      }
      assert View() == S.GiveBack(old(View()), id);
      Dispatch(now);
    }

    method Redeem(id: RequestId, member: MemberId, now: real) returns (r: Result<S.Lease, S.Refusal>)
      requires Valid() && R.WellFormed(cfg)
      modifies this, registry`states
      ensures Valid() && View() == S.Redeem(cfg, old(View()), id, member, now)
      ensures match S.RedeemCheck(old(View()), id, member, now)
              case None => r == Ok(S.FindLease(old(leases), id).value)
              case Some(e) => r == Err(e)
    {
      var found := S.FindLease(leases, id);
      if found == None {
        return Err(S.Unknown);
      }
      var l := found.value;
      if l.member != member {
        return Err(S.WrongMember);
      }
      if now > l.expiresAt {
        Release(id, now);
        return Err(S.Expired);
      }
      if id in redeemed {
        return Err(S.AlreadyRedeemed);
      }
      redeemed := redeemed + {id};
      return Ok(l);
    }

    method ExpireStale(now: real) returns (count: nat)
      requires Valid() && R.WellFormed(cfg)
      modifies this, registry`states
      ensures Valid() && View() == S.ExpireStale(cfg, old(View()), now)
      ensures count == |S.StaleIds(old(leases), now)|
    {
      var stale: seq<RequestId> := [];
      for i := 0 to |leases|
        invariant stale == S.StaleIds(leases[..i], now) && View() == old(View()) && Valid() && leases == old(leases)
      {
        assert leases[..i + 1][..i] == leases[..i];
        if now > leases[i].expiresAt {
          stale := stale + [leases[i].id];
        }
      }
      assert leases[..|leases|] == leases;
      for i := 0 to |stale|
        invariant Valid() && View() == S.ReleaseAll(cfg, old(View()), stale[..i], now)
      {
        assert stale[..i + 1][..i] == stale[..i];
        Release(stale[i], now);
      }
      assert stale[..|stale|] == stale;
      count := |stale|;
    }

    method AnyLive(model: string, now: real) returns (live: bool)
      requires Valid() && R.WellFormed(cfg)
      ensures live <==> S.AnyLive(cfg, registry.states, model, now)
    {
      live := false;
      for i := 0 to |cfg.order|
        invariant live <==> exists j :: 0 <= j < i && S.Offers(cfg, registry.states, cfg.order[j], model, now)
      {
        if S.Serves(cfg.peers[cfg.order[i]], model) && registry.IsLive(cfg.order[i], now) {
          live := true;
        }
      }
    }

    method Enqueue(member: MemberId, model: string) returns (t: nat)
      requires Valid()
      modifies `waiters, `futures, `tickets
      ensures Valid() && t == old(tickets)
      ensures View() == old(View()).(waiting := Insert(old(View()).waiting, S.WaiterFor(old(View()), member, model)),
                                     futures := old(futures)[t := S.Pending], tickets := t + 1)
    {
      t := tickets;
      waiters := PushNew(waiters, Waiter(-ledger.GetBalance(member).score, t, member, model));
      futures := futures[t := S.Pending];
      tickets := t + 1;
    }

    /** Up to the point where the caller either has its answer or waits on a future. */
    method Acquire(member: MemberId, model: string, now: real) returns (r: S.Acquired)
      requires Valid() && R.WellFormed(cfg)
      modifies this, registry`states
      ensures Valid() && View() == S.Acquire(cfg, old(View()), member, model, now)
      ensures r == S.AcquireOutcome(cfg, old(View()), member, model, now)
    {
      SortMembers(waiters);
      var live := AnyLive(model, now);
      if !live {
        return S.NoCapacity;
      }
      var peer := Pick(model, now);
      if peer.Some? {
        var l := Issue(member, peer.value, now);
        return S.Granted(l);
      }
      if |waiters| >= cfg.maxQueue {
        return S.QueueFull;
      }
      var t := Enqueue(member, model);
      return S.Queued(t);
    }

    /** The wait ends early: asyncio cancels the future, which does nothing to one already done. */
    method Abandon(t: nat)
      requires Valid()
      modifies `futures
      ensures Valid() && View() == S.Abandon(old(View()), t)
    {
      if S.IsPending(futures, t) {
        futures := futures[t := S.Cancelled];
      }
    }

    /** Removes the waiter if it is still queued and restores the heap. */
    method Drop(t: nat)
      requires Valid()
      modifies `waiters
      ensures Valid() && View() == S.Drop(old(View()), t)
    {
      waiters := Remove(waiters, t);
    }
  }
}
