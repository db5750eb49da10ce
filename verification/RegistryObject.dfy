/** The registry as the coordinator runs it: two dictionaries updated in place. */
module RegistryObject {
  import opened Wrappers
  import opened Peers
  import opened Ledgers
  import R = Registry

  class Registry {
    const cfg: R.Config
    const ledger: Ledger
    var states: map<PeerId, R.PeerState>
    var attest: map<R.Key, R.Attestation>
    ghost var log: seq<R.Settlement>

    ghost function View(): R.Reg
      reads this, ledger
    {
      R.Reg(states, attest, ledger.View(), log)
    }

    constructor (cfg: R.Config, ledger: Ledger)
      ensures this.cfg == cfg && this.ledger == ledger
      ensures View() == R.EMPTY.(books := ledger.View())
    {
      this.cfg, this.ledger := cfg, ledger;
      states, attest, log := map[], map[], [];
    }

    /** Records the interval [now - elapsed, now] as settled for `k`, with a ledger row if it is owed. */
    method Settle(k: R.Key, gb: real, now: real, elapsed: real, owed: bool, path: R.Path)
      modifies `log, ledger
      ensures View() == R.Settle(old(View()), k, gb, now, elapsed, owed, path)
    {
      if owed {
        ledger.Contribute(k.peer, k.member, gb, elapsed);
      }
      log := log + [R.Settlement(k, now - elapsed, now, if owed then gb else 0.0, path)];
    }

    predicate Attesting(k: R.Key, now: real)
      reads this
    {
      k in attest && now - attest[k].lastSeen <= cfg.timeout
    }

    method MarkCredited(k: R.Key, now: real)
      modifies `attest
      ensures View() == R.MarkCredited(old(View()), k, now)
    {
      if k !in attest {
        attest := attest[k := R.Attestation(0.0, 0.0, now)];
      } else {
        attest := attest[k := attest[k].(lastCredited := now)];
      }
    }

    /** Scans the declared contributors for `m`, as `next` over the list does. */
    method FindDeclared(p: Peer, m: MemberId) returns (gb: Option<real>)
      ensures gb == if Contributes(p, m) then Some(Declared(p, m)) else None
    {
      var i := 0;
      while i < |p.contributors|
        invariant 0 <= i <= |p.contributors|
        invariant forall j :: 0 <= j < i ==> p.contributors[j].member != m
        invariant Declared(p, m) == DeclaredFrom(p.contributors[i..], m)
      {
        if p.contributors[i].member == m {
          return Some(p.contributors[i].gb);
        }
        i := i + 1;
      }
      return None;
    }

    method Attest(p: PeerId, m: MemberId, gb: real, now: real) returns (r: Result<(), R.RegistryError>)
      modifies `attest, `log, ledger
      ensures match R.Attest(cfg, old(View()), p, m, gb, now)
              case Ok(s) => r == Ok(()) && View() == s
              case Err(e) => r == Err(e) && View() == old(View())
    {
      if p !in cfg.peers {
        return Err(R.UnknownPeer);
      }
      var declared := FindDeclared(cfg.peers[p], m);
      if declared == None {
        return Err(R.NotAContributor);
      }
      var held := R.Min(R.Max(0.0, gb), declared.value);
      var k := R.Key(p, m);
      if k !in attest {
        attest := attest[k := R.Attestation(now, held, now)];
        log := log + [R.Settlement(k, now, now, 0.0, R.OwnWord)];
        return Ok(());
      }
      var elapsed := R.Min(now - attest[k].lastCredited, R.MAX_CREDITED_INTERVAL);
      var owed := elapsed > 0.0 && attest[k].residentGb > 0.0 && p in states && states[p].healthy;
      Settle(k, attest[k].residentGb, now, elapsed, owed, R.OwnWord);
      attest := attest[k := R.Attestation(now, held, now)];
      return Ok(());
    }

    /** The split of a beat: one pass over the shares, skipping members who attest for themselves. */
    method SettleShares(p: PeerId, shares: seq<Share>, now: real, elapsed: real, owed: bool)
      modifies `attest, `log, ledger
      ensures View() == R.SettleShares(old(View()), cfg.timeout, p, shares, now, elapsed, owed)
    {
      for i := 0 to |shares|
        invariant View() == R.SettleShares(old(View()), cfg.timeout, p, shares[..i], now, elapsed, owed)
      {
        assert shares[..i + 1][..i] == shares[..i];
        var k := R.Key(p, shares[i].member);
        if !Attesting(k, now) {
          Settle(k, shares[i].gb, now, elapsed, owed, R.HeadsWord);
          MarkCredited(k, now);
        }
      }
      assert shares[..|shares|] == shares;
    }

    method Heartbeat(p: PeerId, now: real, later: real, gb: real, healthy: bool, detail: R.Detail)
      returns (r: Result<(), R.RegistryError>)
      modifies this, ledger
      ensures match R.Heartbeat(cfg, old(View()), p, now, later, gb, healthy, detail)
              case Ok(s) => r == Ok(()) && View() == s
              case Err(e) => r == Err(e) && View() == old(View())
    {
      if p !in cfg.peers {
        return Err(R.UnknownPeer);
      }
      var peer := cfg.peers[p];
      var held := R.Capped(peer, gb);
      if p !in states {
        states := states[p := R.PeerState(now, held, 0, healthy, 0, detail, now)];
      } else {
        var st := states[p];
        var elapsed := R.Min(now - st.lastCredited, R.MAX_CREDITED_INTERVAL);
        var owed := elapsed > 0.0 && st.residentGb > 0.0 && st.healthy;
        if elapsed > 0.0 {
          SettleShares(p, CreditSplit(peer, st.residentGb), now, elapsed, owed);
        }
        var failures := if healthy then 0 else st.failures;
        states := states[p := R.PeerState(now, held, st.inFlight, healthy, failures, detail, now)];
      }
      assert View() == R.RecordBeat(cfg, old(View()), p, now, held, healthy, detail);
      var owner := FindDeclared(peer, peer.owner);
      if owner.Some? {
        var _ := Attest(p, peer.owner, held, later);
      }
      return Ok(());
    }

    method MarkFailure(p: PeerId)
      modifies `states
      ensures View() == R.MarkFailure(old(View()), p)
    {
      if p !in states {
        return;
      }
      states := states[p := states[p].(failures := states[p].failures + 1)];
      if states[p].failures >= 2 {
        states := states[p := states[p].(healthy := false, detail := R.RelayFailures(states[p].failures))];
      }
    }

    predicate IsLive(p: PeerId, now: real)
      reads `states
    {
      p in states && states[p].healthy && now - states[p].lastSeen <= cfg.timeout
    }

    /** Reading a peer's state has a side effect when there is none yet. */
    method State(p: PeerId) returns (st: R.PeerState)
      modifies `states
      ensures View() == R.EnsureState(old(View()), p)
      ensures p in states && st == states[p]
    {
      if p !in states {
        states := states[p := R.UNSEEN];
      }
      st := states[p];
    }

    method AcquireSlot(p: PeerId)
      modifies `states
      ensures View() == R.AcquireSlot(old(View()), p)
    {
      var st := State(p);
      states := states[p := st.(inFlight := st.inFlight + 1)];
    }

    method ReleaseSlot(p: PeerId)
      modifies `states
      ensures View() == R.ReleaseSlot(old(View()), p)
    {
      var st := State(p);
      states := states[p := st.(inFlight := if st.inFlight - 1 >= 0 then st.inFlight - 1 else 0)];
    }
  }
}
