/** Routing depends on owners' beats alone: no contributor's attestation can change what is offered. */
module Routing {
  import opened Wrappers
  import opened Peers
  import opened Ledgers
  import opened Registry

  /** The run without its contributor attestations. */
  function Silenced(es: seq<Event>): seq<Event> {
    if es == [] then []
    else if es[|es| - 1].Attests? then Silenced(es[..|es| - 1])
    else Silenced(es[..|es| - 1]) + [es[|es| - 1]]
  }

  lemma {:induction false} SettleSharesKeepsStates(s: Reg, timeout: real, p: PeerId, shares: seq<Share>, now: real, elapsed: real, owed: bool)
    ensures SettleShares(s, timeout, p, shares, now, elapsed, owed).states == s.states
  {
    if shares != [] {
      SettleSharesKeepsStates(s, timeout, p, shares[..|shares| - 1], now, elapsed, owed);
    }
  }

  /** What a step makes of the routing states, from those states alone. */
  function StatesAfter(cfg: Config, states: map<PeerId, PeerState>, e: Event): map<PeerId, PeerState> {
    if e.Beat? && e.peer in cfg.peers then
      var held := Capped(cfg.peers[e.peer], e.gb);
      if e.peer !in states then states[e.peer := PeerState(e.now, held, 0, e.healthy, 0, e.detail, e.now)]
      else
        var st := states[e.peer];
        states[e.peer := PeerState(e.now, held, st.inFlight, e.healthy, if e.healthy then 0 else st.failures, e.detail, e.now)]
    else if e.Beat? || e.Attests? then states
    else Step(cfg, EMPTY.(states := states), e).states
  }

  lemma StatesFollow(cfg: Config, s: Reg, e: Event)
    ensures Step(cfg, s, e).states == StatesAfter(cfg, s.states, e)
  {
    if e.Beat? && e.peer in cfg.peers && e.peer in s.states {
      var st := s.states[e.peer];
      SettleSharesKeepsStates(s, cfg.timeout, e.peer, CreditSplit(cfg.peers[e.peer], st.residentGb), e.now,
                              Min(e.now - st.lastCredited, MAX_CREDITED_INTERVAL), Owed(st, e.now));
    }
  }

  lemma {:induction false} SilencingKeepsStates(cfg: Config, es: seq<Event>)
    ensures Run(cfg, Silenced(es)).states == Run(cfg, es).states
  {
    if es != [] {
      var n := |es| - 1;
      SilencingKeepsStates(cfg, es[..n]);
      StatesFollow(cfg, Run(cfg, es[..n]), es[n]);
      StatesFollow(cfg, Run(cfg, Silenced(es[..n])), es[n]);
      if !es[n].Attests? {
        assert Silenced(es)[..|Silenced(es)| - 1] == Silenced(es[..n]);
      }
    }
  }

  /** The second failed relay with no healthy beat between takes a peer out of the pool; the first does not touch it. */
  lemma TwoStrikes(cfg: Config, s: Reg, p: PeerId, now: real)
    requires p in s.states && s.states[p].failures == 0
    ensures IsLive(cfg, MarkFailure(s, p).states, p, now) <==> IsLive(cfg, s.states, p, now)
    ensures !IsLive(cfg, MarkFailure(MarkFailure(s, p), p).states, p, now)
  {
  }

  /**
   Deleting every contributor attestation from a run leaves each peer's state, and every later
   answer to "is this peer live", as they were - after every prefix of the run.
   */
  lemma AttestationsDoNotRoute(cfg: Config, es: seq<Event>, i: nat, p: PeerId, now: real)
    requires i <= |es|
    ensures Run(cfg, Silenced(es[..i])).states == Run(cfg, es[..i]).states
    ensures IsLive(cfg, Run(cfg, Silenced(es[..i])).states, p, now) <==> IsLive(cfg, Run(cfg, es[..i]).states, p, now)
  {
    SilencingKeepsStates(cfg, es[..i]);
  }
}
