/** Two runs in which a contributor's first own word costs it time it would otherwise have been paid for. */
module FirstWord {
  import opened Wrappers
  import opened Peers
  import opened Ledgers
  import opened Registry
  import opened Crediting
  import opened Coverage

  /** The group serves and its owner beats a minute apart; nobody else says anything. */
  function Silence(d: Detail): seq<Event> {
    [Beat("p", 1000.0, 1000.0, 2.0, true, d), Beat("p", 1060.0, 1060.0, 2.0, true, d)]
  }

  /** Alice speaks for the first time between the two beats. */
  function SpeaksBetween(d: Detail): seq<Event> {
    [Beat("p", 1000.0, 1000.0, 2.0, true, d), Attests("p", "alice", 1050.0, 1.0), Beat("p", 1060.0, 1060.0, 2.0, true, d)]
  }

  /** Alice speaks for the first time once the owner's beat has settled her. */
  function SpeaksAfter(d: Detail): seq<Event> {
    Silence(d) + [Attests("p", "alice", 1110.0, 1.0)]
  }

  const ALICE := Key("p", "alice")
  const CAROL := Key("p", "carol")

  function UpAt(now: real, d: Detail): map<PeerId, PeerState> {
    map["p" := PeerState(now, 2.0, 0, true, 0, d, now)]
  }

  /** After the first beat; then after the second, if nobody spoke; and after Alice's word between the two. */
  function Opened(d: Detail): Reg {
    Reg(UpAt(1000.0, d), map[], Books([], []), [])
  }

  function BothPaid(d: Detail): Reg {
    Reg(UpAt(1060.0, d), map[ALICE := Attestation(0.0, 0.0, 1060.0), CAROL := Attestation(0.0, 0.0, 1060.0)],
        Books([Contributed("p", "alice", 1.0, 60.0), Contributed("p", "carol", 1.0, 60.0)], []),
        [Settlement(ALICE, 1000.0, 1060.0, 1.0, HeadsWord), Settlement(CAROL, 1000.0, 1060.0, 1.0, HeadsWord)])
  }

  function AliceHeard(d: Detail): Reg {
    Reg(UpAt(1000.0, d), map[ALICE := Attestation(1050.0, 1.0, 1050.0)], Books([], []),
        [Settlement(ALICE, 1050.0, 1050.0, 0.0, OwnWord)])
  }

  function CarolPaid(d: Detail): Reg {
    Reg(UpAt(1060.0, d), map[ALICE := Attestation(1050.0, 1.0, 1050.0), CAROL := Attestation(0.0, 0.0, 1060.0)],
        Books([Contributed("p", "carol", 1.0, 60.0)], []),
        [Settlement(ALICE, 1050.0, 1050.0, 0.0, OwnWord), Settlement(CAROL, 1000.0, 1060.0, 1.0, HeadsWord)])
  }

  lemma FirstBeatOpens(p: Peer, d: Detail)
    requires TwoShares(p)
    ensures Step(OnePeer(p), EMPTY, Beat("p", 1000.0, 1000.0, 2.0, true, d)) == Opened(d)
  {
    EvenShares(p);
    assert Capped(p, 2.0) == 2.0;
  }

  lemma PaysBoth(s: Reg)
    requires s.attest == map[]
    ensures var s' := SettleShare(SettleShare(s, 90.0, ALICE, 1.0, 1060.0, 60.0, true), 90.0, CAROL, 1.0, 1060.0, 60.0, true);
            && s'.attest == map[ALICE := Attestation(0.0, 0.0, 1060.0), CAROL := Attestation(0.0, 0.0, 1060.0)]
            && s'.books.consumptions == s.books.consumptions
            && s'.books.contributions == s.books.contributions + [Contributed("p", "alice", 1.0, 60.0)] + [Contributed("p", "carol", 1.0, 60.0)]
            && s'.log == s.log + [Settlement(ALICE, 1000.0, 1060.0, 1.0, HeadsWord)] + [Settlement(CAROL, 1000.0, 1060.0, 1.0, HeadsWord)]
  {
  }

  lemma PaysCarol(s: Reg)
    requires s.attest == map[ALICE := Attestation(1050.0, 1.0, 1050.0)]
    ensures var s' := SettleShare(SettleShare(s, 90.0, ALICE, 1.0, 1060.0, 60.0, true), 90.0, CAROL, 1.0, 1060.0, 60.0, true);
            && s'.attest == map[ALICE := Attestation(1050.0, 1.0, 1050.0), CAROL := Attestation(0.0, 0.0, 1060.0)]
            && s'.books == s.books.(contributions := s.books.contributions + [Contributed("p", "carol", 1.0, 60.0)])
            && s'.log == s.log + [Settlement(CAROL, 1000.0, 1060.0, 1.0, HeadsWord)]
  {
    assert SettleShare(s, 90.0, ALICE, 1.0, 1060.0, 60.0, true) == s;
  }

  lemma SecondBeatPaysBoth(p: Peer, d: Detail)
    requires TwoShares(p)
    ensures Step(OnePeer(p), Opened(d), Beat("p", 1060.0, 1060.0, 2.0, true, d)) == BothPaid(d)
  {
    NextBeat(p, d, Opened(d), 1060.0);
    PaysBoth(Opened(d));
  }

  lemma SecondBeatPaysCarol(p: Peer, d: Detail)
    requires TwoShares(p)
    ensures Step(OnePeer(p), AliceHeard(d), Beat("p", 1060.0, 1060.0, 2.0, true, d)) == CarolPaid(d)
  {
    NextBeat(p, d, AliceHeard(d), 1060.0);
    PaysCarol(AliceHeard(d));
  }

  lemma AliceSpeaksFirst(p: Peer, d: Detail)
    requires TwoShares(p)
    ensures Step(OnePeer(p), Opened(d), Attests("p", "alice", 1050.0, 1.0)) == AliceHeard(d)
    ensures Loses(OnePeer(p), Opened(d), Attests("p", "alice", 1050.0, 1.0))
  {
    EvenShares(p);
  }

  /** Her first word finds an attestation the owner's beat made, with nothing held. */
  lemma AliceSpeaksLate(p: Peer, d: Detail)
    requires TwoShares(p)
    ensures var s' := Step(OnePeer(p), BothPaid(d), Attests("p", "alice", 1110.0, 1.0));
            && s'.books == BothPaid(d).books && s'.log == BothPaid(d).log + [Settlement(ALICE, 1060.0, 1110.0, 0.0, OwnWord)]
            && s'.attest[ALICE := Attestation(1110.0, 1.0, 1110.0)] == s'.attest && ALICE in s'.attest
    ensures Loses(OnePeer(p), BothPaid(d), Attests("p", "alice", 1110.0, 1.0))
  {
    EvenShares(p);
  }

  lemma SilentRun(p: Peer, d: Detail)
    requires TwoShares(p)
    ensures Run(OnePeer(p), Silence(d)) == BothPaid(d)
  {
    var es := Silence(d);
    assert es[..2] == es && es[..0] == [];
    Next(OnePeer(p), es, 0);
    Next(OnePeer(p), es, 1);
    FirstBeatOpens(p, d);
    SecondBeatPaysBoth(p, d);
  }

  lemma BetweenRun(p: Peer, d: Detail)
    requires TwoShares(p)
    ensures Run(OnePeer(p), SpeaksBetween(d)[..1]) == Opened(d)
    ensures Run(OnePeer(p), SpeaksBetween(d)) == CarolPaid(d)
  {
    var es := SpeaksBetween(d);
    assert es[..3] == es && es[..0] == [];
    Next(OnePeer(p), es, 0);
    Next(OnePeer(p), es, 1);
    Next(OnePeer(p), es, 2);
    FirstBeatOpens(p, d);
    AliceSpeaksFirst(p, d);
    SecondBeatPaysCarol(p, d);
  }

  lemma {:induction false} NextLoss(cfg: Config, es: seq<Event>, i: nat)
    requires i < |es|
    ensures RunLoses(cfg, es[..i + 1]) <==> RunLoses(cfg, es[..i]) || Loses(cfg, Run(cfg, es[..i]), es[i])
  {
    assert es[..i + 1][..i] == es[..i];
  }

  lemma FirstWordTimely(d: Detail)
    ensures Monotonic(0.0, SpeaksBetween(d)) && Monotonic(0.0, SpeaksAfter(d))
  {
    var a, b := SpeaksBetween(d), SpeaksAfter(d);
    assert a[..0] == [] && a[..3] == a && b[..0] == [] && b[..3] == b;
    NextReading(0.0, a, 0);
    NextReading(0.0, a, 1);
    NextReading(0.0, a, 2);
    NextReading(0.0, b, 0);
    NextReading(0.0, b, 1);
    NextReading(0.0, b, 2);
  }

  /**
   With the group serving and its owner beating a minute apart, alice's first word fifty seconds in
   starts her clock there: her minute is in no interval, though each of her intervals joins the one
   before. Had she said nothing she would have been paid for it.
   */
  lemma FirstWordCosts(p: Peer, d: Detail)
    requires TwoShares(p)
    ensures WellFormed(OnePeer(p)) && Monotonic(0.0, SpeaksBetween(d))
    ensures var s := Run(OnePeer(p), SpeaksBetween(d));
            && !RunAccounts(OnePeer(p), SpeaksBetween(d)) && Covered(s.log)
            && (forall e :: e in s.log && e.key == ALICE ==> e.start >= 1050.0)
            && ALICE in s.attest && s.attest[ALICE].lastCredited == 1050.0
            && s.books.contributions == [Contributed("p", "carol", 1.0, 60.0)]
    ensures Run(OnePeer(p), Silence(d)).books.contributions ==
            [Contributed("p", "alice", 1.0, 60.0), Contributed("p", "carol", 1.0, 60.0)]
  {
    EvenShares(p);
    FirstWordTimely(d);
    SilentRun(p, d);
    BetweenRun(p, d);
    BetweenLoses(p, d);
    CoversExactly(OnePeer(p), SpeaksBetween(d), 0.0);
    AliceHasNoMinute(d);
  }

  lemma BetweenLoses(p: Peer, d: Detail)
    requires TwoShares(p)
    ensures RunLoses(OnePeer(p), SpeaksBetween(d))
  {
    var es := SpeaksBetween(d);
    BetweenRun(p, d);
    AliceSpeaksFirst(p, d);
    assert es[..3] == es;
    NextLoss(OnePeer(p), es, 1);
    NextLoss(OnePeer(p), es, 2);
  }

  lemma AliceHasNoMinute(d: Detail)
    ensures var s := CarolPaid(d);
            && Covered(s.log) && (forall e :: e in s.log && e.key == ALICE ==> e.start >= 1050.0)
            && s.attest[ALICE].lastCredited == 1050.0
  {
  }

  /** The same once she has been settled on the owner's word: the fifty seconds before her first word are settled for nothing. */
  lemma LateFirstWordCosts(p: Peer, d: Detail)
    requires TwoShares(p)
    ensures WellFormed(OnePeer(p)) && Monotonic(0.0, SpeaksAfter(d))
    ensures var s := Run(OnePeer(p), SpeaksAfter(d));
            && !RunAccounts(OnePeer(p), SpeaksAfter(d)) && Settlement(ALICE, 1060.0, 1110.0, 0.0, OwnWord) in s.log
            && s.books == Run(OnePeer(p), Silence(d)).books
            && ALICE in s.attest && s.attest[ALICE].lastCredited == 1110.0
  {
    var cfg, es := OnePeer(p), SpeaksAfter(d);
    EvenShares(p);
    FirstWordTimely(d);
    SilentRun(p, d);
    AliceSpeaksLate(p, d);
    assert es[..3] == es && es[..2] == Silence(d);
    Next(cfg, es, 2);
    NextLoss(cfg, es, 2);
    CoversExactly(cfg, es, 0.0);
  }
}
