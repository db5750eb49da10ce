/**
 A peer's readiness check. Many callers may be inside it at once; each step below is what one of
 them does between two awaits. `probes` and `answers` record what happened.
 */
module Readiness {
  import opened Wrappers

  type CallerId = nat

  datatype Readiness = Readiness(ok: bool, reason: string)

  datatype Outcome = Running | Completed(verdict: Readiness) | Abandoned

  datatype Probe = Probe(caller: CallerId, start: real, outcome: Outcome)

  /** Where an answer came from: recent progress, or the probe at some position. */
  datatype Source = Served(progress: real) | Probed(k: nat)

  /** `at` is the answered caller's last reading of the clock. */
  datatype Answer = Answer(caller: CallerId, at: real, verdict: Readiness, source: Source)

  datatype Settings = Settings(readinessWindow: real, probeInterval: real)

  /** The lock is held exactly while a probe runs; the last probe is then its holder's. */
  datatype Gate = Gate(
    lastProgress: real,
    cached: Option<Readiness>,
    cachedAt: real,
    cachedFrom: nat,
    locked: bool,
    waiting: set<CallerId>,
    probes: seq<Probe>,
    answers: seq<Answer>)

  const NEW := Gate(0.0, None, 0.0, 0, false, {}, [], [])

  datatype Event =
    | Progress(now: real)
    | Calls(caller: CallerId, now: real)
    | GetsLock(caller: CallerId, now: real)
    | ProbeEnds(verdict: Readiness)
    | ProbeCancelled
    | WaitCancelled(caller: CallerId)

  function Fresh(cfg: Settings, g: Gate, now: real): Option<Readiness> {
    if g.cached.Some? && now - g.cachedAt < cfg.probeInterval then g.cached else None
  }

  predicate RecentlyServed(cfg: Settings, g: Gate, now: real) {
    g.lastProgress != 0.0 && now - g.lastProgress <= cfg.readinessWindow
  }

  function Reply(g: Gate, c: CallerId, now: real, verdict: Readiness, source: Source): Gate {
    g.(answers := g.answers + [Answer(c, now, verdict, source)], waiting := g.waiting - {c})
  }

  /** The first look, before queueing for the lock. */
  function Call(cfg: Settings, g: Gate, c: CallerId, now: real): Gate {
    if RecentlyServed(cfg, g, now) then Reply(g, c, now, Readiness(true, "served a request"), Served(g.lastProgress))
    else
      match Fresh(cfg, g, now)
      case Some(r) => Reply(g, c, now, r, Probed(g.cachedFrom))
      case None => g.(waiting := g.waiting + {c})
  }

  /** The second look, with the lock: whoever held it may just have probed. */
  function Enter(cfg: Settings, g: Gate, c: CallerId, now: real): Gate {
    match Fresh(cfg, g, now)
    case Some(r) => Reply(g, c, now, r, Probed(g.cachedFrom))
    case None => g.(waiting := g.waiting - {c}, locked := true, probes := g.probes + [Probe(c, now, Running)])
  }

  function EndProbe(g: Gate, outcome: Outcome): Gate
    requires g.probes != []
  {
    var n := |g.probes| - 1;
    g.(locked := false, probes := g.probes[n := g.probes[n].(outcome := outcome)])
  }

  /** The verdict is dated from the reading before the probe began. */
  function Finish(g: Gate, verdict: Readiness): Gate
    requires g.probes != []
  {
    var n := |g.probes| - 1;
    var p := g.probes[n];
    Reply(EndProbe(g, Completed(verdict)).(cached := Some(verdict), cachedAt := p.start, cachedFrom := n),
          p.caller, p.start, verdict, Probed(n))
  }

  /** A step that cannot be taken leaves everything as it was. */
  function Step(cfg: Settings, g: Gate, e: Event): Gate {
    match e
    case Progress(now) => g.(lastProgress := now)
    case Calls(c, now) => Call(cfg, g, c, now)
    case GetsLock(c, now) => if c in g.waiting && !g.locked then Enter(cfg, g, c, now) else g
    case ProbeEnds(r) => if g.locked && g.probes != [] then Finish(g, r) else g
    case ProbeCancelled => if g.locked && g.probes != [] then EndProbe(g, Abandoned) else g
    case WaitCancelled(c) => g.(waiting := g.waiting - {c})
  }

  function After(cfg: Settings, es: seq<Event>): Gate {
    if es == [] then NEW else Step(cfg, After(cfg, es[..|es| - 1]), es[|es| - 1])
  }

  function TimeOf(t: real, e: Event): real {
    match e
    case Progress(now) => now
    case Calls(_, now) => now
    case GetsLock(_, now) => now
    case _ => t
  }

  function Now(t0: real, es: seq<Event>): real {
    if es == [] then t0 else TimeOf(Now(t0, es[..|es| - 1]), es[|es| - 1])
  }

  predicate Timely(t0: real, es: seq<Event>) {
    es == [] || (Timely(t0, es[..|es| - 1]) && Now(t0, es[..|es| - 1]) <= Now(t0, es))
  }

  // ---- what every run keeps ----

  /** Probes start in order, only the last can be running, and none starts too soon after one that was not abandoned. */
  predicate Spaced(cfg: Settings, probes: seq<Probe>, t: real) {
    && (forall i :: 0 <= i < |probes| ==> probes[i].start <= t)
    && (forall i, j :: 0 <= i < j < |probes| ==> probes[i].start <= probes[j].start && !probes[i].outcome.Running?)
    && forall i, j :: 0 <= i < j < |probes| && !probes[i].outcome.Abandoned? ==>
         probes[j].start - probes[i].start >= cfg.probeInterval
  }

  predicate CacheSound(g: Gate) {
    if g.cached == None then forall i :: 0 <= i < |g.probes| ==> !g.probes[i].outcome.Completed?
    else
      && g.cachedFrom < |g.probes| && g.probes[g.cachedFrom] == Probe(g.probes[g.cachedFrom].caller, g.cachedAt, Completed(g.cached.value))
      && forall i :: 0 <= i < |g.probes| && g.probes[i].outcome.Completed? ==> g.probes[i].start <= g.cachedAt
  }

  predicate LockSound(g: Gate) {
    g.locked <==> g.probes != [] && g.probes[|g.probes| - 1].outcome.Running?
  }

  /** An answer is backed by progress within the window, or by a finished probe that is recent or the caller's own. */
  predicate Backed(cfg: Settings, probes: seq<Probe>, a: Answer) {
    match a.source
    case Served(progress) => a.verdict.ok && progress != 0.0 && a.at - progress <= cfg.readinessWindow
    case Probed(k) =>
      && k < |probes| && probes[k].outcome == Completed(a.verdict)
      && (a.at - probes[k].start < cfg.probeInterval || (probes[k].caller == a.caller && probes[k].start == a.at))
  }

  predicate Sound(cfg: Settings, g: Gate, t: real) {
    && Spaced(cfg, g.probes, t) && CacheSound(g) && LockSound(g)
    && forall i :: 0 <= i < |g.answers| ==> Backed(cfg, g.probes, g.answers[i])
  }

  lemma SoundLater(cfg: Settings, g: Gate, t: real, now: real)
    requires Sound(cfg, g, t) && t <= now
    ensures Sound(cfg, g, now)
  {
  }

  lemma ReplyKeeps(cfg: Settings, g: Gate, c: CallerId, now: real, verdict: Readiness, source: Source)
    requires Sound(cfg, g, now) && Backed(cfg, g.probes, Answer(c, now, verdict, source))
    ensures Sound(cfg, Reply(g, c, now, verdict, source), now)
  {
  }

  lemma StartKeepsSpacing(cfg: Settings, g: Gate, c: CallerId, now: real, t: real)
    requires Spaced(cfg, g.probes, t) && CacheSound(g) && LockSound(g) && t <= now && !g.locked && Fresh(cfg, g, now) == None
    ensures Spaced(cfg, g.probes + [Probe(c, now, Running)], now)
  {
    forall i | 0 <= i < |g.probes|
      ensures !g.probes[i].outcome.Running?
      ensures g.probes[i].outcome.Completed? ==> now - g.probes[i].start >= cfg.probeInterval
    {
    }
  }

  lemma EnterKeeps(cfg: Settings, g: Gate, c: CallerId, now: real, t: real)
    requires Sound(cfg, g, t) && t <= now && !g.locked
    ensures Sound(cfg, Enter(cfg, g, c, now), now)
  {
    SoundLater(cfg, g, t, now);
    if Fresh(cfg, g, now) == None {
      StartKeepsSpacing(cfg, g, c, now, t);
    } else {
      ReplyKeeps(cfg, g, c, now, g.cached.value, Probed(g.cachedFrom));
    }
  }

  lemma EndKeepsSpacing(cfg: Settings, g: Gate, outcome: Outcome, t: real)
    requires Spaced(cfg, g.probes, t) && g.probes != [] && !outcome.Running?
    ensures Spaced(cfg, EndProbe(g, outcome).probes, t)
  {
  }

  lemma FinishKeeps(cfg: Settings, g: Gate, verdict: Readiness, t: real)
    requires Sound(cfg, g, t) && g.locked
    ensures Sound(cfg, Finish(g, verdict), t)
  {
    EndKeepsSpacing(cfg, g, Completed(verdict), t);
  }

  lemma CancelKeeps(cfg: Settings, g: Gate, t: real)
    requires Sound(cfg, g, t) && g.locked
    ensures Sound(cfg, EndProbe(g, Abandoned), t)
  {
    EndKeepsSpacing(cfg, g, Abandoned, t);
  }

  lemma CallKeeps(cfg: Settings, g: Gate, c: CallerId, now: real, t: real)
    requires Sound(cfg, g, t) && t <= now
    ensures Sound(cfg, Call(cfg, g, c, now), now)
  {
    SoundLater(cfg, g, t, now);
    if RecentlyServed(cfg, g, now) {
      ReplyKeeps(cfg, g, c, now, Readiness(true, "served a request"), Served(g.lastProgress));
    } else if Fresh(cfg, g, now).Some? {
      ReplyKeeps(cfg, g, c, now, g.cached.value, Probed(g.cachedFrom));
    }
  }

  lemma StepKeeps(cfg: Settings, g: Gate, e: Event, t: real)
    requires Sound(cfg, g, t) && t <= TimeOf(t, e)
    ensures Sound(cfg, Step(cfg, g, e), TimeOf(t, e))
  {
    match e {
      case Progress(now) =>
      case Calls(c, now) => CallKeeps(cfg, g, c, now, t);
      case GetsLock(c, now) => if c in g.waiting && !g.locked { EnterKeeps(cfg, g, c, now, t); }
      case ProbeEnds(r) => if g.locked { FinishKeeps(cfg, g, r, t); }
      case ProbeCancelled => if g.locked { CancelKeeps(cfg, g, t); }
      case WaitCancelled(c) =>
    }
  }

  lemma {:induction false} RunIsSound(cfg: Settings, es: seq<Event>, t0: real)
    requires Timely(t0, es)
    ensures Sound(cfg, After(cfg, es), Now(t0, es))
  {
    if es != [] {
      RunIsSound(cfg, es[..|es| - 1], t0);
      StepKeeps(cfg, After(cfg, es[..|es| - 1]), es[|es| - 1], Now(t0, es[..|es| - 1]));
    }
  }

  /**
   However many callers there are, at most one probe runs at a time, and a probe starts sooner than
   the interval after an earlier one only if that one was cancelled.
   */
  lemma SingleFlight(cfg: Settings, es: seq<Event>, t0: real, i: nat, j: nat)
    requires Timely(t0, es) && i < j < |After(cfg, es).probes|
    ensures var ps := After(cfg, es).probes;
            && !ps[i].outcome.Running?
            && (!ps[i].outcome.Abandoned? ==> ps[j].start - ps[i].start >= cfg.probeInterval)
  {
    RunIsSound(cfg, es, t0);
  }

  // ---- exactly when probes come too close ----

  /** All probes, abandoned ones too, start at least the interval apart. */
  predicate Apart(cfg: Settings, probes: seq<Probe>) {
    forall i, j :: 0 <= i < j < |probes| ==> probes[j].start - probes[i].start >= cfg.probeInterval
  }

  /** `e` starts a probe too soon after one that was abandoned. */
  predicate Rushes(cfg: Settings, g: Gate, e: Event) {
    && e.GetsLock? && e.caller in g.waiting && !g.locked && Fresh(cfg, g, e.now) == None
    && g.probes != []
    && var last := g.probes[|g.probes| - 1];
       last.outcome.Abandoned? && e.now - last.start < cfg.probeInterval
  }

  predicate EverRushes(cfg: Settings, es: seq<Event>) {
    es != [] && (EverRushes(cfg, es[..|es| - 1]) || Rushes(cfg, After(cfg, es[..|es| - 1]), es[|es| - 1]))
  }

  /** A new probe keeps them apart exactly when it is far enough from the last. */
  lemma ApartSnoc(cfg: Settings, probes: seq<Probe>, p: Probe, t: real)
    requires Spaced(cfg, probes, t) && t <= p.start
    ensures Apart(cfg, probes + [p]) <==>
            Apart(cfg, probes) && (probes == [] || p.start - probes[|probes| - 1].start >= cfg.probeInterval)
  {
    var n, more := |probes|, probes + [p];
    if Apart(cfg, more) {
      assert forall i :: 0 <= i < n ==> more[i] == probes[i];
      assert n > 0 ==> more[n].start - more[n - 1].start >= cfg.probeInterval;
    }
  }

  lemma StartRushesExactly(cfg: Settings, g: Gate, c: CallerId, now: real, t: real)
    requires Sound(cfg, g, t) && t <= now && c in g.waiting && !g.locked && Fresh(cfg, g, now) == None
    ensures Apart(cfg, g.probes + [Probe(c, now, Running)]) <==> Apart(cfg, g.probes) && !Rushes(cfg, g, GetsLock(c, now))
  {
    ApartSnoc(cfg, g.probes, Probe(c, now, Running), t);
    StartKeepsSpacing(cfg, g, c, now, t);
    if g.probes != [] {
      var n := |g.probes| - 1;
      assert (g.probes + [Probe(c, now, Running)])[n] == g.probes[n];
    }
  }

  lemma OtherStepsStartNone(cfg: Settings, g: Gate, e: Event)
    requires !e.GetsLock?
    ensures Apart(cfg, Step(cfg, g, e).probes) <==> Apart(cfg, g.probes)
  {
    var ps := Step(cfg, g, e).probes;
    assert |ps| == |g.probes| && forall i :: 0 <= i < |ps| ==> ps[i].start == g.probes[i].start;
  }

  lemma StepRushesExactly(cfg: Settings, g: Gate, e: Event, t: real)
    requires Sound(cfg, g, t) && t <= TimeOf(t, e)
    ensures Apart(cfg, Step(cfg, g, e).probes) <==> Apart(cfg, g.probes) && !Rushes(cfg, g, e)
  {
    match e {
      case GetsLock(c, now) =>
        if c in g.waiting && !g.locked && Fresh(cfg, g, now) == None { StartRushesExactly(cfg, g, c, now, t); }
      case _ => OtherStepsStartNone(cfg, g, e);
    }
  }

  /**
   Over any run: all probes start at least the interval apart if and only if no caller takes the
   free lock, with nothing fresh, while the last probe was abandoned less than the interval ago.
   */
  lemma {:induction false} ProbesApartExactly(cfg: Settings, es: seq<Event>, t0: real)
    requires Timely(t0, es)
    ensures Apart(cfg, After(cfg, es).probes) <==> !EverRushes(cfg, es)
  {
    if es != [] {
      ProbesApartExactly(cfg, es[..|es| - 1], t0);
      RunIsSound(cfg, es[..|es| - 1], t0);
      StepRushesExactly(cfg, After(cfg, es[..|es| - 1]), es[|es| - 1], Now(t0, es[..|es| - 1]));
    }
  }

  /** Every answer is backed. */
  lemma AnswersAreBacked(cfg: Settings, es: seq<Event>, t0: real, i: nat)
    requires Timely(t0, es) && i < |After(cfg, es).answers|
    ensures Backed(cfg, After(cfg, es).probes, After(cfg, es).answers[i])
  {
    RunIsSound(cfg, es, t0);
  }

  // ---- exactly how a caller is answered ----

  /** When output for a real request was last noted, zero if never. */
  function LastProgress(es: seq<Event>): real {
    if es == [] then 0.0
    else if es[|es| - 1].Progress? then es[|es| - 1].now
    else LastProgress(es[..|es| - 1])
  }

  lemma {:induction false} ProgressIsKept(cfg: Settings, es: seq<Event>)
    ensures After(cfg, es).lastProgress == LastProgress(es)
  {
    if es != [] { ProgressIsKept(cfg, es[..|es| - 1]); }
  }

  /** Probe `k` gave its verdict and began within the interval before `now`. */
  predicate Recent(cfg: Settings, probes: seq<Probe>, k: nat, now: real) {
    k < |probes| && probes[k].outcome.Completed? && now - probes[k].start < cfg.probeInterval
  }

  /** `g'` is `g` with the caller answered, and no longer waiting. */
  ghost predicate Replies(g: Gate, g': Gate, a: Answer) {
    g' == g.(answers := g.answers + [a], waiting := g.waiting - {a.caller})
  }

  lemma FreshIsRecent(cfg: Settings, g: Gate, t: real, now: real)
    requires Sound(cfg, g, t)
    ensures Fresh(cfg, g, now).Some? <==> exists k: nat :: Recent(cfg, g.probes, k, now)
    ensures Fresh(cfg, g, now).Some? ==>
              Recent(cfg, g.probes, g.cachedFrom, now) && g.probes[g.cachedFrom].outcome == Completed(g.cached.value)
  {
    if Fresh(cfg, g, now).Some? { assert Recent(cfg, g.probes, g.cachedFrom, now); }
  }

  /**
   After any run a caller is told the engine serves if it did within the window, else the verdict of a
   recent probe if there is one, and otherwise queues for the lock.
   */
  lemma CallsExactly(cfg: Settings, es: seq<Event>, t0: real, c: CallerId, now: real)
    requires Timely(t0, es)
    ensures var g, g', progress := After(cfg, es), Step(cfg, After(cfg, es), Calls(c, now)), LastProgress(es);
            if progress != 0.0 && now - progress <= cfg.readinessWindow then
              Replies(g, g', Answer(c, now, Readiness(true, "served a request"), Served(progress)))
            else if exists k: nat :: Recent(cfg, g.probes, k, now) then
              exists k: nat :: Recent(cfg, g.probes, k, now) && Replies(g, g', Answer(c, now, g.probes[k].outcome.verdict, Probed(k)))
            else g' == g.(waiting := g.waiting + {c})
  {
    var g := After(cfg, es);
    RunIsSound(cfg, es, t0);
    ProgressIsKept(cfg, es);
    FreshIsRecent(cfg, g, Now(t0, es), now);
  }

  /** One that gets the free lock is told the verdict of a recent probe if there is one by now, and otherwise probes. */
  lemma EntersExactly(cfg: Settings, es: seq<Event>, t0: real, c: CallerId, now: real)
    requires Timely(t0, es) && c in After(cfg, es).waiting && !After(cfg, es).locked
    ensures var g, g' := After(cfg, es), Step(cfg, After(cfg, es), GetsLock(c, now));
            if exists k: nat :: Recent(cfg, g.probes, k, now) then
              exists k: nat :: Recent(cfg, g.probes, k, now) && Replies(g, g', Answer(c, now, g.probes[k].outcome.verdict, Probed(k)))
            else g' == g.(waiting := g.waiting - {c}, locked := true, probes := g.probes + [Probe(c, now, Running)])
  {
    RunIsSound(cfg, es, t0);
    FreshIsRecent(cfg, After(cfg, es), Now(t0, es), now);
  }

  /** A probe that gives its verdict answers its own caller with it, and frees the lock. */
  lemma VerdictIsGiven(cfg: Settings, es: seq<Event>, t0: real, verdict: Readiness)
    requires Timely(t0, es) && After(cfg, es).locked
    ensures var g, g' := After(cfg, es), Step(cfg, After(cfg, es), ProbeEnds(verdict));
            var n := |g.probes| - 1;
            && n >= 0 && !g'.locked && g'.probes == g.probes[n := Probe(g.probes[n].caller, g.probes[n].start, Completed(verdict))]
            && g'.answers == g.answers + [Answer(g.probes[n].caller, g.probes[n].start, verdict, Probed(n))]
  {
    RunIsSound(cfg, es, t0);
  }

  lemma {:induction false} OnlyCallsWait(cfg: Settings, es: seq<Event>, more: seq<Event>, c: CallerId)
    requires c !in After(cfg, es).waiting && forall i :: 0 <= i < |more| ==> !(more[i].Calls? && more[i].caller == c)
    ensures c !in After(cfg, es + more).waiting
  {
    if more == [] {
      assert es + more == es;
    } else {
      var n := |more| - 1;
      OnlyCallsWait(cfg, es, more[..n], c);
      assert (es + more)[..|es| + n] == es + more[..n];
    }
  }

  /** A caller that gives up waiting is never handed the lock: unless it calls again, getting it does nothing. */
  lemma GivingUpIsFinal(cfg: Settings, es: seq<Event>, c: CallerId, more: seq<Event>, now: real)
    requires forall i :: 0 <= i < |more| ==> !(more[i].Calls? && more[i].caller == c)
    ensures var g := After(cfg, es + [WaitCancelled(c)] + more);
            c !in g.waiting && Step(cfg, g, GetsLock(c, now)) == g
  {
    var gone := es + [WaitCancelled(c)];
    assert gone[..|es|] == es;
    OnlyCallsWait(cfg, gone, more, c);
  }

  /** Cancelling does defeat the interval: the next caller probes again at once. */
  lemma CancelledProbeIsNotCounted(cfg: Settings)
    requires cfg.probeInterval > 0.0
    ensures var es := [Calls(0, 1.0), GetsLock(0, 1.0), ProbeCancelled, Calls(1, 1.0), GetsLock(1, 1.0)];
            var ps := After(cfg, es).probes;
            Timely(1.0, es) && |ps| == 2 && ps[1].start - ps[0].start < cfg.probeInterval
  {
    var es := [Calls(0, 1.0), GetsLock(0, 1.0), ProbeCancelled, Calls(1, 1.0), GetsLock(1, 1.0)];
    assert es[..5] == es && es[..0] == [];
    Then(cfg, es, 1.0, 0);
    Then(cfg, es, 1.0, 1);
    Then(cfg, es, 1.0, 2);
    Then(cfg, es, 1.0, 3);
    Then(cfg, es, 1.0, 4);
    assert After(cfg, es[..3]) == NEW.(probes := [Probe(0, 1.0, Abandoned)]);
  }

  lemma {:induction false} Then(cfg: Settings, es: seq<Event>, t0: real, i: nat)
    requires i < |es|
    ensures After(cfg, es[..i + 1]) == Step(cfg, After(cfg, es[..i]), es[i])
    ensures Now(t0, es[..i + 1]) == TimeOf(Now(t0, es[..i]), es[i])
    ensures Timely(t0, es[..i + 1]) <==> Timely(t0, es[..i]) && Now(t0, es[..i]) <= Now(t0, es[..i + 1])
  {
    assert es[..i + 1][..i] == es[..i];
  }
}
