/** The peer's readiness fields as an object; `ready` is cut where it awaits the lock and the probe. */
module ReadinessObject {
  import opened Wrappers
  import R = Readiness

  class ReadinessGate {
    const settings: R.Settings
    var lastProgress: real
    var cached: Option<R.Readiness>
    var cachedAt: real
    var locked: bool
    var probeStart: real
    ghost var cachedFrom: nat
    ghost var waiting: set<R.CallerId>
    ghost var probes: seq<R.Probe>
    ghost var answers: seq<R.Answer>

    ghost function View(): R.Gate
      reads this
    {
      R.Gate(lastProgress, cached, cachedAt, cachedFrom, locked, waiting, probes, answers)
    }

    /** The probing task remembers the reading it began with. */
    ghost predicate Valid()
      reads this
    {
      locked ==> probes != [] && probes[|probes| - 1].start == probeStart
    }

    constructor (settings: R.Settings)
      ensures this.settings == settings && Valid() && View() == R.NEW
    {
      this.settings := settings;
      lastProgress, cached, cachedAt, locked, probeStart := 0.0, None, 0.0, false, 0.0;
      cachedFrom, waiting, probes, answers := 0, {}, [], [];
    }

    method NoteProgress(now: real)
      requires Valid()
      modifies this
      ensures Valid() && View() == R.Step(settings, old(View()), R.Progress(now))
    {
      lastProgress := now;
    }

    method Fresh(now: real) returns (r: Option<R.Readiness>)
      ensures r == R.Fresh(settings, View(), now)
    {
      r := if cached.Some? && now - cachedAt < settings.probeInterval then cached else None;
    }

    /** From the call to the wait for the lock; an answer means there is no wait. */
    method Ready(ghost c: R.CallerId, now: real) returns (r: Option<R.Readiness>)
      requires Valid()
      modifies this
      ensures Valid() && View() == R.Step(settings, old(View()), R.Calls(c, now))
      ensures r.Some? <==> |answers| == |old(answers)| + 1
      ensures r.Some? ==> answers[|answers| - 1].verdict == r.value
    {
      if lastProgress != 0.0 && now - lastProgress <= settings.readinessWindow {
        r := Some(R.Readiness(true, "served a request"));
        answers := answers + [R.Answer(c, now, r.value, R.Served(lastProgress))];
        waiting := waiting - {c};
        return;
      }
      r := Fresh(now);
      if r.Some? {
        answers := answers + [R.Answer(c, now, r.value, R.Probed(cachedFrom))];
        waiting := waiting - {c};
      } else {
        waiting := waiting + {c};
      }
    }

    /** From taking the lock to the start of a probe; an answer means none was started. */
    method Locked(ghost c: R.CallerId, now: real) returns (r: Option<R.Readiness>)
      requires Valid() && !locked && c in waiting
      modifies this
      ensures Valid() && View() == R.Step(settings, old(View()), R.GetsLock(c, now))
      ensures r == R.Fresh(settings, old(View()), now)
    {
      r := Fresh(now);
      waiting := waiting - {c};
      if r.Some? {
        answers := answers + [R.Answer(c, now, r.value, R.Probed(cachedFrom))];
      } else {
        locked, probeStart := true, now;
        probes := probes + [R.Probe(c, now, R.Running)];
      }
    }

    method ProbeEnds(result: R.Readiness) returns (r: R.Readiness)
      requires Valid() && locked
      modifies this
      ensures Valid() && View() == R.Step(settings, old(View()), R.ProbeEnds(result)) && r == result
    {
      ghost var n := |probes| - 1;
      ghost var c := probes[n].caller;
      cached, cachedAt, locked := Some(result), probeStart, false;
      cachedFrom, probes := n, probes[n := probes[n].(outcome := R.Completed(result))];
      answers, waiting := answers + [R.Answer(c, probeStart, result, R.Probed(n))], waiting - {c};
      r := result;
    }

    method ProbeCancelled()
      requires Valid() && locked
      modifies this
      ensures Valid() && View() == R.Step(settings, old(View()), R.ProbeCancelled)
    {
      ghost var n := |probes| - 1;
      locked, probes := false, probes[n := probes[n].(outcome := R.Abandoned)];
    }
  }
}
