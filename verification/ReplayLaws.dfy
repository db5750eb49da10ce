/** Over whole runs: the bounded set answers as an unbounded one would, and how often a message can be spent. */
module ReplayLaws {
  import opened Wrappers
  import opened Replay

  /** Facts about the log alone. */
  ghost predicate LogSound(w: Window, log: seq<Message>, t: real) {
    && (forall i :: 0 <= i < |log| ==> Fresh(w, log[i]) && log[i].freshAt <= log[i].at <= t)
    && InExpiryOrder(Entries(w, log), t + w.ttl)
  }

  predicate DistinctValues(seen: seq<Entry>) {
    forall i, j :: 0 <= i < j < |seen| ==> seen[i].value != seen[j].value
  }

  lemma {:induction false} UnexpiredStaysDistinct(seen: seq<Entry>, now: real)
    requires DistinctValues(seen)
    ensures DistinctValues(Unexpired(seen, now))
    ensures forall v :: Has(Unexpired(seen, now), v) ==> Has(seen, v)
  {
    if seen != [] {
      var n := |seen| - 1;
      UnexpiredStaysDistinct(seen[..n], now);
      var front := Unexpired(seen[..n], now);
      forall v | Has(Unexpired(seen, now), v) ensures Has(seen, v) {
        if Has(front, v) { assert Has(seen[..n], v); }
      }
      forall i | 0 <= i < |front| ensures front[i].value != seen[n].value {
        assert Has(front, front[i].value);
        var j :| 0 <= j < n && seen[..n][j].value == front[i].value;
      }
    }
  }

  lemma AddStaysDistinct(seen: seq<Entry>, ttl: real, cap: int, value: string, now: real)
    requires cap >= 1 && DistinctValues(seen) && Ascending(Unexpired(seen, now))
    ensures DistinctValues(CheckAndAdd(seen, ttl, cap, value, now).0)
  {
    UnexpiredStaysDistinct(seen, now);
    AddIsFifo(seen, ttl, cap, value, now);
    var live := Unexpired(seen, now);
    if !Has(live, value) {
      var room := WithRoom(live, cap);
      assert forall i :: 0 <= i < |room| ==> room[i] in live && room[i].value != value;
    }
  }

  lemma LogGrows(w: Window, log: seq<Message>, t: real, m: Message)
    requires LogSound(w, log, t) && t <= m.at && m.freshAt <= m.at && Fresh(w, m)
    ensures LogSound(w, log + [m], m.at)
  {
    LogEntries(w, log, m);
    SnocInOrder(Entries(w, log), EntryOf(w, m), t + w.ttl);
  }

  lemma PresentTracks(w: Window, g: Guard, m: Message, t: real, a: nat) returns (c: nat)
    requires w.cap >= 1 && Tracks(w.cap, g.seen, Entries(w, g.log), t, a) && Ascending(Entries(w, g.log))
    requires t <= m.at && Fresh(w, m)
    ensures Tracks(w.cap, Present(w, g, m).seen, Entries(w, Present(w, g, m).log), m.at, c)
  {
    c := AddTracks(w, g.seen, Entries(w, g.log), m.value, t, m.at, a);
    LogEntries(w, g.log, m);
  }

  lemma PresentStaysDistinct(w: Window, g: Guard, m: Message, t: real, a: nat)
    requires w.cap >= 1 && Tracks(w.cap, g.seen, Entries(w, g.log), t, a) && Ascending(Entries(w, g.log))
    requires t <= m.at && Fresh(w, m) && DistinctValues(g.seen)
    ensures DistinctValues(Present(w, g, m).seen)
  {
    var b := PruneTracks(w.cap, g.seen, Entries(w, g.log), t, m.at, a);
    AddStaysDistinct(g.seen, w.ttl, w.cap, m.value, m.at);
  }

  ghost predicate RunSound(w: Window, g: Guard, t: real, a: nat) {
    Tracks(w.cap, g.seen, Entries(w, g.log), t, a) && LogSound(w, g.log, t) && DistinctValues(g.seen)
  }

  lemma StepSound(w: Window, g: Guard, m: Message, t: real, a: nat) returns (c: nat)
    requires w.cap >= 1 && RunSound(w, g, t, a) && t <= m.at && m.freshAt <= m.at
    ensures RunSound(w, Present(w, g, m), m.at, c)
  {
    c := a;
    if Fresh(w, m) {
      c := PresentTracks(w, g, m, t, a);
      PresentStaysDistinct(w, g, m, t, a);
      LogGrows(w, g.log, t, m);
    }
  }

  lemma SoundLater(w: Window, g: Guard, early: real, now: real, a: nat)
    requires RunSound(w, g, early, a) && early <= now
    ensures RunSound(w, g, now, a)
  {
  }

  lemma InOrderBefore(ms: seq<Message>)
    requires ms != [] && InOrder(ms)
    ensures var before, m := ms[..|ms| - 1], ms[|ms| - 1];
            InOrder(before) && (before == [] || before[|before| - 1].at <= m.at) && m.freshAt <= m.at
  {
  }

  /** In every run, at any later time, the set is the recent end of the log. */
  lemma {:induction false} RunTracks(w: Window, ms: seq<Message>, t: real) returns (a: nat)
    requires w.cap >= 1 && InOrder(ms) && (ms == [] || ms[|ms| - 1].at <= t)
    ensures RunSound(w, After(w, ms), t, a)
  {
    if ms == [] {
      a := 0;
    } else {
      var before, m := ms[..|ms| - 1], ms[|ms| - 1];
      InOrderBefore(ms);
      a := RunTracks(w, before, m.at);
      a := StepSound(w, After(w, before), m, m.at, a);
      SoundLater(w, After(w, ms), m.at, t, a);
    }
  }

  function Last<T>(s: seq<T>, n: nat): seq<T> {
    if n < |s| then s[|s| - n..] else s
  }

  /**
   The set never outgrows its cap, its unexpired entries are the most recent unexpired values ever
   accepted, up to the cap, and all its values differ.
   */
  lemma CacheRefinesIdeal(w: Window, ms: seq<Message>, t: real)
    requires w.cap >= 1 && InOrder(ms) && (ms == [] || ms[|ms| - 1].at <= t)
    ensures var g := After(w, ms);
            && |g.seen| <= w.cap && DistinctValues(g.seen)
            && Unexpired(g.seen, t) == Last(Unexpired(Entries(w, g.log), t), w.cap)
  {
    var g := After(w, ms);
    var es := Entries(w, g.log);
    var a := RunTracks(w, ms, t);
    var b := PruneTracks(w.cap, g.seen, es, t, t, a);
    var k := UnexpiredIsSuffix(es, t);
    SuffixesMeet(w.cap, es, t, b, k);
  }

  lemma SuffixesMeet(cap: nat, es: seq<Entry>, t: real, b: nat, k: nat)
    requires b <= |es| && |es| - b <= cap && ExpiredBetween(es, |es| - cap, b, t)
    requires Splits(es, t, k) && forall i :: b <= i < |es| ==> es[i].expires > t
    ensures es[b..] == Last(es[k..], cap)
  {
    assert b < |es| ==> es[b].expires > t;
    if k < b {
      assert es[b - 1].expires > t;
      assert |es| - cap == b;
      assert Last(es[k..], cap) == es[k..][b - k..] == es[b..];
    } else {
      assert k < |es| ==> es[k].expires > t;
    }
  }

  // ---- when a message is refused ----

  /** The set still holds the `i`-th accepted message when `m` is looked up. */
  predicate StillHeld(w: Window, log: seq<Message>, i: int, m: Message) {
    0 <= i < |log| && |log| - i <= w.cap && log[i].value == m.value && log[i].at + w.ttl > m.at
  }

  /**
   A fresh message is refused if and only if its value was accepted before, less than `ttl` ago and
   among the last `cap` accepted.
   */
  lemma RefusedExactly(w: Window, ms: seq<Message>, m: Message)
    requires w.cap >= 1 && InOrder(ms) && (ms == [] || ms[|ms| - 1].at <= m.at) && Fresh(w, m)
    ensures !Admits(w, After(w, ms), m) <==> exists i :: StillHeld(w, After(w, ms).log, i, m)
  {
    var g := After(w, ms);
    var es := Entries(w, g.log);
    var a := RunTracks(w, ms, m.at);
    var b := PruneTracks(w.cap, g.seen, es, m.at, m.at, a);
    AddIsFifo(g.seen, w.ttl, w.cap, m.value, m.at);
    LiveIsHeld(w, g, m, a, b);
  }

  lemma LiveIsHeld(w: Window, g: Guard, m: Message, a: nat, b: nat)
    requires Tracks(w.cap, g.seen, Entries(w, g.log), m.at, a) && a <= b && Splits(g.seen, m.at, b - a)
    requires Tracks(w.cap, Unexpired(g.seen, m.at), Entries(w, g.log), m.at, b)
    ensures Has(Unexpired(g.seen, m.at), m.value) <==> exists i :: StillHeld(w, g.log, i, m)
  {
    var es, live := Entries(w, g.log), Unexpired(g.seen, m.at);
    if Has(live, m.value) {
      var j :| 0 <= j < |live| && live[j].value == m.value;
      assert live[j] == es[b + j] == g.seen[b - a + j];
      assert StillHeld(w, g.log, b + j, m);
    }
    if i :| StillHeld(w, g.log, i, m) {
      assert es[i] == EntryOf(w, g.log[i]);
      assert i >= b;
      assert live[i - b].value == m.value;
    }
  }

  // ---- how often one message can be spent ----

  /** The lookup follows the freshness check closely enough. */
  predicate Prompt(w: Window, m: Message) {
    m.at - m.freshAt < w.ttl - w.maxAge - CLOCK_SKEW_GRACE
  }

  predicate SameMessage(a: Message, b: Message) {
    a.value == b.value && a.ts == b.ts
  }

  /** A message still fresh has not outlived what its first acceptance left behind. */
  lemma FreshMeansRemembered(w: Window, first: Message, m: Message)
    requires Fresh(w, first) && first.freshAt <= first.at && Fresh(w, m) && Prompt(w, m) && SameMessage(first, m)
    ensures first.at + w.ttl > m.at
  {
  }

  /**
   A message, value and timestamp, already accepted is accepted again only after at least `cap`
   others: the last `cap` accepted all came in between, and their values all differ, from it and
   from each other.
   */
  lemma SpentAtMostOnce(w: Window, ms: seq<Message>, m: Message, i: nat)
    requires w.cap >= 1 && InOrder(ms) && (ms == [] || ms[|ms| - 1].at <= m.at) && Prompt(w, m)
    requires i < |After(w, ms).log| && SameMessage(After(w, ms).log[i], m) && Admits(w, After(w, ms), m)
    ensures var log := After(w, ms).log;
            && |log| - i > w.cap
            && (forall j :: |log| - w.cap <= j < |log| ==> log[j].value != m.value)
            && (forall j, k :: |log| - w.cap <= j < k < |log| ==> log[j].value != log[k].value)
  {
    var g := After(w, ms);
    var a := RunTracks(w, ms, m.at);
    FreshMeansRemembered(w, g.log[i], m);
    RefusedExactly(w, ms, m);
    assert !StillHeld(w, g.log, i, m);
    forall j | |g.log| - w.cap <= j < |g.log| ensures g.log[j].value != m.value {
      assert !StillHeld(w, g.log, j, m);
      LaterExpiresLater(w, g.log, i, j, m.at);
    }
    UnexpiredSetIsLastCap(w, g, m.at, a, i);
  }

  /** While an older acceptance is unexpired and out of the set, the set is exactly the last `cap` accepted. */
  lemma UnexpiredSetIsLastCap(w: Window, g: Guard, now: real, a: nat, i: nat)
    requires RunSound(w, g, now, a) && w.cap >= 0 && i < |g.log| - w.cap && g.log[i].at + w.ttl > now
    ensures forall j, k :: |g.log| - w.cap <= j < k < |g.log| ==> g.log[j].value != g.log[k].value
  {
    var es := Entries(w, g.log);
    if a > |g.log| - w.cap {
      LaterExpiresLater(w, g.log, i, a - 1, now);
    }
    assert a == |g.log| - w.cap;
    forall j, k | a <= j < k < |g.log| ensures g.log[j].value != g.log[k].value {
      assert g.seen[j - a] == es[j] && g.seen[k - a] == es[k];
    }
  }

  lemma LaterExpiresLater(w: Window, log: seq<Message>, i: nat, j: nat, t: real)
    requires i <= j < |log| && LogSound(w, log, t)
    ensures log[i].at + w.ttl == Entries(w, log)[i].expires <= Entries(w, log)[j].expires == log[j].at + w.ttl
  {
  }

  /**
   So while nothing is evicted too soon the set answers as one that never forgets: a fresh, prompt
   message is admitted if and only if it was never accepted before.
   */
  lemma AnswersAsIdeal(w: Window, ms: seq<Message>, m: Message)
    requires w.cap >= 1 && InOrder(ms) && (ms == [] || ms[|ms| - 1].at <= m.at) && Prompt(w, m) && Fresh(w, m)
    requires forall i :: 0 <= i < |After(w, ms).log| && After(w, ms).log[i].value == m.value ==>
               After(w, ms).log[i].ts == m.ts && |After(w, ms).log| - i <= w.cap
    ensures Admits(w, After(w, ms), m) <==> forall i :: 0 <= i < |After(w, ms).log| ==> After(w, ms).log[i].value != m.value
  {
    var g := After(w, ms);
    var a := RunTracks(w, ms, m.at);
    RefusedExactly(w, ms, m);
    forall i | 0 <= i < |g.log| && g.log[i].value == m.value ensures StillHeld(w, g.log, i, m) {
      FreshMeansRemembered(w, g.log[i], m);
    }
  }

  lemma FirstIsAccepted(w: Window, m: Message)
    requires w.cap >= 1 && Fresh(w, m)
    ensures After(w, [m]) == Guard([EntryOf(w, m)], [m])
  {
    assert [m][..0] == [] && After(w, []) == Guard([], []);
  }

  lemma ExpiredIsAccepted(w: Window, first: Message, again: Message)
    requires w.cap >= 1 && Fresh(w, first) && Fresh(w, again) && first.at + w.ttl <= again.at
    ensures After(w, [first, again]).log == [first, again]
  {
    FirstIsAccepted(w, first);
    var seen := [EntryOf(w, first)];
    assert seen[..0] == [] && Unexpired(seen, again.at) == [];
    assert [first, again][..1] == [first];
  }

  /** The margin is tight: with exactly that much delay a message is accepted twice running. */
  lemma MarginIsTight(w: Window, value: string)
    requires w.cap >= 1 && w.maxAge >= -CLOCK_SKEW_GRACE && w.ttl >= w.maxAge + CLOCK_SKEW_GRACE
    ensures var first := Message(value, At(CLOCK_SKEW_GRACE), 0.0, 0.0);
            var again := Message(value, At(CLOCK_SKEW_GRACE), w.maxAge + CLOCK_SKEW_GRACE, w.ttl);
            && InOrder([first, again]) && again.at - again.freshAt == w.ttl - w.maxAge - CLOCK_SKEW_GRACE
            && After(w, [first, again]).log == [first, again]
  {
    var first := Message(value, At(CLOCK_SKEW_GRACE), 0.0, 0.0);
    var again := Message(value, At(CLOCK_SKEW_GRACE), w.maxAge + CLOCK_SKEW_GRACE, w.ttl);
    ExpiredIsAccepted(w, first, again);
  }

  /** A set that may hold nothing accepts nothing: every fresh message makes it fail. */
  lemma {:induction false} NothingFitsInNothing(w: Window, ms: seq<Message>, m: Message)
    requires w.cap < 1
    ensures After(w, ms) == Guard([], [])
    ensures CheckAndAdd(After(w, ms).seen, w.ttl, w.cap, m.value, m.at).1 == Crashed
  {
    if ms != [] {
      NothingFitsInNothing(w, ms[..|ms| - 1], ms[|ms| - 1]);
    }
  }
}
