/**
 The freshness window and the bounded, expiring, evicting set of seen values behind it. `seen` is
 a dictionary in insertion order: each value with the time it expires.
 */
module Replay {
  import opened Wrappers

  const CLOCK_SKEW_GRACE := 30.0

  /** A timestamp as parsed; not every parsed number is finite. */
  datatype Stamp = At(t: real) | NotFinite

  datatype Staleness = NotANumber | InFuture | Stale

  function CheckFresh(ts: Stamp, now: real, maxAge: real): Option<Staleness> {
    if ts.NotFinite? then Some(NotANumber)
    else if ts.t > now + CLOCK_SKEW_GRACE then Some(InFuture)
    else if now - ts.t > maxAge then Some(Stale)
    else None
  }

  // ---- the seen-set ----

  datatype Entry = Entry(value: string, expires: real)

  datatype Verdict = Accepted | Replayed | Crashed

  predicate Has(seen: seq<Entry>, value: string) {
    exists i :: 0 <= i < |seen| && seen[i].value == value
  }

  /** What is left once everything expired at `now` is pruned. */
  function Unexpired(seen: seq<Entry>, now: real): seq<Entry> {
    if seen == [] then []
    else if seen[|seen| - 1].expires > now then Unexpired(seen[..|seen| - 1], now) + [seen[|seen| - 1]]
    else Unexpired(seen[..|seen| - 1], now)
  }

  /** The first entry among those that expire soonest. */
  function Soonest(seen: seq<Entry>): (i: nat)
    requires seen != []
    ensures i < |seen|
  {
    if |seen| == 1 then 0
    else
      var n, best := |seen| - 1, Soonest(seen[..|seen| - 1]);
      if seen[n].expires < seen[best].expires then n else best
  }

  function Evict(seen: seq<Entry>): seq<Entry>
    requires seen != []
  {
    seen[..Soonest(seen)] + seen[Soonest(seen) + 1..]
  }

  /** A full set gives up its soonest-to-expire entry; one that may hold nothing cannot. */
  function CheckAndAdd(seen: seq<Entry>, ttl: real, cap: int, value: string, now: real): (seq<Entry>, Verdict) {
    var live, e := Unexpired(seen, now), Entry(value, now + ttl);
    if Has(live, value) then (live, Replayed)
    else if |live| < cap then (live + [e], Accepted)
    else if live == [] then (live, Crashed)
    else (Evict(live) + [e], Accepted)
  }

  // ---- the two checks together, over whole runs ----

  datatype Window = Window(ttl: real, maxAge: real, cap: int)

  /** A message presented: its freshness is judged at `freshAt`, its value looked up at `at`. */
  datatype Message = Message(value: string, ts: Stamp, freshAt: real, at: real)

  /** `log` remembers every message ever accepted. */
  datatype Guard = Guard(seen: seq<Entry>, log: seq<Message>)

  predicate Fresh(w: Window, m: Message) {
    CheckFresh(m.ts, m.freshAt, w.maxAge) == None
  }

  predicate Admits(w: Window, g: Guard, m: Message) {
    Fresh(w, m) && CheckAndAdd(g.seen, w.ttl, w.cap, m.value, m.at).1 == Accepted
  }

  function Present(w: Window, g: Guard, m: Message): Guard {
    if !Fresh(w, m) then g
    else
      var (seen, verdict) := CheckAndAdd(g.seen, w.ttl, w.cap, m.value, m.at);
      Guard(seen, if verdict == Accepted then g.log + [m] else g.log)
  }

  function After(w: Window, ms: seq<Message>): Guard {
    if ms == [] then Guard([], []) else Present(w, After(w, ms[..|ms| - 1]), ms[|ms| - 1])
  }

  /** Lookups happen in order, each no earlier than its message was judged fresh. */
  predicate InOrder(ms: seq<Message>) {
    && (forall i, j :: 0 <= i < j < |ms| ==> ms[i].at <= ms[j].at)
    && forall i :: 0 <= i < |ms| ==> ms[i].freshAt <= ms[i].at
  }

  // ---- the set is the recent end of the log ----

  function EntryOf(w: Window, m: Message): Entry {
    Entry(m.value, m.at + w.ttl)
  }

  /** The entries of everything ever accepted. */
  function Entries(w: Window, log: seq<Message>): seq<Entry> {
    seq(|log|, i requires 0 <= i < |log| => EntryOf(w, log[i]))
  }

  predicate Ascending(seen: seq<Entry>) {
    forall i, j :: 0 <= i < j < |seen| ==> seen[i].expires <= seen[j].expires
  }

  lemma {:induction false} SoonestIsFirst(seen: seq<Entry>)
    requires seen != [] && Ascending(seen)
    ensures Soonest(seen) == 0
  {
    if |seen| > 1 { SoonestIsFirst(seen[..|seen| - 1]); }
  }

  /** `k` is where the unexpired entries begin. */
  ghost predicate Splits(seen: seq<Entry>, now: real, k: nat) {
    && k <= |seen|
    && (forall i :: 0 <= i < k ==> seen[i].expires <= now)
    && (forall i :: k <= i < |seen| ==> seen[i].expires > now)
  }

  lemma {:induction false} NoneUnexpired(seen: seq<Entry>, now: real)
    requires Splits(seen, now, |seen|)
    ensures Unexpired(seen, now) == []
  {
    if seen != [] { NoneUnexpired(seen[..|seen| - 1], now); }
  }

  lemma OneMoreUnexpired(front: seq<Entry>, e: Entry, now: real, k: nat)
    requires e.expires > now && Splits(front, now, k) && Unexpired(front, now) == front[k..]
    ensures Splits(front + [e], now, k) && Unexpired(front + [e], now) == (front + [e])[k..]
  {
    assert (front + [e])[..|front|] == front;
    assert (front + [e])[k..] == front[k..] + [e];
  }

  /** In expiry order, what is unexpired is what comes after some point. */
  lemma {:induction false} UnexpiredIsSuffix(seen: seq<Entry>, now: real) returns (k: nat)
    requires Ascending(seen)
    ensures Splits(seen, now, k) && Unexpired(seen, now) == seen[k..]
  {
    if seen == [] {
      k := 0;
    } else {
      var n := |seen| - 1;
      if seen[n].expires > now {
        k := UnexpiredIsSuffix(seen[..n], now);
        OneMoreUnexpired(seen[..n], seen[n], now, k);
        assert seen == seen[..n] + [seen[n]];
      } else {
        k := n + 1;
        NoneUnexpired(seen, now);
      }
    }
  }

  lemma EvictsFirst(live: seq<Entry>)
    requires live != [] && Ascending(live)
    ensures Evict(live) == live[1..]
  {
    SoonestIsFirst(live);
  }

  /** The set with room for one more: its first entry goes if it is full. */
  function WithRoom(live: seq<Entry>, cap: int): seq<Entry> {
    if |live| < cap || live == [] then live else live[1..]
  }

  /** Eviction is first in, first out. */
  lemma AddIsFifo(seen: seq<Entry>, ttl: real, cap: int, value: string, now: real)
    requires cap >= 1 && Ascending(Unexpired(seen, now))
    ensures var live, (after, verdict) := Unexpired(seen, now), CheckAndAdd(seen, ttl, cap, value, now);
            && verdict == (if Has(live, value) then Replayed else Accepted)
            && after == if Has(live, value) then live else WithRoom(live, cap) + [Entry(value, now + ttl)]
  {
    if Unexpired(seen, now) != [] { EvictsFirst(Unexpired(seen, now)); }
  }

  /** No entry outlives `bound`, and later ones expire no earlier. */
  ghost predicate InExpiryOrder(es: seq<Entry>, bound: real) {
    Ascending(es) && forall i :: 0 <= i < |es| ==> es[i].expires <= bound
  }

  ghost predicate ExpiredBetween(es: seq<Entry>, lo: int, hi: int, now: real)
    requires hi <= |es|
  {
    forall i :: 0 <= i && lo <= i < hi ==> es[i].expires <= now
  }

  /**
   The set is the log from position `a` on: at most `cap` entries, with only expired ones missing
   from the last `cap`.
   */
  ghost predicate Tracks(cap: int, seen: seq<Entry>, es: seq<Entry>, now: real, a: nat) {
    a <= |es| && |es| - a <= cap && seen == es[a..] && ExpiredBetween(es, |es| - cap, a, now)
  }

  lemma SuffixAscends(es: seq<Entry>, a: nat)
    requires a <= |es| && Ascending(es)
    ensures Ascending(es[a..])
  {
  }

  lemma PruneTracks(cap: int, seen: seq<Entry>, es: seq<Entry>, early: real, now: real, a: nat) returns (b: nat)
    requires Tracks(cap, seen, es, early, a) && Ascending(es) && early <= now
    ensures a <= b && Tracks(cap, Unexpired(seen, now), es, now, b)
    ensures Splits(seen, now, b - a) && Ascending(Unexpired(seen, now))
  {
    SuffixAscends(es, a);
    var k := UnexpiredIsSuffix(seen, now);
    b := a + k;
    assert es[a..][k..] == es[b..];
    SuffixAscends(es, b);
    forall i | 0 <= i && |es| - cap <= i < b ensures es[i].expires <= now {
      if a <= i { assert seen[i - a].expires <= now; }
    }
  }

  lemma AcceptTracks(cap: int, live: seq<Entry>, es: seq<Entry>, e: Entry, now: real, b: nat) returns (c: nat)
    requires cap >= 1 && Tracks(cap, live, es, now, b)
    ensures Tracks(cap, WithRoom(live, cap) + [e], es + [e], now, c)
  {
    c := if |live| < cap then b else b + 1;
    assert (es + [e])[c..] == es[c..] + [e];
    forall i | 0 <= i && |es| + 1 - cap <= i < c ensures (es + [e])[i].expires <= now {
      assert es[i].expires <= now;
    }
  }

  lemma SnocInOrder(es: seq<Entry>, e: Entry, bound: real)
    requires InExpiryOrder(es, bound) && bound <= e.expires
    ensures InExpiryOrder(es + [e], e.expires)
  {
  }

  function Logged(es: seq<Entry>, e: Entry, verdict: Verdict): seq<Entry> {
    if verdict == Accepted then es + [e] else es
  }

  /** Looking a value up keeps the set at the recent end of the log. */
  lemma AddTracks(w: Window, seen: seq<Entry>, es: seq<Entry>, value: string, early: real, now: real, a: nat) returns (c: nat)
    requires w.cap >= 1 && Tracks(w.cap, seen, es, early, a) && Ascending(es) && early <= now
    ensures var (after, verdict) := CheckAndAdd(seen, w.ttl, w.cap, value, now);
            && verdict != Crashed
            && Tracks(w.cap, after, Logged(es, Entry(value, now + w.ttl), verdict), now, c)
  {
    var live := Unexpired(seen, now);
    c := PruneTracks(w.cap, seen, es, early, now, a);
    AddIsFifo(seen, w.ttl, w.cap, value, now);
    if !Has(live, value) {
      c := AcceptTracks(w.cap, live, es, Entry(value, now + w.ttl), now, c);
    }
  }

  lemma LogEntries(w: Window, log: seq<Message>, m: Message)
    ensures Entries(w, log + [m]) == Entries(w, log) + [EntryOf(w, m)]
  {
  }
}
