/**
 The wait queue: the binary heap operations the scheduler applies to its list of waiters, and the
 sorted order they stand for.
 */
module WaitHeap {
  import opened Peers

  /** Ordered by (negated score, ticket); tickets come from one counter, so no two waiters tie. */
  datatype Waiter = Waiter(negScore: real, ticket: nat, member: MemberId, model: string)

  predicate Less(a: Waiter, b: Waiter) {
    a.negScore < b.negScore || (a.negScore == b.negScore && a.ticket < b.ticket)
  }

  function Parent(i: nat): nat
    requires i > 0
  {
    (i - 1) / 2
  }

  predicate Descends(i: nat, top: nat)
    decreases i
  {
    i == top || (i > top && Descends(Parent(i), top))
  }

  /** Every node whose parent is at or after `k` is no smaller than its parent. */
  predicate HeapFrom(h: seq<Waiter>, k: nat) {
    forall i :: 0 < i < |h| && Parent(i) >= k ==> !Less(h[i], h[Parent(i)])
  }

  predicate IsHeap(h: seq<Waiter>) {
    HeapFrom(h, 0)
  }

  function Swap(h: seq<Waiter>, i: nat, j: nat): (r: seq<Waiter>)
    requires i < |h| && j < |h|
    ensures |r| == |h| && multiset(r) == multiset(h)
  {
    h[i := h[j]][j := h[i]]
  }

  lemma {:induction false} RootIsLeast(h: seq<Waiter>, i: nat)
    requires IsHeap(h) && i < |h|
    ensures !Less(h[i], h[0])
  {
    if i > 0 {
      RootIsLeast(h, Parent(i));
    }
  }

  lemma {:induction false} DescendsFromRoot(i: nat)
    ensures Descends(i, 0)
  {
    if i > 0 {
      DescendsFromRoot(Parent(i));
    }
  }

  /** Ordered at and below `top` except that `p` may be smaller than its parent. */
  ghost predicate LooseAt(h: seq<Waiter>, top: nat, p: nat) {
    && top <= p < |h| && Descends(p, top)
    && (forall i :: 0 < i < |h| && Parent(i) >= top && i != p ==> !Less(h[i], h[Parent(i)]))
    && (forall i :: 0 < i < |h| && Parent(i) == p && p > top ==> !Less(h[i], h[Parent(p)]))
  }

  /** Swapping a loose item with its larger parent moves the looseness up one level. */
  lemma LooseRises(h: seq<Waiter>, top: nat, p: nat)
    requires LooseAt(h, top, p) && p > top && Less(h[p], h[Parent(p)])
    ensures LooseAt(Swap(h, p, Parent(p)), top, Parent(p))
  {
    var parent := Parent(p);
    var r := Swap(h, p, parent);
    assert Descends(parent, top);
    forall i | 0 < i < |r| && Parent(i) >= top && i != parent
      ensures !Less(r[i], r[Parent(i)])
    {
      if i != p { assert !Less(h[i], h[Parent(i)]); }
    }
    if parent > top {
      var above := Parent(parent);
      assert Descends(above, top);
      assert !Less(h[parent], h[above]);
      forall i | 0 < i < |r| && Parent(i) == parent
        ensures !Less(r[i], r[above])
      {
        if i != p { assert !Less(h[i], h[parent]); }
      }
    }
  }

  /** Move the item at `pos` towards `top` while it is smaller than its parent. */
  method SiftDown(h: seq<Waiter>, top: nat, pos: nat) returns (r: seq<Waiter>)
    requires LooseAt(h, top, pos)
    ensures HeapFrom(r, top) && |r| == |h| && multiset(r) == multiset(h)
  {
    r := h;
    var p: nat := pos;
    while p > top
      invariant |r| == |h| && multiset(r) == multiset(h) && LooseAt(r, top, p)
    {
      var parent := Parent(p);
      if !Less(r[p], r[parent]) {
        break;
      }
      LooseRises(r, top, p);
      r := Swap(r, p, parent);
      p := parent;
    }
  }

  /** Ordered at and below `top` except around `p`, whose children are no smaller than its parent. */
  ghost predicate HoleAt(h: seq<Waiter>, top: nat, p: nat) {
    && top <= p < |h| && Descends(p, top)
    && (forall i :: 0 < i < |h| && Parent(i) >= top && i != p && Parent(i) != p ==> !Less(h[i], h[Parent(i)]))
    && (forall i :: 0 < i < |h| && Parent(i) == p && p > top ==> !Less(h[i], h[Parent(p)]))
  }

  /** Swapping the hole with its smaller child moves the hole down one level. */
  lemma HoleSinks(h: seq<Waiter>, top: nat, p: nat, child: nat)
    requires HoleAt(h, top, p) && 0 < child < |h| && Parent(child) == p
    requires forall i :: 0 < i < |h| && Parent(i) == p ==> !Less(h[i], h[child])
    ensures HoleAt(Swap(h, p, child), top, child)
  {
    var r := Swap(h, p, child);
    forall i | 0 < i < |r| && Parent(i) >= top && i != child && Parent(i) != child
      ensures !Less(r[i], r[Parent(i)])
    {
      if i == p {
        assert !Less(h[child], h[Parent(p)]);
      } else if Parent(i) != p {
        assert !Less(h[i], h[Parent(i)]);
      }
    }
    forall i | 0 < i < |r| && Parent(i) == child
      ensures !Less(r[i], r[Parent(child)])
    {
      assert !Less(h[i], h[child]);
    }
  }

  lemma SmallerChild(h: seq<Waiter>, p: nat, child: nat)
    requires child < |h| && (child == 2 * p + 1 || child == 2 * p + 2)
    requires child == 2 * p + 1 ==> (2 * p + 2 < |h| ==> Less(h[child], h[2 * p + 2]))
    requires child == 2 * p + 2 ==> !Less(h[2 * p + 1], h[child])
    ensures Parent(child) == p && forall i :: 0 < i < |h| && Parent(i) == p ==> !Less(h[i], h[child])
  {
    forall i | 0 < i < |h| && Parent(i) == p
      ensures i == 2 * p + 1 || i == 2 * p + 2
    {
    }
  }

  lemma NoChildren(h: seq<Waiter>, p: nat)
    requires 2 * p + 1 >= |h|
    ensures forall i :: 0 < i < |h| ==> Parent(i) != p
  {
  }

  /** Sink the item at `pos` to a leaf along the smaller children, then move it back up to where it fits. */
  method SiftUp(h: seq<Waiter>, pos: nat) returns (r: seq<Waiter>)
    requires pos < |h| && HeapFrom(h, pos + 1)
    ensures HeapFrom(r, pos) && |r| == |h| && multiset(r) == multiset(h)
  {
    r := h;
    var p := pos;
    var child := 2 * p + 1;
    while child < |r|
      invariant |r| == |h| && child == 2 * p + 1 && multiset(r) == multiset(h) && HoleAt(r, pos, p)
      decreases |r| - p
    {
      var right := child + 1;
      if right < |r| && !Less(r[child], r[right]) {
        child := right;
      }
      SmallerChild(r, p, child);
      HoleSinks(r, pos, p, child);
      r := Swap(r, p, child);
      p := child;
      child := 2 * p + 1;
    }
    NoChildren(r, p);
    r := SiftDown(r, pos, p);
  }

  method Push(h: seq<Waiter>, w: Waiter) returns (r: seq<Waiter>)
    requires IsHeap(h)
    ensures IsHeap(r) && multiset(r) == multiset(h + [w])
  {
    DescendsFromRoot(|h|);
    r := SiftDown(h + [w], 0, |h|);
  }

  method Pop(h: seq<Waiter>) returns (w: Waiter, r: seq<Waiter>)
    requires IsHeap(h) && h != []
    ensures IsHeap(r) && |r| == |h| - 1 && multiset(h) == multiset(r) + multiset{w}
    ensures w in h && forall x :: x in h ==> !Less(x, w)
  {
    forall i | 0 <= i < |h|
      ensures !Less(h[i], h[0])
    {
      RootIsLeast(h, i);
    }
    var n := |h| - 1;
    assert h == h[..n] + [h[n]];
    if n == 0 {
      return h[0], [];
    }
    w := h[0];
    var moved := h[..n][0 := h[n]];
    assert multiset(moved) + multiset{w} == multiset(h);
    assert forall i :: 0 < i < n ==> moved[i] == h[i];
    r := SiftUp(moved, 0);
  }

  method Heapify(h: seq<Waiter>) returns (r: seq<Waiter>)
    ensures IsHeap(r) && multiset(r) == multiset(h)
  {
    r := h;
    var i := |r| / 2;
    while i > 0
      invariant 0 <= i <= |r| == |h| && multiset(r) == multiset(h) && HeapFrom(r, i)
    {
      i := i - 1;
      r := SiftUp(r, i);
    }
  }

  // ---- the order a heap stands for ----

  /** No two waiters share a ticket. */
  ghost predicate Unique(ms: multiset<Waiter>) {
    && (forall w :: w in ms ==> ms[w] == 1)
    && forall a, b :: a in ms && b in ms && a.ticket == b.ticket ==> a == b
  }

  predicate Ascending(ws: seq<Waiter>) {
    forall i, j :: 0 <= i < j < |ws| ==> Less(ws[i], ws[j])
  }

  function Insert(ws: seq<Waiter>, w: Waiter): seq<Waiter> {
    if ws == [] || Less(w, ws[0]) then [w] + ws else [ws[0]] + Insert(ws[1..], w)
  }

  function Sort(h: seq<Waiter>): seq<Waiter> {
    if h == [] then [] else Insert(Sort(h[..|h| - 1]), h[|h| - 1])
  }

  lemma {:induction false} InsertIs(ws: seq<Waiter>, w: Waiter)
    ensures multiset(Insert(ws, w)) == multiset(ws) + multiset{w}
    ensures Ascending(ws) && (forall x :: x in ws ==> x.ticket != w.ticket) ==> Ascending(Insert(ws, w))
  {
    if ws == [] || Less(w, ws[0]) {
    } else {
      InsertIs(ws[1..], w);
      assert ws == [ws[0]] + ws[1..];
      if Ascending(ws) && forall x :: x in ws ==> x.ticket != w.ticket {
        var rest := Insert(ws[1..], w);
        forall j | 0 <= j < |rest|
          ensures Less(ws[0], rest[j])
        {
          assert rest[j] in multiset(rest);
          assert rest[j] == w || rest[j] in ws[1..];
        }
      }
    }
  }

  lemma {:induction false} SortIs(h: seq<Waiter>)
    ensures multiset(Sort(h)) == multiset(h)
    ensures Unique(multiset(h)) ==> Ascending(Sort(h))
  {
    if h != [] {
      var front, w := h[..|h| - 1], h[|h| - 1];
      assert h == front + [w];
      SortIs(front);
      InsertIs(Sort(front), w);
      if Unique(multiset(h)) {
        assert forall x :: x in multiset(front) ==> x in multiset(h) && multiset(h)[x] >= multiset(front)[x];
        assert Unique(multiset(front));
        forall x | x in Sort(front)
          ensures x.ticket != w.ticket
        {
          assert x in multiset(Sort(front)) && w in multiset(h);
        }
      }
    }
  }

  /** There is one ascending order for a set of waiters. */
  lemma {:induction false} AscendingIsUnique(a: seq<Waiter>, b: seq<Waiter>)
    requires Ascending(a) && Ascending(b) && multiset(a) == multiset(b)
    ensures a == b
  {
    if a == [] {
      assert |multiset(b)| == 0;
    } else {
      assert a[0] in multiset(b) && |multiset(a)| == |a| && |multiset(b)| == |b|;
      assert b[0] in multiset(a);
      assert a[0] == b[0];
      assert a == [a[0]] + a[1..] && b == [b[0]] + b[1..];
      assert multiset(a[1..]) == multiset(a) - multiset{a[0]};
      assert multiset(b[1..]) == multiset(b) - multiset{b[0]};
      AscendingIsUnique(a[1..], b[1..]);
    }
  }

  lemma SortOf(h: seq<Waiter>, ws: seq<Waiter>)
    requires multiset(h) == multiset(ws) && Ascending(ws) && Unique(multiset(h))
    ensures Sort(h) == ws
  {
    SortIs(h);
    AscendingIsUnique(Sort(h), ws);
  }

  lemma RestIsUnique(all: multiset<Waiter>, w: Waiter, rest: multiset<Waiter>)
    requires Unique(all) && all == rest + multiset{w}
    ensures Unique(rest)
  {
    forall x | x in rest
      ensures x in all && rest[x] == 1
    {
      assert all[x] == 1;
    }
  }

  /** Popping takes the head of the order and leaves its tail. */
  lemma PopTakesHead(h: seq<Waiter>, w: Waiter, r: seq<Waiter>)
    requires Unique(multiset(h)) && multiset(h) == multiset(r) + multiset{w}
    requires forall x :: x in h ==> !Less(x, w)
    ensures Unique(multiset(r)) && Sort(h) == [w] + Sort(r)
  {
    RestIsUnique(multiset(h), w, multiset(r));
    SortIs(r);
    var rest := Sort(r);
    forall j | 0 <= j < |rest|
      ensures Less(w, rest[j])
    {
      assert rest[j] in multiset(rest);
      LeastIsLess(h, w, r, rest[j]);
    }
    assert multiset([w] + rest) == multiset(h);
    SortOf(h, [w] + rest);
  }

  lemma LeastIsLess(h: seq<Waiter>, w: Waiter, r: seq<Waiter>, x: Waiter)
    requires Unique(multiset(h)) && multiset(h) == multiset(r) + multiset{w} && x in multiset(r)
    requires forall y :: y in h ==> !Less(y, w)
    ensures Less(w, x)
  {
    assert x in multiset(h) && w in multiset(h) && multiset(h)[w] == 1;
    assert x in h && x != w;
  }

  lemma PushInserts(h: seq<Waiter>, w: Waiter, r: seq<Waiter>)
    requires Unique(multiset(h + [w])) && multiset(r) == multiset(h + [w])
    ensures Sort(r) == Insert(Sort(h), w)
  {
    SortIs(h + [w]);
    assert (h + [w])[..|h|] == h;
    SortOf(r, Sort(h + [w]));
  }

  // ---- the queue operations, in terms of that order ----

  predicate DistinctTickets(ws: seq<Waiter>) {
    forall i, j :: 0 <= i < j < |ws| ==> ws[i].ticket != ws[j].ticket
  }

  function WithoutTicket(ws: seq<Waiter>, t: nat): seq<Waiter> {
    if ws == [] then []
    else if ws[0].ticket == t then ws[1..]
    else [ws[0]] + WithoutTicket(ws[1..], t)
  }

  lemma TailFacts(ws: seq<Waiter>)
    requires ws != [] && Ascending(ws) && DistinctTickets(ws)
    ensures Ascending(ws[1..]) && DistinctTickets(ws[1..])
    ensures forall x :: x in ws <==> x == ws[0] || x in ws[1..]
    ensures forall x :: x in ws[1..] ==> x.ticket != ws[0].ticket && Less(ws[0], x)
  {
    assert ws == [ws[0]] + ws[1..];
    forall x | x in ws[1..]
      ensures x.ticket != ws[0].ticket && Less(ws[0], x)
    {
      var i :| 0 <= i < |ws| - 1 && ws[1..][i] == x;
      assert ws[i + 1] == x;
    }
  }

  lemma ConsFacts(w: Waiter, rest: seq<Waiter>)
    requires Ascending(rest) && DistinctTickets(rest) && forall x :: x in rest ==> x.ticket != w.ticket && Less(w, x)
    ensures Ascending([w] + rest) && DistinctTickets([w] + rest)
  {
    assert forall i :: 0 <= i < |rest| ==> rest[i] in rest;
  }

  lemma {:induction false} WithoutTicketIs(ws: seq<Waiter>, t: nat)
    requires Ascending(ws) && DistinctTickets(ws)
    ensures Ascending(WithoutTicket(ws, t)) && DistinctTickets(WithoutTicket(ws, t)) && |WithoutTicket(ws, t)| <= |ws|
    ensures forall w :: w in WithoutTicket(ws, t) <==> w in ws && w.ticket != t
  {
    if ws != [] {
      TailFacts(ws);
      if ws[0].ticket != t {
        WithoutTicketIs(ws[1..], t);
        ConsFacts(ws[0], WithoutTicket(ws[1..], t));
      }
    }
  }

  ghost predicate Queue(h: seq<Waiter>) {
    IsHeap(h) && Unique(multiset(h))
  }

  lemma UniqueTickets(ws: seq<Waiter>)
    requires Ascending(ws) && Unique(multiset(ws))
    ensures DistinctTickets(ws)
  {
    forall i, j | 0 <= i < j < |ws|
      ensures ws[i].ticket != ws[j].ticket
    {
      assert ws[i] in multiset(ws) && ws[j] in multiset(ws) && Less(ws[i], ws[j]);
    }
  }

  lemma {:induction false} AscendingUnique(ws: seq<Waiter>)
    requires Ascending(ws) && DistinctTickets(ws)
    ensures Unique(multiset(ws))
  {
    if ws != [] {
      TailFacts(ws);
      assert ws == [ws[0]] + ws[1..];
      AscendingUnique(ws[1..]);
      assert ws[0] !in ws[1..];
    }
  }

  lemma SortMembers(h: seq<Waiter>)
    ensures |Sort(h)| == |h| && forall w :: w in Sort(h) <==> w in h
  {
    SortIs(h);
    assert |multiset(h)| == |h| && |multiset(Sort(h))| == |Sort(h)|;
    forall w
      ensures w in Sort(h) <==> w in h
    {
      assert w in Sort(h) <==> w in multiset(Sort(h));
    }
  }

  lemma {:induction false} InsertLast(ws: seq<Waiter>, w: Waiter)
    requires forall x :: x in ws ==> !Less(w, x)
    ensures Insert(ws, w) == ws + [w]
  {
    if ws != [] {
      assert ws == [ws[0]] + ws[1..];
      InsertLast(ws[1..], w);
    }
  }

  lemma {:induction false} WithoutTicketBag(ws: seq<Waiter>, w: Waiter)
    requires Ascending(ws) && DistinctTickets(ws) && w in ws
    ensures multiset(ws) == multiset(WithoutTicket(ws, w.ticket)) + multiset{w}
  {
    assert ws == [ws[0]] + ws[1..];
    TailFacts(ws);
    if ws[0].ticket != w.ticket {
      WithoutTicketBag(ws[1..], w);
    }
  }

  lemma {:induction false} WithoutAbsent(ws: seq<Waiter>, t: nat)
    requires forall w :: w in ws ==> w.ticket != t
    ensures WithoutTicket(ws, t) == ws
  {
    if ws != [] {
      assert ws == [ws[0]] + ws[1..];
      WithoutAbsent(ws[1..], t);
    }
  }

  lemma NewTicketUnique(h: seq<Waiter>, w: Waiter)
    requires Unique(multiset(h)) && forall x :: x in h ==> x.ticket != w.ticket
    ensures Unique(multiset(h + [w]))
  {
    assert w !in h;
    forall x | x in multiset(h + [w])
      ensures multiset(h + [w])[x] == 1 && (x in multiset(h) || x == w)
    {
      assert x in multiset(h) || x == w;
    }
  }

  method PopBest(h: seq<Waiter>) returns (w: Waiter, r: seq<Waiter>)
    requires Queue(h) && h != []
    ensures Queue(r) && Sort(h) == [w] + Sort(r) && |r| == |h| - 1
    ensures forall x :: x in h <==> x in r || x == w
  {
    w, r := Pop(h);
    PopTakesHead(h, w, r);
    forall x
      ensures x in h <==> x in r || x == w
    {
      assert x in h <==> x in multiset(h);
    }
  }

  method PushNew(h: seq<Waiter>, w: Waiter) returns (r: seq<Waiter>)
    requires Queue(h) && forall x :: x in h ==> x.ticket != w.ticket
    ensures Queue(r) && Sort(r) == Insert(Sort(h), w)
    ensures forall x :: x in r <==> x in h || x == w
  {
    NewTicketUnique(h, w);
    r := Push(h, w);
    PushInserts(h, w, r);
    forall x
      ensures x in r <==> x in h || x == w
    {
      assert x in r <==> x in multiset(h + [w]);
    }
  }

  /** Pushes waiters back one by one, as a dispatch does with those it set aside. */
  method PushAll(ws: seq<Waiter>) returns (r: seq<Waiter>)
    requires Ascending(ws) && DistinctTickets(ws)
    ensures Queue(r) && Sort(r) == ws
  {
    r := [];
    for i := 0 to |ws|
      invariant Queue(r) && Sort(r) == ws[..i]
    {
      SortMembers(r);
      assert ws[..i + 1] == ws[..i] + [ws[i]];
      InsertLast(ws[..i], ws[i]);
      r := PushNew(r, ws[i]);
    }
    assert ws[..|ws|] == ws;
  }

  /** Where the waiter with a ticket is in the list, or its length. */
  method IndexOf(h: seq<Waiter>, t: nat) returns (i: nat)
    ensures i <= |h| && (i < |h| ==> h[i].ticket == t)
    ensures i == |h| ==> forall w :: w in h ==> w.ticket != t
  {
    i := 0;
    while i < |h| && h[i].ticket != t
      invariant i <= |h|
      invariant forall j :: 0 <= j < i ==> h[j].ticket != t
    {
      i := i + 1;
    }
  }

  /** Removes the waiter with a ticket, if it is still there, and restores the heap. */
  method Remove(h: seq<Waiter>, t: nat) returns (r: seq<Waiter>)
    requires Queue(h)
    ensures Queue(r) && Sort(r) == WithoutTicket(Sort(h), t)
    ensures forall x :: x in r ==> x in h
  {
    var i := IndexOf(h, t);
    if i == |h| {
      SortMembers(h);
      WithoutAbsent(Sort(h), t);
      return h;
    }
    var rest := h[..i] + h[i + 1..];
    assert h == h[..i] + [h[i]] + h[i + 1..];
    r := Heapify(rest);
    RemoveOne(h, h[i], r);
  }

  lemma RemoveOne(h: seq<Waiter>, w: Waiter, r: seq<Waiter>)
    requires Unique(multiset(h)) && multiset(h) == multiset(r) + multiset{w}
    ensures Unique(multiset(r)) && Sort(r) == WithoutTicket(Sort(h), w.ticket)
    ensures forall x :: x in r ==> x in h
  {
    SubBag(h, w, r);
    RestIsUnique(multiset(h), w, multiset(r));
    RemoveFromOrder(h, w, Sort(h));
    BagCancel(multiset(r), multiset(WithoutTicket(Sort(h), w.ticket)), w);
    SortOf(r, WithoutTicket(Sort(h), w.ticket));
  }

  lemma BagCancel(a: multiset<Waiter>, b: multiset<Waiter>, w: Waiter)
    requires a + multiset{w} == b + multiset{w}
    ensures a == b
  {
    assert a == a + multiset{w} - multiset{w};
  }

  lemma SubBag(h: seq<Waiter>, w: Waiter, r: seq<Waiter>)
    requires multiset(h) == multiset(r) + multiset{w}
    ensures w in h && forall x :: x in r ==> x in h
  {
    assert w in multiset(h);
    forall x | x in r
      ensures x in h
    {
      assert x in multiset(r);
      assert x in multiset(h);
    }
  }

  lemma RemoveFromOrder(h: seq<Waiter>, w: Waiter, order: seq<Waiter>)
    requires Unique(multiset(h)) && order == Sort(h) && w in h
    ensures Ascending(WithoutTicket(order, w.ticket))
    ensures multiset(h) == multiset(WithoutTicket(order, w.ticket)) + multiset{w}
  {
    SortIs(h);
    SortMembers(h);
    UniqueTickets(order);
    WithoutTicketBag(order, w);
    WithoutTicketIs(order, w.ticket);
  }
}
