/** The order of names, and names in order. */
module TextOrder {
  predicate Before(a: string, b: string) {
    if b == "" then false
    else if a == "" then true
    else a[0] < b[0] || (a[0] == b[0] && Before(a[1..], b[1..]))
  }

  lemma {:induction false} BeforeIsTotal(a: string, b: string, c: string)
    ensures a == b || Before(a, b) || Before(b, a)
    ensures Before(a, b) ==> !Before(b, a) && a != b
    ensures Before(a, b) && Before(b, c) ==> Before(a, c)
    decreases |a|
  {
    if a != "" && b != "" {
      assert a == [a[0]] + a[1..] && b == [b[0]] + b[1..];
      BeforeIsTotal(a[1..], b[1..], if c == "" then "" else c[1..]);
    }
  }

  /** `b` goes on after all of `a`, or they part at some character and `a` has the smaller one there. */
  predicate PartsAt(a: string, b: string, k: nat) {
    k <= |a| && k < |b| && a[..k] == b[..k] && (k == |a| || a[k] < b[k])
  }

  /** The order is the dictionary's. */
  lemma {:induction false} BeforeExactly(a: string, b: string)
    ensures Before(a, b) <==> exists k: nat :: PartsAt(a, b, k)
    decreases |a|
  {
    if a == "" {
      assert b != "" ==> PartsAt(a, b, 0);
    } else if b != "" {
      BeforeExactly(a[1..], b[1..]);
      assert a == [a[0]] + a[1..] && b == [b[0]] + b[1..];
      if a[0] < b[0] { assert PartsAt(a, b, 0); }
      if k: nat :| a[0] == b[0] && PartsAt(a[1..], b[1..], k) {
        assert a[..k + 1] == [a[0]] + a[1..][..k] && b[..k + 1] == [b[0]] + b[1..][..k];
        assert PartsAt(a, b, k + 1);
      }
      if k: nat :| PartsAt(a, b, k) && k > 0 {
        assert a[..k][0] == b[..k][0];
        assert a[..k][1..] == a[1..][..k - 1] && b[..k][1..] == b[1..][..k - 1];
        assert PartsAt(a[1..], b[1..], k - 1);
      }
    }
  }

  predicate IsLeast(x: string, bag: multiset<string>) {
    x in bag && forall y :: y in bag ==> y == x || Before(x, y)
  }

  lemma LeastOfMore(y: string, z: string, rest: multiset<string>, bag: multiset<string>)
    requires IsLeast(z, rest) && y in bag && rest == bag - multiset{y}
    ensures IsLeast(if Before(y, z) then y else z, bag)
  {
    BeforeIsTotal(y, z, z);
    forall w | w in bag ensures w == y || (w in rest && (Before(y, z) && Before(z, w) ==> Before(y, w))) {
      BeforeIsTotal(y, z, w);
    }
  }

  lemma {:induction false} LeastExists(bag: multiset<string>) returns (x: string)
    requires |bag| > 0
    ensures IsLeast(x, bag)
    decreases |bag|
  {
    var y :| y in bag;
    var rest := bag - multiset{y};
    if rest == multiset{} {
      x := y;
      assert bag == rest + multiset{y};
    } else {
      var z := LeastExists(rest);
      x := if Before(y, z) then y else z;
      LeastOfMore(y, z, rest, bag);
    }
  }

  lemma LeastIs(bag: multiset<string>)
    requires |bag| > 0
    ensures exists x :: IsLeast(x, bag)
  {
    var x := LeastExists(bag);
  }

  /** All of them, least first: a sorted list depends on nothing but what is in it. */
  ghost function Arrange(bag: multiset<string>): (s: seq<string>)
    ensures multiset(s) == bag
    decreases |bag|
  {
    if |bag| == 0 then []
    else
      LeastIs(bag);
      var x :| IsLeast(x, bag);
      [x] + Arrange(bag - multiset{x})
  }

  predicate Sorted(s: seq<string>) {
    forall i, j :: 0 <= i < j < |s| ==> s[i] == s[j] || Before(s[i], s[j])
  }

  lemma LeastThenRest(bag: multiset<string>, s: seq<string>, rest: seq<string>)
    requires s != [] && IsLeast(s[0], bag) && multiset(s) == bag && s[1..] == rest && Sorted(rest)
    ensures Sorted(s)
  {
    forall j | 0 < j < |s| ensures s[0] == s[j] || Before(s[0], s[j]) {
      assert s[j] in multiset(s) && s[j] == rest[j - 1];
    }
    forall i, j | 0 < i < j < |s| ensures s[i] == s[j] || Before(s[i], s[j]) {
      assert s[i] == rest[i - 1] && s[j] == rest[j - 1];
    }
  }

  lemma {:induction false} ArrangeIsSorted(bag: multiset<string>)
    ensures Sorted(Arrange(bag))
    decreases |bag|
  {
    if |bag| > 0 {
      var s := Arrange(bag);
      ArrangeIsSorted(bag - multiset{s[0]});
      LeastThenRest(bag, s, Arrange(bag - multiset{s[0]}));
    }
  }

  /** There is only one way to put a list in order. */
  lemma {:induction false} SortedIsUnique(s: seq<string>)
    requires Sorted(s)
    ensures s == Arrange(multiset(s))
  {
    if s != [] {
      var bag := multiset(s);
      assert s == [s[0]] + s[1..];
      assert multiset(s[1..]) == bag - multiset{s[0]};
      SortedIsUnique(s[1..]);
      LeastIs(bag);
      forall x | IsLeast(x, bag) ensures x == s[0] {
        var i :| 0 <= i < |s| && s[i] == x;
        BeforeIsTotal(x, s[0], x);
      }
    }
  }
}
