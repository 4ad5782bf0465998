/** Two orders of the same incidents, and when filing in the one gives the correlation index of
    the other. */
module FilingOrder {
  import opened IncidentContracts
  import opened IncidentLog

  predicate AreDistinct(order: seq<string>) {
    forall i, j :: 0 <= i < j < |order| ==> order[i] != order[j]
  }

  predicate SameMembers(a: seq<string>, b: seq<string>) {
    (forall x :: x in a ==> x in b) && (forall x :: x in b ==> x in a)
  }

  // The incidents of a key, in this order.
  function Under(log: seq<Event>, order: seq<string>, key: string): seq<string> {
    if order == [] then []
    else Under(log, order[..|order| - 1], key) + if KeyOf(log, order[|order| - 1]) == key then [order[|order| - 1]] else []
  }

  lemma {:induction false} UnderMembers(log: seq<Event>, order: seq<string>, key: string)
    ensures forall x :: x in Under(log, order, key) <==> x in order && KeyOf(log, x) == key
    decreases |order|
  {
    hide KeyOf;
    if order != [] {
      UnderMembers(log, order[..|order| - 1], key);
      assert order == order[..|order| - 1] + [order[|order| - 1]];
    }
  }

  // The index has one list for each key with an incident, and it is the key's incidents in order.
  lemma {:induction false} GroupedIsUnder(log: seq<Event>, order: seq<string>, key: string)
    requires AreDistinct(order)
    ensures key in Grouped(log, order) <==> Under(log, order, key) != []
    ensures key in Grouped(log, order) ==> Grouped(log, order)[key] == Under(log, order, key)
    decreases |order|
  {
    hide KeyOf;
    if order != [] {
      var front, last := order[..|order| - 1], order[|order| - 1];
      GroupedIsUnder(log, front, key);
      UnderMembers(log, front, key);
    }
  }

  // x comes before y.
  predicate Before(order: seq<string>, x: string, y: string) {
    exists i, j :: 0 <= i < j < |order| && order[i] == x && order[j] == y
  }

  // Whatever `a` orders within one key, `b` orders the same way.
  predicate KeepsOrder(log: seq<Event>, a: seq<string>, b: seq<string>) {
    forall i, j :: 0 <= i < j < |a| && KeyOf(log, a[i]) == KeyOf(log, a[j]) ==> Before(b, a[i], a[j])
  }

  lemma {:induction false} BeforeUnder(log: seq<Event>, order: seq<string>, key: string, x: string, y: string)
    ensures Before(Under(log, order, key), x, y) <==> Before(order, x, y) && KeyOf(log, x) == key && KeyOf(log, y) == key
    decreases |order|
  {
    hide KeyOf, Before;
    if order == [] {
      NotBefore(order, x, y);
    } else {
      var front, last := order[..|order| - 1], order[|order| - 1];
      assert order == front + [last];
      BeforeUnder(log, front, key, x, y);
      UnderMembers(log, front, key);
      BeforePlus(front, last, x, y);
      BeforePlus(Under(log, front, key), last, x, y);
      assert Under(log, front, key) + [] == Under(log, front, key);
    }
  }

  lemma NotBefore(none: seq<string>, x: string, y: string)
    requires none == []
    ensures !Before(none, x, y)
  {
  }

  lemma BeforePlus(front: seq<string>, last: string, x: string, y: string)
    ensures Before(front + [last], x, y) <==> Before(front, x, y) || (y == last && x in front)
  {
    var all := front + [last];
    if Before(all, x, y) {
      var i, j :| 0 <= i < j < |all| && all[i] == x && all[j] == y;
      assert front[i] == x;
    }
    if Before(front, x, y) {
      var i, j :| 0 <= i < j < |front| && front[i] == x && front[j] == y;
      assert all[i] == x && all[j] == y;
    }
    if y == last && x in front {
      var i :| 0 <= i < |front| && front[i] == x;
      assert all[i] == x && all[|front|] == y;
    }
  }

  lemma {:induction false} UnderDistinct(log: seq<Event>, order: seq<string>, key: string)
    requires AreDistinct(order)
    ensures AreDistinct(Under(log, order, key))
    decreases |order|
  {
    hide KeyOf;
    if order != [] {
      UnderDistinct(log, order[..|order| - 1], key);
      UnderMembers(log, order[..|order| - 1], key);
    }
  }

  lemma FirstIsMember(t: seq<string>)
    ensures t == [] || t[0] in t
  {
  }

  lemma LastIsLast(t: seq<string>, x: string)
    requires AreDistinct(t) && t != []
    ensures !Before(t, t[|t| - 1], x)
  {
  }

  // Two orders of the same incidents that agree on what comes before what are one order.
  lemma {:induction false} SameOrder(s: seq<string>, t: seq<string>)
    requires AreDistinct(s) && AreDistinct(t) && SameMembers(s, t)
    requires forall i, j :: 0 <= i < j < |s| ==> Before(t, s[i], s[j])
    ensures s == t
    decreases |s|
  {
    hide Before;
    FirstIsMember(t);
    if s != [] {
      hide AreDistinct;
      var x := s[|s| - 1];
      assert x in t;
      LastIsLast(t, x);
      assert t[|t| - 1] in s && t[|t| - 1] == x;
      var sFront, tFront := s[..|s| - 1], t[..|t| - 1];
      assert s == sFront + [x] && t == tFront + [x];
      FrontMembers(sFront, tFront, x);
      forall i, j | 0 <= i < j < |sFront| ensures Before(tFront, sFront[i], sFront[j]) {
        assert Before(t, s[i], s[j]);
        FrontOrder(s, tFront, x, j);
        BeforePlus(tFront, x, s[i], s[j]);
      }
      SameOrder(sFront, tFront);
    }
  }

  lemma FrontOrder(s: seq<string>, tFront: seq<string>, x: string, j: nat)
    requires AreDistinct(s) && j < |s| - 1 && s[|s| - 1] == x
    ensures s[j] != x
  {
  }

  lemma FrontMembers(s: seq<string>, t: seq<string>, x: string)
    requires AreDistinct(s + [x]) && AreDistinct(t + [x]) && SameMembers(s + [x], t + [x])
    ensures AreDistinct(s) && AreDistinct(t) && SameMembers(s, t)
  {
    var all, all' := s + [x], t + [x];
    assert all[|s|] == x && all'[|t|] == x;
    forall y | y in s ensures y in t {
      var i :| 0 <= i < |s| && s[i] == y;
      assert all[i] == y && y in all';
    }
    forall y | y in t ensures y in s {
      var i :| 0 <= i < |t| && t[i] == y;
      assert all'[i] == y && y in all;
    }
    forall i, j | 0 <= i < j < |s| ensures s[i] != s[j] { assert all[i] != all[j]; }
    forall i, j | 0 <= i < j < |t| ensures t[i] != t[j] { assert all'[i] != all'[j]; }
  }

  // Theorem: the same incidents filed in two orders give the same correlation index exactly when
  // each key's incidents come in the same order.
  lemma GroupedExactly(log: seq<Event>, a: seq<string>, b: seq<string>)
    requires AreDistinct(a) && AreDistinct(b) && SameMembers(a, b)
    ensures Grouped(log, a) == Grouped(log, b) <==> KeepsOrder(log, a, b)
  {
    hide Grouped, KeyOf, Before, Under, KeepsOrder;
    if Grouped(log, a) == Grouped(log, b) {
      SameIndexKeepsOrder(log, a, b);
    }
    if KeepsOrder(log, a, b) {
      forall key ensures Under(log, a, key) == Under(log, b, key) {
        OrderGivesUnder(log, a, b, key);
      }
      SameUnderSameIndex(log, a, b);
    }
  }

  lemma SameUnderSameIndex(log: seq<Event>, a: seq<string>, b: seq<string>)
    requires AreDistinct(a) && AreDistinct(b) && forall key :: Under(log, a, key) == Under(log, b, key)
    ensures Grouped(log, a) == Grouped(log, b)
  {
    hide Grouped, Under;
    var g, h := Grouped(log, a), Grouped(log, b);
    forall key | key in g || key in h ensures key in g && key in h && g[key] == h[key] {
      GroupedIsUnder(log, a, key);
      GroupedIsUnder(log, b, key);
    }
  }

  lemma SameIndexKeepsOrder(log: seq<Event>, a: seq<string>, b: seq<string>)
    requires AreDistinct(a) && AreDistinct(b) && Grouped(log, a) == Grouped(log, b)
    ensures KeepsOrder(log, a, b)
  {
    hide Grouped, KeyOf, Under;
    forall i, j | 0 <= i < j < |a| && KeyOf(log, a[i]) == KeyOf(log, a[j]) ensures Before(b, a[i], a[j]) {
      var key := KeyOf(log, a[i]);
      assert Before(a, a[i], a[j]);
      BeforeUnder(log, a, key, a[i], a[j]);
      BeforeUnder(log, b, key, a[i], a[j]);
      GroupedIsUnder(log, a, key);
      GroupedIsUnder(log, b, key);
    }
  }

  lemma OrderGivesUnder(log: seq<Event>, a: seq<string>, b: seq<string>, key: string)
    requires AreDistinct(a) && AreDistinct(b) && SameMembers(a, b) && KeepsOrder(log, a, b)
    ensures Under(log, a, key) == Under(log, b, key)
  {
    hide KeyOf, Under;
    var s, t := Under(log, a, key), Under(log, b, key);
    UnderMembers(log, a, key);
    UnderMembers(log, b, key);
    UnderDistinct(log, a, key);
    UnderDistinct(log, b, key);
    forall i, j | 0 <= i < j < |s| ensures Before(t, s[i], s[j]) {
      assert Before(s, s[i], s[j]);
      BeforeUnder(log, a, key, s[i], s[j]);
      var x, y :| 0 <= x < y < |a| && a[x] == s[i] && a[y] == s[j];
      assert Before(b, a[x], a[y]);
      BeforeUnder(log, b, key, s[i], s[j]);
    }
    SameOrder(s, t);
  }

  // A common beginning changes nothing.
  lemma KeepsOrderAfter(log: seq<Event>, first: seq<string>, a: seq<string>, b: seq<string>)
    requires AreDistinct(first + a) && SameMembers(a, b)
    ensures KeepsOrder(log, first + a, first + b) <==> KeepsOrder(log, a, b)
  {
    hide KeyOf, Before;
    var x, y := first + a, first + b;
    if KeepsOrder(log, x, y) {
      forall i, j | 0 <= i < j < |a| && KeyOf(log, a[i]) == KeyOf(log, a[j]) ensures Before(b, a[i], a[j]) {
        assert x[|first| + i] == a[i] && x[|first| + j] == a[j];
        BeforeConcat(first, b, a[i], a[j]);
        NotInFront(first, a, i);
      }
    }
    if KeepsOrder(log, a, b) {
      forall i, j | 0 <= i < j < |x| && KeyOf(log, x[i]) == KeyOf(log, x[j]) ensures Before(y, x[i], x[j]) {
        BeforeConcat(first, b, x[i], x[j]);
        if i >= |first| {
          assert a[i - |first|] == x[i] && a[j - |first|] == x[j];
        } else if j >= |first| {
          assert x[j] == a[j - |first|] && x[j] in b;
        } else {
          InFront(first, i, j);
        }
      }
    }
  }

  lemma NotInFront(front: seq<string>, rest: seq<string>, i: nat)
    requires AreDistinct(front + rest) && i < |rest|
    ensures rest[i] !in front
  {
    assert (front + rest)[|front| + i] == rest[i];
    assert forall k :: 0 <= k < |front| ==> (front + rest)[k] == front[k];
  }

  lemma InFront(order: seq<string>, i: nat, j: nat)
    requires i < j < |order|
    ensures Before(order, order[i], order[j])
  {
  }

  lemma BeforeConcat(a: seq<string>, b: seq<string>, x: string, y: string)
    ensures Before(a, x, y) || Before(b, x, y) || (x in a && y in b) ==> Before(a + b, x, y)
    ensures Before(a + b, x, y) && x !in a ==> Before(b, x, y)
  {
    var all := a + b;
    if Before(a, x, y) {
      var i, j :| 0 <= i < j < |a| && a[i] == x && a[j] == y;
      assert all[i] == x && all[j] == y;
    }
    if Before(b, x, y) {
      var i, j :| 0 <= i < j < |b| && b[i] == x && b[j] == y;
      assert all[|a| + i] == x && all[|a| + j] == y;
    }
    if x in a && y in b {
      var i, j :| 0 <= i < |a| && 0 <= j < |b| && a[i] == x && b[j] == y;
      assert all[i] == x && all[|a| + j] == y;
    }
    if Before(all, x, y) && x !in a {
      var i, j :| 0 <= i < j < |all| && all[i] == x && all[j] == y;
      assert b[i - |a|] == x && b[j - |a|] == y;
    }
  }

  lemma ExchangeRest(first: seq<string>, a: seq<string>, b: seq<string>)
    requires AreDistinct(first + a) && AreDistinct(b) && SameMembers(a, b)
    ensures AreDistinct(first + b) && SameMembers(first + a, first + b)
  {
    var x, y := first + a, first + b;
    forall i, j | 0 <= i < j < |y| ensures y[i] != y[j] {
      if j < |first| {
        assert x[i] == y[i] && x[j] == y[j];
      } else {
        assert y[j] == b[j - |first|] && y[j] in a;
        var k :| 0 <= k < |a| && a[k] == y[j];
        NotInFront(first, a, k);
        assert i < |first| ==> y[i] in first;
        assert i >= |first| ==> y[i] == b[i - |first|];
      }
    }
    assert forall z :: z in x <==> z in first || z in a;
    assert forall z :: z in y <==> z in first || z in b;
  }
}
