/** Ascending order over naturals, as the array sorts of the program produce it. */
module Ordering {

  ghost predicate Ascends(s: seq<nat>) {
    forall i, j :: 0 <= i < j < |s| ==> s[i] <= s[j]
  }

  ghost predicate StrictlyAscends(s: seq<nat>) {
    forall i, j :: 0 <= i < j < |s| ==> s[i] < s[j]
  }

  ghost predicate IsLeast(m: nat, s: set<nat>) {
    m in s && forall x :: x in s ==> m <= x
  }

  lemma LeastExists(s: set<nat>)
    requires s != {}
    ensures exists m :: IsLeast(m, s)
  {
    var x :| x in s;
    if s == {x} {
      assert IsLeast(x, s);
    } else {
      LeastExists(s - {x});
      var m :| IsLeast(m, s - {x});
      assert forall y :: y in s ==> y == x || y in s - {x};
      assert IsLeast(if x < m then x else m, s);
    }
  }

  function Least(s: set<nat>): (m: nat)
    requires s != {}
    ensures m in s && forall x :: x in s ==> m <= x
  {
    LeastExists(s);
    var m :| m in s && forall x :: x in s ==> m <= x;
    m
  }

  lemma LeastIntExists(s: set<int>, x: int)
    requires x in s
    ensures exists m :: m in s && forall y :: y in s ==> m <= y
    decreases |s|
  {
    if y :| y in s && y < x {
      LeastIntExists(s - {x}, y);
      var m :| m in s - {x} && forall z :: z in s - {x} ==> m <= z;
      assert forall z :: z in s ==> z == x || z in s - {x};
      assert m in s && forall z :: z in s ==> m <= z;
    }
  }

  function LeastInt(s: set<int>): (m: int)
    requires exists x :: x in s
    ensures m in s && forall x :: x in s ==> m <= x
  {
    var x :| x in s;
    LeastIntExists(s, x);
    var m :| m in s && forall y :: y in s ==> m <= y;
    m
  }

  /** The members of a set of integers, in ascending order. */
  function ListedInts(s: set<int>): (r: seq<int>)
    ensures forall i, j :: 0 <= i < j < |r| ==> r[i] < r[j]
    ensures forall x :: x in r <==> x in s
    decreases |s|
  {
    if !exists x :: x in s then [] else
      var m := LeastInt(s);
      var rest := ListedInts(s - {m});
      assert forall i :: 0 <= i < |rest| ==> rest[i] in rest;
      [m] + rest
  }

  ghost predicate IsGreatest(m: nat, s: set<nat>) {
    m in s && forall x :: x in s ==> x <= m
  }

  lemma GreatestExists(s: set<nat>)
    requires s != {}
    ensures exists m :: IsGreatest(m, s)
  {
    var x :| x in s;
    if s == {x} {
      assert IsGreatest(x, s);
    } else {
      GreatestExists(s - {x});
      var m :| IsGreatest(m, s - {x});
      assert forall y :: y in s ==> y == x || y in s - {x};
      assert IsGreatest(if x > m then x else m, s);
    }
  }

  function Greatest(s: set<nat>): (m: nat)
    requires s != {}
    ensures m in s && forall x :: x in s ==> x <= m
  {
    GreatestExists(s);
    var m :| m in s && forall x :: x in s ==> x <= m;
    m
  }

  /** The members of a set, in ascending order. */
  function Listed(s: set<nat>): (r: seq<nat>)
    ensures StrictlyAscends(r)
    ensures forall x :: x in r <==> x in s
    ensures |r| == |s|
  {
    if s == {} then [] else
      var m := Least(s);
      var rest := Listed(s - {m});
      assert forall i :: 0 <= i < |rest| ==> rest[i] in rest;
      [m] + rest
  }

  function Insert(x: nat, s: seq<nat>): (r: seq<nat>)
    requires Ascends(s)
    ensures Ascends(r) && multiset(r) == multiset(s) + multiset{x}
  {
    if s == [] || x <= s[0] then
      [x] + s
    else
      var rest := Insert(x, s[1..]);
      assert s == [s[0]] + s[1..];
      ConsAscends(s[0], rest, s[1..], x);
      [s[0]] + rest
  }

  lemma ConsAscends(head: nat, rest: seq<nat>, before: seq<nat>, x: nat)
    requires Ascends([head] + before) && head <= x
    requires Ascends(rest) && multiset(rest) == multiset(before) + multiset{x}
    ensures Ascends([head] + rest)
  {
    forall i | 0 <= i < |rest|
      ensures head <= rest[i]
    {
      assert rest[i] in multiset(rest);
      assert rest[i] in multiset(before) || rest[i] == x;
      if rest[i] in before {
        var k :| 0 <= k < |before| && before[k] == rest[i];
        assert ([head] + before)[0] <= ([head] + before)[k + 1];
      }
    }
  }

  /** The values of a list, in ascending order, repeats kept. */
  function Sorted(s: seq<nat>): (r: seq<nat>)
    ensures Ascends(r) && multiset(r) == multiset(s)
  {
    if s == [] then []
    else
      assert s == [s[0]] + s[1..];
      Insert(s[0], Sorted(s[1..]))
  }

  // ---------------------------------------------------------------------------------------------------
  // The keys of a map that remembers the order they were set in.

  ghost predicate NoRepeats<T(!new)>(s: seq<T>) {
    forall i, j :: 0 <= i < j < |s| ==> s[i] != s[j]
  }

  /** The list without one of its members. */
  function Dropping<T(==)>(s: seq<T>, x: T): (r: seq<T>)
    ensures |r| <= |s| && (x in s ==> |r| < |s|)
  {
    if s == [] then [] else
      var front := Dropping(s[..|s| - 1], x);
      if s[|s| - 1] == x then front else front + [s[|s| - 1]]
  }

  lemma {:induction false} DroppingDrops<T(!new)>(s: seq<T>, x: T)
    requires NoRepeats(s)
    ensures NoRepeats(Dropping(s, x)) && forall y :: y in Dropping(s, x) <==> y in s && y != x
    ensures |Dropping(s, x)| == if x in s then |s| - 1 else |s|
  {
    if s != [] {
      var n := |s| - 1;
      assert s == s[..n] + [s[n]] && forall i :: 0 <= i < n ==> s[..n][i] == s[i];
      DroppingDrops(s[..n], x);
      assert s[n] !in s[..n];
    }
  }

  lemma DroppingLast<T>(s: seq<T>, x: T)
    ensures Dropping(s + [x], x) == Dropping(s, x)
  {
  }
}
