/** Ordered insertion under a strict order, for the sorted listings of the read models. */
module Sorting {

  ghost predicate Transitive<T(!new)>(before: (T, T) -> bool) {
    forall a, b, c :: before(a, b) && before(b, c) ==> before(a, c)
  }

  ghost predicate Ordered<T>(before: (T, T) -> bool, s: seq<T>) {
    forall i, j :: 0 <= i < j < |s| ==> before(s[i], s[j])
  }

  ghost predicate Comparable<T>(before: (T, T) -> bool, a: T, b: T) {
    before(a, b) || before(b, a)
  }

  /** Places x among ordered elements it is comparable with. */
  method Insert<T(!new)>(before: (T, T) -> bool, s: seq<T>, x: T) returns (out: seq<T>)
    requires Transitive(before) && Ordered(before, s)
    requires forall i :: 0 <= i < |s| ==> Comparable(before, s[i], x)
    ensures Ordered(before, out)
    ensures forall y :: y in out <==> y in s || y == x
  {
    hide Ordered;
    var n := |s|;
    while n > 0 && !before(s[n - 1], x)
      invariant 0 <= n <= |s|
      invariant forall i :: n <= i < |s| ==> before(x, s[i])
    {
      n := n - 1;
      assert Comparable(before, s[n], x);
    }
    out := s[..n] + [x] + s[n..];
    Splice(before, s, n, x);
  }

  lemma {:induction false} Splice<T(!new)>(before: (T, T) -> bool, s: seq<T>, n: nat, x: T)
    requires Transitive(before) && Ordered(before, s) && n <= |s|
    requires n > 0 ==> before(s[n - 1], x)
    requires forall i :: n <= i < |s| ==> before(x, s[i])
    ensures Ordered(before, s[..n] + [x] + s[n..])
  {
    var out := s[..n] + [x] + s[n..];
    forall i | 0 <= i < n ensures before(s[i], x) {
      assert i < n - 1 ==> before(s[i], s[n - 1]);
    }
    forall i, j | 0 <= i < j < |out| ensures before(out[i], out[j]) {
      assert out[i] == if i < n then s[i] else if i == n then x else s[i - 1];
      assert out[j] == if j < n then s[j] else if j == n then x else s[j - 1];
    }
  }

  /** Two ordered listings of the same elements are the same list. */
  lemma {:induction false} OneListing<T(!new)>(before: (T, T) -> bool, a: seq<T>, b: seq<T>)
    requires Ordered(before, a) && Ordered(before, b)
    requires forall x, y :: before(x, y) ==> !before(y, x)
    requires forall x :: x in a <==> x in b
    ensures a == b
    decreases |a|
  {
    assert a != [] ==> a[0] in a;
    assert b != [] ==> b[0] in b;
    if a != [] && b != [] {
      SameFirst(before, a, b);
      SameRest(before, a, b);
      OneListing(before, a[1..], b[1..]);
    }
  }

  lemma {:induction false} SameFirst<T(!new)>(before: (T, T) -> bool, a: seq<T>, b: seq<T>)
    requires Ordered(before, a) && Ordered(before, b) && a != [] && b != []
    requires forall x, y :: before(x, y) ==> !before(y, x)
    requires forall x :: x in a <==> x in b
    ensures a[0] == b[0]
  {
    assert a[0] in b && b[0] in a;
    var i :| 0 <= i < |b| && b[i] == a[0];
    var j :| 0 <= j < |a| && a[j] == b[0];
    FirstIsBefore(before, b, i);
    FirstIsBefore(before, a, j);
  }

  lemma {:induction false} FirstIsBefore<T(!new)>(before: (T, T) -> bool, s: seq<T>, i: nat)
    requires Ordered(before, s) && i < |s|
    ensures i == 0 || before(s[0], s[i])
  {
  }

  lemma {:induction false} SameRest<T(!new)>(before: (T, T) -> bool, a: seq<T>, b: seq<T>)
    requires Ordered(before, a) && Ordered(before, b) && a != [] && b != [] && a[0] == b[0]
    requires forall x, y :: before(x, y) ==> !before(y, x)
    requires forall x :: x in a <==> x in b
    ensures forall x :: x in a[1..] <==> x in b[1..]
    ensures Ordered(before, a[1..]) && Ordered(before, b[1..])
  {
    forall x ensures x in a[1..] <==> x in a && x != a[0] {
      TailMembers(before, a, x);
    }
    forall x ensures x in b[1..] <==> x in b && x != b[0] {
      TailMembers(before, b, x);
    }
  }

  lemma {:induction false} TailMembers<T(!new)>(before: (T, T) -> bool, a: seq<T>, x: T)
    requires Ordered(before, a) && a != [] && forall x, y :: before(x, y) ==> !before(y, x)
    ensures x in a[1..] <==> x in a && x != a[0]
  {
    assert a == [a[0]] + a[1..];
    if x in a[1..] {
      var i :| 0 <= i < |a[1..]| && a[1..][i] == x;
      assert before(a[0], a[i + 1]);
    }
  }
}
