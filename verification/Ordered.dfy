/** Ascending iteration over the keys of an ordered map. */
module Ordered {

  /** Some element of a non-empty set. */
  ghost function Pick<T>(s: set<T>): (x: T)
    requires s != {}
    ensures x in s
  {
    var x :| x in s;
    x
  }

  predicate IsLeast(m: int, s: set<int>) {
    m in s && forall x :: x in s ==> m <= x
  }

  lemma {:induction false} HasLeast(s: set<int>) returns (m: int)
    requires s != {}
    ensures IsLeast(m, s)
  {
    var y := Pick(s);
    var t := s - {y};
    if t == {} {
      assert s == {y};
      m := y;
    } else {
      m := HasLeast(t);
      m := if m <= y then m else y;
      forall x | x in s ensures m <= x {
        assert x == y || x in t;
      }
    }
  }

  lemma SomeLeast(s: set<int>)
    requires s != {}
    ensures exists m :: IsLeast(m, s)
  {
    var m := HasLeast(s);
  }

  /** The key an ordered map starts with. */
  function Least(s: set<int>): (m: int)
    requires s != {}
    ensures m in s && forall x :: x in s ==> m <= x
  {
    SomeLeast(s);
    var m :| m in s && IsLeast(m, s);
    m
  }

  ghost predicate NoDuplicates<T>(s: seq<T>) {
    forall i, j :: 0 <= i < j < |s| ==> s[i] != s[j]
  }

  ghost function ToSet<T>(s: seq<T>): set<T> {
    set x | x in s
  }

  /** The elements of an ordered set, smallest first. */
  function Listed(s: set<int>): (r: seq<int>)
    ensures NoDuplicates(r) && ToSet(r) == s
  {
    if s == {} then []
    else
      var m := Least(s);
      var rest := Listed(s - {m});
      assert ToSet([m] + rest) == {m} + ToSet(rest);
      [m] + rest
  }

  lemma ConcatToSet<T>(a: seq<T>, b: seq<T>)
    ensures ToSet(a + b) == ToSet(a) + ToSet(b)
  {
  }

  lemma ConcatNoDuplicates<T>(a: seq<T>, b: seq<T>)
    ensures NoDuplicates(a + b) <==> NoDuplicates(a) && NoDuplicates(b) && ToSet(a) !! ToSet(b)
  {
    var c := a + b;
    if NoDuplicates(c) {
      forall i, j | 0 <= i < j < |a| ensures a[i] != a[j] {
        assert c[i] != c[j];
      }
      forall i, j | 0 <= i < j < |b| ensures b[i] != b[j] {
        assert c[|a| + i] != c[|a| + j];
      }
      forall i, j | 0 <= i < |a| && 0 <= j < |b| ensures a[i] != b[j] {
        assert c[i] != c[|a| + j];
      }
    }
    if NoDuplicates(a) && NoDuplicates(b) && ToSet(a) !! ToSet(b) {
      forall i, j | 0 <= i < j < |c| ensures c[i] != c[j] {
        if i < |a| <= j {
          assert c[i] in ToSet(a) && c[j] in ToSet(b);
        }
      }
    }
  }
}
