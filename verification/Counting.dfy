/** Sizes of sets and maps. */
module Counting {

  lemma {:induction false} SubsetSize<T>(a: set<T>, b: set<T>)
    requires a <= b
    ensures |a| <= |b|
  {
    assert b == a + (b - a);
  }

  /** A map that never gives one value to two keys has as many values as keys. */
  lemma {:induction false} InjectiveSize<K>(m: map<K, nat>)
    requires forall k, l | k in m && l in m && m[k] == m[l] :: k == l
    ensures |m.Values| == |m|
    decreases |m|
  {
    if m == map[] {
      assert m.Values == {};
    } else {
      var k :| k in m;
      var rest := m - {k};
      InjectiveSize(rest);
      assert m.Keys == rest.Keys + {k};
      forall v | v in m.Values ensures v in rest.Values + {m[k]} {
        var l :| l in m && m[l] == v;
        assert l == k || (l in rest && rest[l] == v);
      }
      assert m.Values == rest.Values + {m[k]};
      assert m[k] !in rest.Values;
    }
  }

  /** A number above all of a set. */
  lemma Above(s: set<nat>) returns (n: nat)
    ensures forall x | x in s :: x < n
  {
    n := 0;
    var left := s;
    while left != {}
      invariant left <= s
      invariant forall x | x in s :: x in left || x < n
      decreases left
    {
      var x :| x in left;
      n := if x < n then n else x + 1;
      left := left - {x};
    }
  }

  lemma UnionSize<T>(a: set<T>, b: set<T>)
    ensures |a + b| <= |a| + |b|
  {
    assert a + b == a + (b - a) && b == (b - a) + b * a;
  }

  lemma ThreeParts(x: set<nat>, y: set<nat>, z: set<nat>)
    requires x !! y && (x + y) !! z
    ensures |x + y + z| == |x| + |y| + |z|
  {}

  function Below(n: nat): (r: set<nat>)
    ensures |r| == n && forall i: nat :: i in r <==> i < n
  {
    if n == 0 then {} else Below(n - 1) + {n - 1}
  }

  function Elements(s: seq<nat>): set<nat> {
    set x | x in s
  }

  /** A sequence without repetition has as many elements as positions. */
  lemma {:induction false} DistinctSize(s: seq<nat>)
    requires forall i, j | 0 <= i < j < |s| :: s[i] != s[j]
    ensures |Elements(s)| == |s|
  {
    if s != [] {
      var init, last := s[..|s| - 1], s[|s| - 1];
      DistinctSize(init);
      assert s == init + [last];
      assert last !in init;
      assert Elements(s) == Elements(init) + {last};
    }
  }
}
