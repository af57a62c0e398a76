/** The order `ORDER BY id` sorts case ids in: lexicographic by character code. */
module Order {

  /** `a` sorts before `b` or is equal to it. */
  predicate Le(a: string, b: string)
    decreases |a|
  {
    |a| == 0 || (|b| > 0 && (a[0] < b[0] || (a[0] == b[0] && Le(a[1..], b[1..]))))
  }

  predicate Lt(a: string, b: string) {
    Le(a, b) && a != b
  }

  lemma {:induction false} LeReflexive(a: string)
    ensures Le(a, a)
    decreases |a|
  {
    if |a| > 0 { LeReflexive(a[1..]); }
  }

  lemma {:induction false} LeTotal(a: string, b: string)
    ensures Le(a, b) || Le(b, a)
    decreases |a|
  {
    if |a| > 0 && |b| > 0 && a[0] == b[0] { LeTotal(a[1..], b[1..]); }
  }

  lemma {:induction false} LeAntisymmetric(a: string, b: string)
    requires Le(a, b) && Le(b, a)
    ensures a == b
    decreases |a|
  {
    if |a| > 0 {
      LeAntisymmetric(a[1..], b[1..]);
      assert a == [a[0]] + a[1..] && b == [b[0]] + b[1..];
    }
  }

  lemma {:induction false} LeTransitive(a: string, b: string, c: string)
    requires Le(a, b) && Le(b, c)
    ensures Le(a, c)
    decreases |a|
  {
    if |a| > 0 && a[0] == b[0] && b[0] == c[0] { LeTransitive(a[1..], b[1..], c[1..]); }
  }

  /** Every two distinct ids are ordered one way or the other, and never both ways. */
  lemma LtTrichotomy(a: string, b: string)
    ensures a == b || Lt(a, b) || Lt(b, a)
    ensures !(Lt(a, b) && Lt(b, a))
  {
    LeTotal(a, b);
    if Le(a, b) && Le(b, a) { LeAntisymmetric(a, b); }
  }

  predicate IsLeast(m: string, ks: set<string>) {
    m in ks && forall k :: k in ks ==> Le(m, k)
  }

  lemma {:induction false} LeastExists(ks: set<string>)
    requires ks != {}
    ensures exists m :: IsLeast(m, ks)
    decreases |ks|
  {
    var x :| x in ks;
    if ks == {x} {
      LeReflexive(x);
      assert IsLeast(x, ks);
    } else {
      LeastExists(ks - {x});
      var m :| IsLeast(m, ks - {x});
      LeTotal(m, x);
      if Le(m, x) {
        assert IsLeast(m, ks);
      } else {
        forall k | k in ks ensures Le(x, k) {
          if k == x { LeReflexive(x); } else { LeTransitive(x, m, k); }
        }
        assert IsLeast(x, ks);
      }
    }
  }

  /** A set has at most one least element. */
  lemma LeastUnique(ks: set<string>)
    ensures forall m, n :: IsLeast(m, ks) && IsLeast(n, ks) ==> m == n
  {
    forall m, n | IsLeast(m, ks) && IsLeast(n, ks) ensures m == n {
      LeAntisymmetric(m, n);
    }
  }

  /** Strictly ascending, hence without repetitions. */
  predicate Ascending(s: seq<string>) {
    forall i, j :: 0 <= i < j < |s| ==> Lt(s[i], s[j])
  }

  /** The keys of `ks` in ascending order: the order the database returns rows in. */
  function SortedKeys(ks: set<string>): (r: seq<string>)
    ensures Ascending(r) && |r| == |ks|
    ensures forall k :: k in r <==> k in ks
    ensures forall i :: 0 <= i < |r| ==> r[i] in ks
    decreases |ks|
  {
    if ks == {} then []
    else
      LeastExists(ks);
      LeastUnique(ks);
      var m :| IsLeast(m, ks);
      var rest := SortedKeys(ks - {m});
      assert forall k :: k in rest ==> Lt(m, k);
      [m] + rest
  }

  /** An ascending sequence is determined by its elements: SortedKeys is the only ascending enumeration of a set. */
  lemma {:induction false} AscendingUnique(s: seq<string>, t: seq<string>)
    requires Ascending(s) && Ascending(t)
    requires forall k :: k in s <==> k in t
    ensures s == t
    decreases |s|
  {
    assert s != [] ==> s[0] in t;
    assert t != [] ==> t[0] in s;
    if s != [] && t != [] {
      if s[0] != t[0] {
        assert s[0] in t && t[0] in s;
        var j :| 0 <= j < |t| && t[j] == s[0];
        var i :| 0 <= i < |s| && s[i] == t[0];
        assert Lt(s[0], s[i]) && Lt(t[0], t[j]);
        LtTrichotomy(s[0], t[0]);
      }
      forall k ensures k in s[1..] <==> k in t[1..] {
        if k in s[1..] {
          var i :| 1 <= i < |s| && s[i] == k;
          assert Lt(s[0], k) && k in t;
          var j :| 0 <= j < |t| && t[j] == k;
          assert j != 0;
        }
        if k in t[1..] {
          var j :| 1 <= j < |t| && t[j] == k;
          assert Lt(t[0], k) && k in s;
          var i :| 0 <= i < |s| && s[i] == k;
          assert i != 0;
        }
      }
      AscendingUnique(s[1..], t[1..]);
      assert s == [s[0]] + s[1..] && t == [t[0]] + t[1..];
    }
  }

  /** The elements of a sequence without repetitions are as many as its length. */
  lemma {:induction false} AscendingCard(s: seq<string>)
    requires Ascending(s)
    ensures |set k | k in s| == |s|
    decreases |s|
  {
    if s != [] {
      AscendingCard(s[1..]);
      assert (set k | k in s) == {s[0]} + (set k | k in s[1..]);
      assert forall i :: 1 <= i < |s| ==> s[i] != s[0] by {
        forall i | 1 <= i < |s| ensures s[i] != s[0] { assert Lt(s[0], s[i]); }
      }
      assert s[0] !in s[1..];
    }
  }

  /** Exactly `i` elements of an ascending sequence sort before its `i`-th element. */
  lemma RankInAscending(s: seq<string>, i: nat)
    requires Ascending(s) && i < |s|
    ensures |set k | k in s && Lt(k, s[i])| == i
  {
    forall k | k in s ensures Lt(k, s[i]) <==> k in s[..i] {
      var j :| 0 <= j < |s| && s[j] == k;
      if j > i { LtTrichotomy(s[i], s[j]); }
    }
    assert (set k | k in s && Lt(k, s[i])) == (set k | k in s[..i]);
    AscendingCard(s[..i]);
  }
}
