/**
  The ordering of datastore key names.

  Keys of the DomainState kind are plain names, and the datastore orders them
  lexicographically. Characters are compared by code point; for UTF-8 text
  that is the same order as comparing the encoded bytes.
 */
module KeyOrder {

  /** Strict lexicographic order on key names. */
  predicate Less(a: string, b: string)
    decreases |a|
  {
    if |a| == 0 then |b| > 0
    else if |b| == 0 then false
    else if a[0] != b[0] then a[0] < b[0]
    else Less(a[1..], b[1..])
  }

  lemma {:induction false} LessIrreflexive(a: string)
    ensures !Less(a, a)
    decreases |a|
  {
    if |a| > 0 {
      LessIrreflexive(a[1..]);
    }
  }

  lemma {:induction false} LessTransitive(a: string, b: string, c: string)
    requires Less(a, b) && Less(b, c)
    ensures Less(a, c)
    decreases |a|
  {
    if |a| > 0 && a[0] == b[0] && b[0] == c[0] {
      LessTransitive(a[1..], b[1..], c[1..]);
    }
  }

  /** Any two distinct names are ordered one way or the other. */
  lemma {:induction false} LessTotal(a: string, b: string)
    ensures Less(a, b) || a == b || Less(b, a)
    decreases |a|
  {
    if |a| > 0 && |b| > 0 && a[0] == b[0] {
      LessTotal(a[1..], b[1..]);
      assert a == [a[0]] + a[1..];
      assert b == [b[0]] + b[1..];
    }
  }

  lemma LessAsymmetric(a: string, b: string)
    ensures !(Less(a, b) && Less(b, a))
  {
    if Less(a, b) && Less(b, a) {
      LessTransitive(a, b, a);
      LessIrreflexive(a);
    }
  }

  /** A name comes strictly after each of its proper prefixes. */
  lemma {:induction false} ProperPrefixIsLess(p: string, s: string)
    requires p <= s && p != s
    ensures Less(p, s)
    decreases |p|
  {
    if |p| > 0 {
      assert p[1..] <= s[1..];
      assert p == [p[0]] + p[1..];
      assert s == [s[0]] + s[1..];
      ProperPrefixIsLess(p[1..], s[1..]);
    }
  }

  /**
    The names extending p sit together directly after p: a name s that is
    greater than p but does not start with p is greater than every name
    that does start with p.
   */
  lemma {:induction false} ExtensionsComeFirst(p: string, t: string, s: string)
    requires p <= t
    requires Less(p, s) && !(p <= s)
    ensures Less(t, s)
    decreases |p|
  {
    if |p| > 0 && p[0] == s[0] {
      assert p[1..] <= t[1..];
      assert p == [p[0]] + p[1..];
      assert s == [s[0]] + s[1..];
      ExtensionsComeFirst(p[1..], t[1..], s[1..]);
    }
  }

  /** Strictly ascending: the order in which a key-ordered query returns keys. */
  ghost predicate Sorted(ks: seq<string>)
  {
    forall i, j :: 0 <= i < j < |ks| ==> Less(ks[i], ks[j])
  }

  /** An ascending sequence holds each name at most once. */
  lemma SortedDistinct(ks: seq<string>)
    requires Sorted(ks)
    ensures forall i, j :: 0 <= i < j < |ks| ==> ks[i] != ks[j]
  {
    forall i, j | 0 <= i < j < |ks|
      ensures ks[i] != ks[j]
    {
      LessIrreflexive(ks[i]);
    }
  }

  predicate IsMinimum(m: string, ks: set<string>)
  {
    m in ks && forall k :: k in ks && k != m ==> Less(m, k)
  }

  lemma {:induction false} MinimumExists(ks: set<string>)
    requires ks != {}
    ensures exists m :: IsMinimum(m, ks)
    decreases ks
  {
    var x :| x in ks;
    if ks != {x} {
      MinimumExists(ks - {x});
      var m :| IsMinimum(m, ks - {x});
      LessTotal(m, x);
      if Less(m, x) {
        assert IsMinimum(m, ks);
      } else {
        forall k | k in ks && k != x
          ensures Less(x, k)
        {
          if k != m {
            LessTransitive(x, m, k);
          }
        }
        assert IsMinimum(x, ks);
      }
    } else {
      assert IsMinimum(x, ks);
    }
  }

  lemma MinimumUnique(ks: set<string>)
    ensures forall m, m' :: IsMinimum(m, ks) && IsMinimum(m', ks) ==> m == m'
  {
    forall m, m' | IsMinimum(m, ks) && IsMinimum(m', ks)
      ensures m == m'
    {
      LessAsymmetric(m, m');
    }
  }

  /** The keys of a set in ascending order, each exactly once. */
  function SortedKeys(ks: set<string>): (r: seq<string>)
    ensures Sorted(r)
    ensures forall k :: k in r <==> k in ks
    decreases ks
  {
    if ks == {} then []
    else
      MinimumExists(ks);
      MinimumUnique(ks);
      var m :| IsMinimum(m, ks);
      [m] + SortedKeys(ks - {m})
  }

  /** Two ascending sequences holding the same names are the same sequence. */
  lemma {:induction false} SortedUnique(a: seq<string>, b: seq<string>)
    requires Sorted(a) && Sorted(b)
    requires forall k :: k in a <==> k in b
    ensures a == b
    decreases |a|
  {
    if |a| > 0 {
      assert a[0] in a;
    }
    if |b| > 0 {
      assert b[0] in b;
    }
    if |a| > 0 && |b| > 0 {
      LessAsymmetric(a[0], b[0]);
      assert a[0] == b[0];
      assert a == [a[0]] + a[1..];
      assert b == [b[0]] + b[1..];
      LessIrreflexive(a[0]);
      forall k
        ensures k in a[1..] <==> k in b[1..]
      {
        if k in a[1..] {
          var i :| 1 <= i < |a| && a[i] == k;
          assert Less(a[0], a[i]);
          assert k in a && k != b[0];
          var j :| 0 <= j < |b| && b[j] == k;
          assert b[1..][j - 1] == k;
        }
        if k in b[1..] {
          var i :| 1 <= i < |b| && b[i] == k;
          assert Less(b[0], b[i]);
          assert k in b && k != a[0];
          var j :| 0 <= j < |a| && a[j] == k;
          assert a[1..][j - 1] == k;
        }
      }
      SortedUnique(a[1..], b[1..]);
    }
  }
}
