/** The order `sort.Strings` puts keys in (cmd/awsenvsec/main.go, line 176): lexicographic
    comparison, character by character. Go compares the UTF-8 bytes of its strings; UTF-8
    keeps the order of code points, so comparing characters gives the same answer. */
module ByteOrder {

  /** `a` comes strictly before `b`: a proper prefix, or smaller at the first difference. */
  predicate Less(a: string, b: string)
    decreases |a|
  {
    if a == [] then b != []
    else b != [] && (a[0] < b[0] || (a[0] == b[0] && Less(a[1..], b[1..])))
  }

  predicate LessEq(a: string, b: string)
  {
    a == b || Less(a, b)
  }

  lemma {:induction false} LessIrreflexive(a: string)
    ensures !Less(a, a)
  {
    if a != [] {
      LessIrreflexive(a[1..]);
    }
  }

  lemma {:induction false} LessTransitive(a: string, b: string, c: string)
    requires Less(a, b) && Less(b, c)
    ensures Less(a, c)
  {
    if a != [] && a[0] == b[0] && b[0] == c[0] {
      LessTransitive(a[1..], b[1..], c[1..]);
    }
  }

  lemma {:induction false} LessTotal(a: string, b: string)
    requires a != b
    ensures Less(a, b) || Less(b, a)
  {
    if a != [] && b != [] && a[0] == b[0] {
      assert a == [a[0]] + a[1..] && b == [b[0]] + b[1..];
      LessTotal(a[1..], b[1..]);
    }
  }

  lemma LessAsymmetric(a: string, b: string)
    requires Less(a, b)
    ensures !Less(b, a)
  {
    if Less(b, a) {
      LessTransitive(a, b, a);
      LessIrreflexive(a);
    }
  }

  lemma LessEqTransitive(a: string, b: string, c: string)
    requires LessEq(a, b) && LessEq(b, c)
    ensures LessEq(a, c)
  {
    if a != b && b != c {
      LessTransitive(a, b, c);
    }
  }

  /** Non-decreasing order, as `sort.Strings` leaves a slice. */
  predicate Sorted(s: seq<string>)
  {
    forall i, j :: 0 <= i < j < |s| ==> LessEq(s[i], s[j])
  }

  /** Strictly ascending order: sorted and free of repetitions. */
  predicate StrictlySorted(s: seq<string>)
  {
    forall i, j :: 0 <= i < j < |s| ==> Less(s[i], s[j])
  }

  /** `ks` lists the strings of `keys`, each once, in ascending order. */
  ghost predicate IsSortedEnumeration(ks: seq<string>, keys: set<string>)
  {
    StrictlySorted(ks) && forall k :: k in ks <==> k in keys
  }

  /** A set has at most one ascending enumeration, so sorting the keys of a map gives the
      same sequence whatever order the keys were gathered in. */
  lemma {:induction false} SortedEnumerationUnique(a: seq<string>, b: seq<string>, keys: set<string>)
    requires IsSortedEnumeration(a, keys) && IsSortedEnumeration(b, keys)
    ensures a == b
    decreases |a|
  {
    if a == [] {
      assert forall k :: k in multiset(b) ==> k in b && k in keys;
      assert multiset(b) == multiset{};
      assert |b| == |multiset(b)|;
    } else {
      assert a[0] in keys;
      assert b != [] by { assert a[0] in b; }
      if a[0] != b[0] {
        var i :| 0 <= i < |b| && b[i] == a[0];
        assert b[0] in keys;
        var j :| 0 <= j < |a| && a[j] == b[0];
        assert i > 0 && j > 0;
        assert Less(b[0], a[0]) && Less(a[0], b[0]);
        LessAsymmetric(a[0], b[0]);
      }
      var rest := keys - {a[0]};
      forall k ensures k in a[1..] <==> k in rest {
        if k in a[1..] {
          var i :| 1 <= i < |a| && a[i] == k;
          LessIrreflexive(a[0]);
        }
        if k in rest {
          var i :| 0 <= i < |a| && a[i] == k;
          assert i != 0;
          assert a[1..][i - 1] == k;
        }
      }
      forall k ensures k in b[1..] <==> k in rest {
        if k in b[1..] {
          var i :| 1 <= i < |b| && b[i] == k;
          LessIrreflexive(b[0]);
        }
        if k in rest {
          var i :| 0 <= i < |b| && b[i] == k;
          assert i != 0;
          assert b[1..][i - 1] == k;
        }
      }
      SortedEnumerationUnique(a[1..], b[1..], rest);
    }
  }

  /** A sorted sequence in which no string occurs twice is strictly sorted. */
  lemma SortedDistinctIsStrict(s: seq<string>)
    requires Sorted(s)
    requires forall i, j :: 0 <= i < j < |s| ==> s[i] != s[j]
    ensures StrictlySorted(s)
  {
  }
}
