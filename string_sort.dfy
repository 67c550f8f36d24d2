/** `Array.prototype.sort()` with no comparator on an array of strings: the
    strings are put in ascending order of their characters (code points), compared
    position by position, a proper prefix coming first. The order is total, so
    the sorted permutation of a sequence is unique; `Sort` is one way to build it. */
module StringSort {

  /** `a <= b` in the order the default comparator uses. */
  predicate Below(a: string, b: string)
    decreases |a|
  {
    if a == [] then true
    else if b == [] then false
    else if a[0] != b[0] then a[0] < b[0]
    else Below(a[1..], b[1..])
  }

  lemma {:induction false} BelowAntisymmetric(a: string, b: string)
    requires Below(a, b) && Below(b, a)
    ensures a == b
    decreases |a|
  {
    if a != [] && b != [] {
      BelowAntisymmetric(a[1..], b[1..]);
      assert a == [a[0]] + a[1..] && b == [b[0]] + b[1..];
    }
  }

  lemma {:induction false} BelowTransitive(a: string, b: string, c: string)
    requires Below(a, b) && Below(b, c)
    ensures Below(a, c)
    decreases |a|
  {
    if a != [] && b != [] && c != [] && a[0] == b[0] && b[0] == c[0] {
      BelowTransitive(a[1..], b[1..], c[1..]);
    }
  }

  lemma {:induction false} BelowTotal(a: string, b: string)
    ensures Below(a, b) || Below(b, a)
    decreases |a|
  {
    if a != [] && b != [] && a[0] == b[0] {
      BelowTotal(a[1..], b[1..]);
    }
  }

  /** Ascending, ties allowed. */
  predicate Sorted(s: seq<string>)
  {
    forall i, j :: 0 <= i < j < |s| ==> Below(s[i], s[j])
  }

  /** No string occurs twice. */
  predicate NoDuplicates(s: seq<string>)
  {
    forall i, j :: 0 <= i < j < |s| ==> s[i] != s[j]
  }

  lemma {:induction false} BelowReflexive(a: string)
    ensures Below(a, a)
    decreases |a|
  {
    if a != [] {
      BelowReflexive(a[1..]);
    }
  }

  /** Inserts `t` before the first element it is below. */
  function Insert(s: seq<string>, t: string): (r: seq<string>)
    ensures multiset(r) == multiset(s) + multiset{t}
    decreases |s|
  {
    if s == [] then [t]
    else if Below(t, s[0]) then [t] + s
    else
      assert s == [s[0]] + s[1..];
      [s[0]] + Insert(s[1..], t)
  }

  /** Inserting into a sorted sequence keeps it sorted. */
  lemma {:induction false} InsertSorted(s: seq<string>, t: string)
    requires Sorted(s)
    ensures Sorted(Insert(s, t))
    decreases |s|
  {
    if s == [] {
    } else if Below(t, s[0]) {
      forall j | 0 < j < |s| ensures Below(t, s[j]) {
        BelowTransitive(t, s[0], s[j]);
      }
    } else {
      var tail := Insert(s[1..], t);
      InsertSorted(s[1..], t);
      BelowTotal(t, s[0]);
      forall j | 0 <= j < |tail| ensures Below(s[0], tail[j]) {
        assert tail[j] in multiset(tail);
        if tail[j] != t {
          assert tail[j] in multiset(s[1..]);
          var k :| 0 <= k < |s[1..]| && s[1..][k] == tail[j];
          assert s[k + 1] == tail[j];
        }
      }
    }
  }

  /** Insertion sort: the sorted permutation of `s`. */
  function Sort(s: seq<string>): (r: seq<string>)
    ensures multiset(r) == multiset(s)
    ensures Sorted(r)
    decreases |s|
  {
    if s == [] then []
    else
      assert s == s[..|s| - 1] + [s[|s| - 1]];
      InsertSorted(Sort(s[..|s| - 1]), s[|s| - 1]);
      Insert(Sort(s[..|s| - 1]), s[|s| - 1])
  }

  lemma HeadMultiset(a: seq<string>)
    requires a != []
    ensures multiset(a[1..]) == multiset(a) - multiset{a[0]}
  {
    assert a == [a[0]] + a[1..];
  }

  /** Two sorted sequences with the same elements start with the same string. */
  lemma SortedHeadsEqual(a: seq<string>, b: seq<string>)
    requires a != [] && b != [] && Sorted(a) && Sorted(b) && multiset(a) == multiset(b)
    ensures a[0] == b[0]
  {
    assert a[0] in multiset(b);
    var j :| 0 <= j < |b| && b[j] == a[0];
    assert b[0] in multiset(a);
    var i :| 0 <= i < |a| && a[i] == b[0];
    BelowReflexive(a[0]);
    assert Below(b[0], a[0]) by { if j > 0 { assert Below(b[0], b[j]); } }
    assert Below(a[0], b[0]) by { if i > 0 { assert Below(a[0], a[i]); } }
    BelowAntisymmetric(a[0], b[0]);
  }

  /** Two sorted sequences with the same elements are the same sequence, so
      any correct sort of a list of strings gives `Sort`'s answer. */
  lemma {:induction false} SortedUnique(a: seq<string>, b: seq<string>)
    requires Sorted(a) && Sorted(b) && multiset(a) == multiset(b)
    ensures a == b
    decreases |a|
  {
    assert |b| == |a| by { assert |multiset(a)| == |multiset(b)|; }
    if a != [] {
      SortedHeadsEqual(a, b);
      HeadMultiset(a);
      HeadMultiset(b);
      SortedUnique(a[1..], b[1..]);
      assert a == [a[0]] + a[1..] && b == [b[0]] + b[1..];
    }
  }

  /** Sorting a sequence that is already sorted leaves it as it is. */
  lemma SortOfSorted(s: seq<string>)
    requires Sorted(s)
    ensures Sort(s) == s
  {
    SortedUnique(Sort(s), s);
  }

  /** Inserting a string that is absent keeps a sorted, duplicate-free sequence so. */
  lemma {:induction false} InsertKeepsNoDuplicates(s: seq<string>, t: string)
    requires Sorted(s) && NoDuplicates(s) && t !in s
    ensures NoDuplicates(Insert(s, t))
    decreases |s|
  {
    if s != [] && !Below(t, s[0]) {
      InsertKeepsNoDuplicates(s[1..], t);
      var r := Insert(s, t);
      var tail := Insert(s[1..], t);
      assert r == [s[0]] + tail;
      forall j | 0 <= j < |tail| ensures tail[j] != s[0] {
        assert tail[j] in multiset(tail);
        if tail[j] != t {
          assert tail[j] in multiset(s[1..]);
          var k :| 0 <= k < |s[1..]| && s[1..][k] == tail[j];
          assert s[k + 1] == tail[j];
        }
      }
    }
  }
}
