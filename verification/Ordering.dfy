/** Lexicographic order on strings, and sorting by a string key. */
module Ordering {

  predicate Less(a: string, b: string) {
    b != [] && (a == [] || a[0] < b[0] || (a[0] == b[0] && Less(a[1..], b[1..])))
  }

  /** a and b agree up to i; there a ends, or has the smaller character. */
  predicate DiffersAt(a: string, b: string, i: nat) {
    i <= |a| && i < |b| && a[..i] == b[..i] && (i == |a| || a[i] < b[i])
  }

  /** The order is decided by the first difference. */
  lemma {:induction false} LessAtFirstDifference(a: string, b: string)
    ensures Less(a, b) <==> exists i: nat :: DiffersAt(a, b, i)
  {
    if b != [] && a != [] && a[0] == b[0] {
      LessAtFirstDifference(a[1..], b[1..]);
      if i: nat :| DiffersAt(a[1..], b[1..], i) {
        assert a[..i + 1] == [a[0]] + a[1..][..i] && b[..i + 1] == [b[0]] + b[1..][..i];
        assert DiffersAt(a, b, i + 1);
      }
      if i: nat :| DiffersAt(a, b, i) {
        assert a[1..][..i - 1] == a[..i][1..] && b[1..][..i - 1] == b[..i][1..];
        assert DiffersAt(a[1..], b[1..], i - 1);
      }
    } else if b != [] && (a == [] || a[0] < b[0]) {
      assert DiffersAt(a, b, 0);
    } else {
      forall i: nat ensures !DiffersAt(a, b, i) {
        if 0 < i <= |a| && i < |b| {
          assert a[..i][0] == a[0] && b[..i][0] == b[0];
        }
      }
    }
  }

  lemma {:induction false} LessIsAsymmetric(a: string, b: string)
    ensures !(Less(a, b) && Less(b, a))
  {
    if a != [] && b != [] {
      LessIsAsymmetric(a[1..], b[1..]);
    }
  }

  lemma {:induction false} LessIsTransitive(a: string, b: string, c: string)
    requires Less(a, b) && Less(b, c)
    ensures Less(a, c)
  {
    if a != [] && a[0] == b[0] == c[0] {
      LessIsTransitive(a[1..], b[1..], c[1..]);
    }
  }

  lemma {:induction false} LessIsConnected(a: string, b: string)
    ensures a == b || Less(a, b) || Less(b, a)
  {
    if a != [] && b != [] && a[0] == b[0] {
      LessIsConnected(a[1..], b[1..]);
      assert a == [a[0]] + a[1..] && b == [b[0]] + b[1..];
    }
  }

  /** "Not after" is transitive too. */
  lemma NotLessIsTransitive(a: string, b: string, c: string)
    ensures !Less(b, a) && !Less(c, b) ==> !Less(c, a)
  {
    if Less(c, a) {
      LessIsConnected(a, b);
      if Less(a, b) {
        LessIsTransitive(c, a, b);
      }
    }
  }

  /** No entry comes before a smaller one. */
  predicate Sorted<T>(key: T -> string, s: seq<T>) {
    forall i, j :: 0 <= i < j < |s| ==> !Less(key(s[j]), key(s[i]))
  }

  /** The keys of s are pairwise different. */
  ghost predicate DistinctKeys<T>(key: T -> string, s: seq<T>) {
    forall i, j :: 0 <= i < j < |s| ==> key(s[i]) != key(s[j])
  }

  function Insert<T>(key: T -> string, x: T, s: seq<T>): seq<T> {
    if s == [] then [x]
    else if Less(key(s[0]), key(x)) then [s[0]] + Insert(key, x, s[1..])
    else [x] + s
  }

  function Sort<T>(key: T -> string, s: seq<T>): seq<T> {
    if s == [] then [] else Insert(key, s[0], Sort(key, s[1..]))
  }

  lemma {:induction false} InsertEntries<T>(key: T -> string, x: T, s: seq<T>)
    ensures multiset(Insert(key, x, s)) == multiset(s) + multiset{x}
  {
    if s != [] {
      InsertEntries(key, x, s[1..]);
      assert s == [s[0]] + s[1..];
    }
  }

  /** An entry of an insertion is the new one or an old one. */
  lemma InsertEntryAt<T>(key: T -> string, x: T, s: seq<T>, j: nat) returns (k: nat)
    requires j < |Insert(key, x, s)|
    ensures Insert(key, x, s)[j] == x || (k < |s| && s[k] == Insert(key, x, s)[j])
  {
    k := 0;
    var y := Insert(key, x, s)[j];
    InsertEntries(key, x, s);
    assert y in multiset(Insert(key, x, s));
    if y != x {
      assert y in multiset(s);
      k :| 0 <= k < |s| && s[k] == y;
    }
  }

  lemma {:induction false} InsertKeepsDistinct<T>(key: T -> string, x: T, s: seq<T>)
    requires DistinctKeys(key, s) && forall i :: 0 <= i < |s| ==> key(s[i]) != key(x)
    ensures DistinctKeys(key, Insert(key, x, s))
  {
    if s != [] {
      InsertKeepsDistinct(key, x, s[1..]);
      var t := Insert(key, x, s[1..]);
      forall j | 0 <= j < |t| ensures key(t[j]) != key(s[0]) {
        var k := InsertEntryAt(key, x, s[1..], j);
      }
    }
  }

  lemma {:induction false} InsertSorts<T>(key: T -> string, x: T, s: seq<T>)
    requires Sorted(key, s)
    ensures Sorted(key, Insert(key, x, s))
  {
    if s != [] {
      if Less(key(s[0]), key(x)) {
        var t := Insert(key, x, s[1..]);
        InsertSorts(key, x, s[1..]);
        LessIsAsymmetric(key(s[0]), key(x));
        forall j | 0 <= j < |t| ensures !Less(key(t[j]), key(s[0])) {
          var k := InsertEntryAt(key, x, s[1..], j);
        }
      } else {
        forall j | 0 <= j < |s| ensures !Less(key(s[j]), key(x)) {
          NotLessIsTransitive(key(x), key(s[0]), key(s[j]));
        }
      }
    }
  }

  /** Sorting rearranges: same entries, in order. */
  lemma {:induction false} SortSorts<T>(key: T -> string, s: seq<T>)
    ensures Sorted(key, Sort(key, s))
    ensures multiset(Sort(key, s)) == multiset(s)
    ensures DistinctKeys(key, s) ==> DistinctKeys(key, Sort(key, s))
  {
    if s != [] {
      var r := Sort(key, s[1..]);
      SortSorts(key, s[1..]);
      InsertSorts(key, s[0], r);
      InsertEntries(key, s[0], r);
      assert s == [s[0]] + s[1..];
      if DistinctKeys(key, s) {
        forall i | 0 <= i < |r| ensures key(r[i]) != key(s[0]) {
          assert r[i] in multiset(r);
          var k :| 0 <= k < |s[1..]| && s[1..][k] == r[i];
          assert s[k + 1] == r[i];
        }
        InsertKeepsDistinct(key, s[0], r);
      }
    }
  }

  lemma MultisetIndex<T>(a: seq<T>, b: seq<T>) returns (i: nat)
    requires multiset(a) == multiset(b) && a != []
    ensures i < |b| && b[i] == a[0]
  {
    assert a[0] in multiset(a);
    assert a[0] in multiset(b);
    i :| 0 <= i < |b| && b[i] == a[0];
  }

  /** The smallest entry comes first in either arrangement. */
  lemma SortedHead<T>(key: T -> string, a: seq<T>, b: seq<T>)
    requires Sorted(key, a) && Sorted(key, b) && DistinctKeys(key, a)
    requires multiset(a) == multiset(b) && a != []
    ensures b != [] && a[0] == b[0]
  {
    var i := MultisetIndex(a, b);
    var j := MultisetIndex(b, a);
    LessIsConnected(key(a[0]), key(b[0]));
    LessIsAsymmetric(key(a[0]), key(a[0]));
    assert !Less(key(b[0]), key(a[0]));
    assert !Less(key(a[0]), key(b[0]));
    assert key(a[j]) == key(a[0]);
  }

  lemma SameTails<T>(a: seq<T>, b: seq<T>)
    requires a != [] && b != [] && a[0] == b[0] && multiset(a) == multiset(b)
    ensures multiset(a[1..]) == multiset(b[1..])
  {
    assert a == [a[0]] + a[1..] && b == [b[0]] + b[1..];
    assert multiset(a[1..]) == multiset(a) - multiset{a[0]};
    assert multiset(b[1..]) == multiset(b) - multiset{b[0]};
  }

  lemma TailSorted<T>(key: T -> string, a: seq<T>)
    requires a != [] && Sorted(key, a) && DistinctKeys(key, a)
    ensures Sorted(key, a[1..]) && DistinctKeys(key, a[1..])
  {
  }

  /** With distinct keys there is only one sorted arrangement of the same entries. */
  lemma {:induction false} SortedIsUnique<T>(key: T -> string, a: seq<T>, b: seq<T>)
    requires Sorted(key, a) && Sorted(key, b)
    requires DistinctKeys(key, a) && DistinctKeys(key, b)
    requires multiset(a) == multiset(b)
    ensures a == b
  {
    if a == [] {
      assert |multiset(b)| == 0;
    } else {
      SortedHead(key, a, b);
      SameTails(a, b);
      TailSorted(key, a);
      TailSorted(key, b);
      SortedIsUnique(key, a[1..], b[1..]);
      assert a == [a[0]] + a[1..] && b == [b[0]] + b[1..];
    }
  }

  /** Sorting any two arrangements of the same distinct-keyed entries gives one
      result. */
  lemma SortIgnoresOrder<T>(key: T -> string, a: seq<T>, b: seq<T>)
    requires DistinctKeys(key, a) && DistinctKeys(key, b)
    requires multiset(a) == multiset(b)
    ensures Sort(key, a) == Sort(key, b)
  {
    SortSorts(key, a);
    SortSorts(key, b);
    SortedIsUnique(key, Sort(key, a), Sort(key, b));
  }
}
