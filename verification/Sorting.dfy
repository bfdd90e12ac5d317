/** Stable sorting by a lexicographic key.

    Every `sort_by_key` and `sort_by` in the program orders values by a tuple of integers
    and strings. A key is that tuple flattened to a sequence of integers (a string
    contributes its character codes), compared lexicographically. */
module Sorting {

  type Key = seq<int>

  predicate Leq(a: Key, b: Key)
    decreases |a|
  {
    if a == [] then true
    else if b == [] then false
    else a[0] < b[0] || (a[0] == b[0] && Leq(a[1..], b[1..]))
  }

  lemma {:induction false} LeqTotal(a: Key, b: Key)
    ensures Leq(a, b) || Leq(b, a)
    ensures Leq(a, b) && Leq(b, a) ==> a == b
    decreases |a|
  {
    if a != [] && b != [] {
      LeqTotal(a[1..], b[1..]);
      assert a == [a[0]] + a[1..] && b == [b[0]] + b[1..];
    }
  }

  lemma {:induction false} LeqTrans(a: Key, b: Key, c: Key)
    requires Leq(a, b) && Leq(b, c)
    ensures Leq(a, c)
    decreases |a|
  {
    if a != [] && a[0] == b[0] == c[0] {
      LeqTrans(a[1..], b[1..], c[1..]);
    }
  }

  /** A character string as a key: code-point order. */
  function Codes(s: string): (k: Key)
    ensures |k| == |s|
  {
    seq(|s|, i requires 0 <= i < |s| => s[i] as int)
  }

  lemma CodesInjective(s: string, t: string)
    requires Codes(s) == Codes(t)
    ensures s == t
  {
    assert |s| == |t|;
    forall i | 0 <= i < |s|
      ensures s[i] == t[i]
    {
      assert Codes(s)[i] == Codes(t)[i];
    }
  }

  /** Dictionary order: `s` is a proper prefix of `t`, or has the smaller character where they first differ. */
  ghost predicate StringLess(s: string, t: string) {
    exists i: nat :: StringLessAt(s, t, i)
  }

  ghost predicate StringLessAt(s: string, t: string, i: nat) {
    && i <= |s| && i < |t| && s[..i] == t[..i]
    && (i == |s| || s[i] < t[i])
  }

  lemma {:induction false} CodesOrder(s: string, t: string)
    ensures s != t ==> (Leq(Codes(s), Codes(t)) <==> StringLess(s, t))
    decreases |s|
  {
    if s == [] || t == [] {
      if s == [] && t != [] { assert StringLessAt(s, t, 0); }
    } else {
      assert Codes(s)[1..] == Codes(s[1..]) && Codes(t)[1..] == Codes(t[1..]);
      assert s == [s[0]] + s[1..] && t == [t[0]] + t[1..];
      CodesOrder(s[1..], t[1..]);
      if s[0] < t[0] {
        assert StringLessAt(s, t, 0);
      } else if s[0] == t[0] {
        LessBehindHead(s, t);
      } else {
        forall i: nat
          ensures !StringLessAt(s, t, i)
        {
          assert i > 0 && i <= |s| && i < |t| ==> s[..i][0] == s[0] && t[..i][0] == t[0];
        }
      }
    }
  }

  lemma LessBehindHead(s: string, t: string)
    requires s != [] && t != [] && s[0] == t[0]
    ensures StringLess(s, t) <==> StringLess(s[1..], t[1..])
  {
    if StringLess(s, t) {
      var i: nat :| StringLessAt(s, t, i);
      assert i > 0;
      assert s[1..][..i - 1] == s[..i][1..] && t[1..][..i - 1] == t[..i][1..];
      assert StringLessAt(s[1..], t[1..], i - 1);
    }
    if StringLess(s[1..], t[1..]) {
      var i: nat :| StringLessAt(s[1..], t[1..], i);
      assert s[..i + 1] == [s[0]] + s[1..][..i] && t[..i + 1] == [t[0]] + t[1..][..i];
      assert StringLessAt(s, t, i + 1);
    }
  }

  ghost predicate Sorted<T>(s: seq<T>, key: T -> Key) {
    forall i, j :: 0 <= i < j < |s| ==> Leq(key(s[i]), key(s[j]))
  }

  /** Equal keys only on equal elements. */
  ghost predicate KeysIdentify<T>(s: seq<T>, key: T -> Key) {
    forall x, y :: x in s && y in s && key(x) == key(y) ==> x == y
  }

  /** No key occurs at two positions. */
  ghost predicate KeysDistinct<T>(s: seq<T>, key: T -> Key) {
    forall i, j :: 0 <= i < j < |s| ==> key(s[i]) != key(s[j])
  }

  function Insert<T>(x: T, s: seq<T>, key: T -> Key): seq<T> {
    if s == [] || Leq(key(x), key(s[0])) then [x] + s
    else [s[0]] + Insert(x, s[1..], key)
  }

  /** The stable sort: an element is placed before the equal-keyed elements that followed it. */
  function SortByKey<T>(s: seq<T>, key: T -> Key): seq<T> {
    if s == [] then [] else Insert(s[0], SortByKey(s[1..], key), key)
  }

  lemma {:induction false} InsertPermutes<T>(x: T, s: seq<T>, key: T -> Key)
    ensures multiset(Insert(x, s, key)) == multiset{x} + multiset(s)
  {
    if s != [] && !Leq(key(x), key(s[0])) {
      InsertPermutes(x, s[1..], key);
      assert s == [s[0]] + s[1..];
    }
  }

  lemma {:induction false} InsertSorts<T>(x: T, s: seq<T>, key: T -> Key)
    requires Sorted(s, key)
    ensures Sorted(Insert(x, s, key), key)
  {
    var r := Insert(x, s, key);
    if s == [] {
    } else if Leq(key(x), key(s[0])) {
      forall j | 0 <= j < |s|
        ensures Leq(key(x), key(s[j]))
      {
        if j > 0 { LeqTrans(key(x), key(s[0]), key(s[j])); }
      }
    } else {
      InsertSorts(x, s[1..], key);
      InsertPermutes(x, s[1..], key);
      LeqTotal(key(x), key(s[0]));
      var t := Insert(x, s[1..], key);
      forall j | 0 <= j < |t|
        ensures Leq(key(s[0]), key(t[j]))
      {
        assert t[j] in multiset(t);
        assert t[j] == x || t[j] in s[1..];
      }
    }
  }

  lemma {:induction false} SortPermutes<T>(s: seq<T>, key: T -> Key)
    ensures multiset(SortByKey(s, key)) == multiset(s)
    ensures |SortByKey(s, key)| == |s|
    ensures forall x :: x in SortByKey(s, key) <==> x in s
  {
    if s != [] {
      SortPermutes(s[1..], key);
      InsertPermutes(s[0], SortByKey(s[1..], key), key);
      assert s == [s[0]] + s[1..];
    }
    var r := SortByKey(s, key);
    assert |multiset(r)| == |r| && |multiset(s)| == |s|;
    forall x
      ensures x in r <==> x in s
    {
      assert x in r <==> x in multiset(r);
    }
  }

  lemma {:induction false} SortSorts<T>(s: seq<T>, key: T -> Key)
    ensures Sorted(SortByKey(s, key), key)
  {
    if s != [] {
      SortSorts(s[1..], key);
      InsertSorts(s[0], SortByKey(s[1..], key), key);
    }
  }

  lemma HeadIsLeast<T>(s: seq<T>, x: T, key: T -> Key)
    requires Sorted(s, key) && x in s
    ensures Leq(key(s[0]), key(x))
  {
    var i :| 0 <= i < |s| && s[i] == x;
    if i == 0 { LeqTotal(key(x), key(x)); }
  }

  lemma HeadsAgree<T>(a: seq<T>, b: seq<T>, key: T -> Key)
    requires Sorted(a, key) && Sorted(b, key)
    requires a != [] && multiset(a) == multiset(b)
    requires KeysIdentify(a, key)
    ensures b != [] && a[0] == b[0]
  {
    assert a[0] in multiset(b);
    assert b[0] in multiset(a);
    HeadIsLeast(b, a[0], key);
    HeadIsLeast(a, b[0], key);
    LeqTotal(key(a[0]), key(b[0]));
  }

  lemma TailKeeps<T>(s: seq<T>, key: T -> Key)
    requires s != []
    ensures Sorted(s, key) ==> Sorted(s[1..], key)
    ensures KeysIdentify(s, key) ==> KeysIdentify(s[1..], key)
  {
    assert forall x :: x in s[1..] ==> x in s;
  }

  /** A sorted arrangement of given elements is unique once keys identify elements. */
  lemma {:induction false} SortedUnique<T>(a: seq<T>, b: seq<T>, key: T -> Key)
    requires Sorted(a, key) && Sorted(b, key)
    requires multiset(a) == multiset(b)
    requires KeysIdentify(a, key)
    ensures a == b
  {
    if a == [] {
      assert |multiset(b)| == |b|;
    } else {
      HeadsAgree(a, b, key);
      assert a == [a[0]] + a[1..] && b == [a[0]] + b[1..];
      assert multiset(a[1..]) == multiset(a) - multiset{a[0]};
      assert multiset(b[1..]) == multiset(b) - multiset{a[0]};
      TailKeeps(a, key);
      TailKeeps(b, key);
      SortedUnique(a[1..], b[1..], key);
    }
  }

  /** Sorting forgets the order of its input. */
  lemma SortForgetsOrder<T>(a: seq<T>, b: seq<T>, key: T -> Key)
    requires multiset(a) == multiset(b)
    requires KeysIdentify(a, key)
    ensures SortByKey(a, key) == SortByKey(b, key)
  {
    var sa, sb := SortByKey(a, key), SortByKey(b, key);
    assert multiset(sa) == multiset(sb) && KeysIdentify(sa, key) by {
      SortPermutes(a, key);
      SortPermutes(b, key);
    }
    SortSorts(a, key);
    SortSorts(b, key);
    SortedUnique(sa, sb, key);
  }

  /** Sorting leaves a sorted sequence alone. */
  lemma SortKeepsSorted<T>(s: seq<T>, key: T -> Key)
    requires Sorted(s, key)
    requires KeysIdentify(s, key)
    ensures SortByKey(s, key) == s
  {
    SortPermutes(s, key);
    SortSorts(s, key);
    SortedUnique(s, SortByKey(s, key), key);
  }

  /** Two sorted sequences with distinct keys and the same elements are the same sequence. */
  lemma {:induction false} StrictUnique<T>(a: seq<T>, b: seq<T>, key: T -> Key)
    requires Sorted(a, key) && Sorted(b, key)
    requires KeysDistinct(a, key) && KeysDistinct(b, key)
    requires forall x :: x in a <==> x in b
    ensures a == b
  {
    assert b == [] || b[0] in a;
    if a != [] {
      assert a[0] in b;
      var i :| 0 <= i < |b| && b[i] == a[0];
      if i > 0 {
        var j :| 0 <= j < |a| && a[j] == b[0];
        assert Leq(key(b[0]), key(a[0]));
        if j > 0 { assert Leq(key(a[0]), key(b[0])); }
        LeqTotal(key(a[0]), key(b[0]));
        assert false;
      }
      forall x
        ensures x in a[1..] <==> x in b[1..]
      {
        if x in a[1..] {
          var k :| 0 <= k < |a| - 1 && a[1..][k] == x;
          assert a[k + 1] == x && x in b && key(x) != key(a[0]);
        }
        if x in b[1..] {
          var k :| 0 <= k < |b| - 1 && b[1..][k] == x;
          assert b[k + 1] == x && x in a && key(x) != key(b[0]);
        }
      }
      StrictUnique(a[1..], b[1..], key);
    }
  }

  lemma {:induction false} InsertKeepsDistinct<T>(x: T, s: seq<T>, key: T -> Key)
    requires KeysDistinct(s, key)
    requires forall y :: y in s ==> key(y) != key(x)
    ensures KeysDistinct(Insert(x, s, key), key)
  {
    if s != [] && !Leq(key(x), key(s[0])) {
      InsertKeepsDistinct(x, s[1..], key);
      InsertPermutes(x, s[1..], key);
      var t := Insert(x, s[1..], key);
      forall j | 0 <= j < |t|
        ensures key(s[0]) != key(t[j])
      {
        assert t[j] in multiset(t);
        if t[j] != x {
          assert t[j] in s[1..];
          var i :| 0 <= i < |s[1..]| && s[1..][i] == t[j];
          assert s[i + 1] == t[j];
        } else {
          assert s[0] in s;
        }
      }
    }
  }

  lemma {:induction false} SortKeepsDistinct<T>(s: seq<T>, key: T -> Key)
    requires KeysDistinct(s, key)
    ensures KeysDistinct(SortByKey(s, key), key)
  {
    if s != [] {
      SortKeepsDistinct(s[1..], key);
      SortPermutes(s[1..], key);
      var t := SortByKey(s[1..], key);
      forall y | y in t
        ensures key(y) != key(s[0])
      {
        assert y in multiset(t) && y in multiset(s[1..]);
        var i :| 0 <= i < |s[1..]| && s[1..][i] == y;
        assert s[i + 1] == y;
      }
      InsertKeepsDistinct(s[0], t, key);
    }
  }

  /** With distinct keys, sorting depends only on the set of elements. */
  lemma SortDependsOnElements<T>(a: seq<T>, b: seq<T>, key: T -> Key)
    requires KeysDistinct(a, key) && KeysDistinct(b, key)
    requires forall x :: x in a <==> x in b
    ensures SortByKey(a, key) == SortByKey(b, key)
  {
    SortPermutes(a, key);
    SortPermutes(b, key);
    SortSorts(a, key);
    SortSorts(b, key);
    SortKeepsDistinct(a, key);
    SortKeepsDistinct(b, key);
    StrictUnique(SortByKey(a, key), SortByKey(b, key), key);
  }
}
