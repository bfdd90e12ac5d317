/** Filtering sequences. */
module Lists {

  function Filter<T>(s: seq<T>, keep: T -> bool): (r: seq<T>)
    ensures forall x :: x in r ==> x in s && keep(x)
    ensures forall x :: x in s && keep(x) ==> x in r
    ensures |r| <= |s|
  {
    if s == [] then []
    else
      assert s == [s[0]] + s[1..];
      (if keep(s[0]) then [s[0]] else []) + Filter(s[1..], keep)
  }

  lemma {:induction false} FilterConcat<T>(s: seq<T>, t: seq<T>, keep: T -> bool)
    ensures Filter(s + t, keep) == Filter(s, keep) + Filter(t, keep)
  {
    if s == [] {
      assert s + t == t;
    } else {
      assert (s + t)[1..] == s[1..] + t;
      FilterConcat(s[1..], t, keep);
    }
  }

  lemma {:induction false} FilterAll<T>(s: seq<T>, keep: T -> bool)
    requires forall x :: x in s ==> keep(x)
    ensures Filter(s, keep) == s
  {
    if s != [] {
      FilterAll(s[1..], keep);
      assert s == [s[0]] + s[1..];
    }
  }

  lemma {:induction false} FilterNone<T>(s: seq<T>, keep: T -> bool)
    requires forall x :: x in s ==> !keep(x)
    ensures Filter(s, keep) == []
  {
    if s != [] {
      FilterNone(s[1..], keep);
    }
  }
}
