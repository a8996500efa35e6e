/** Shared wrappers and sequence helpers used by every other module of the forum model. */
module Util {

  datatype Option<+T> = None | Some(value: T)

  datatype Result<+T, +E> = Ok(value: T) | Err(error: E)

  /** A decimal digit, as `isdigit` accepts it for ASCII input. */
  predicate IsDigit(c: char) { '0' <= c <= '9' }

  predicate AllDigits(s: string) { forall i :: 0 <= i < |s| ==> IsDigit(s[i]) }

  function DigitValue(c: char): (d: nat)
    requires IsDigit(c)
    ensures d < 10
  {
    (c as int) - ('0' as int)
  }

  function DigitChar(d: nat): (c: char)
    requires d < 10
    ensures IsDigit(c) && DigitValue(c) == d
  {
    (('0' as int) + d) as char
  }

  /** The decimal text of a natural number, as JavaScript template literals and Python `str` write it. */
  function NatToString(n: nat): (s: string)
    ensures |s| > 0 && AllDigits(s)
    ensures n >= 10 ==> s[0] != '0'
    decreases n
  {
    if n < 10 then [DigitChar(n)] else NatToString(n / 10) + [DigitChar(n % 10)]
  }

  function IntToString(i: int): string
  {
    if i < 0 then "-" + NatToString(-i) else NatToString(i)
  }

  /** The value of a run of decimal digits, most significant first. */
  function DigitsValue(s: string): nat
    requires AllDigits(s)
  {
    if s == [] then 0 else DigitsValue(s[..|s| - 1]) * 10 + DigitValue(s[|s| - 1])
  }

  lemma {:induction false} DigitsValueOfNatToString(n: nat)
    ensures DigitsValue(NatToString(n)) == n
    decreases n
  {
    if n >= 10 {
      var s := NatToString(n / 10);
      var t := s + [DigitChar(n % 10)];
      assert t[..|t| - 1] == s;
      DigitsValueOfNatToString(n / 10);
    }
  }

  /** The rows of `s` that satisfy `p`, in their original order (a SQL DELETE keeps the others). */
  function Filter<T(!new)>(s: seq<T>, p: T -> bool): (r: seq<T>)
    ensures |r| <= |s|
    ensures forall x :: x in r <==> x in s && p(x)
  {
    if s == [] then []
    else if p(s[0]) then [s[0]] + Filter(s[1..], p)
    else Filter(s[1..], p)
  }

  lemma {:induction false} FilterAppend<T(!new)>(s: seq<T>, t: seq<T>, p: T -> bool)
    ensures Filter(s + t, p) == Filter(s, p) + Filter(t, p)
  {
    if s != [] {
      assert (s + t)[1..] == s[1..] + t;
      FilterAppend(s[1..], t, p);
    } else {
      assert s + t == t;
    }
  }

  /** `s` with `f` applied to every row (a SQL UPDATE over the rows its WHERE selects). */
  function MapSeq<T>(s: seq<T>, f: T -> T): (r: seq<T>)
    ensures |r| == |s|
    ensures forall i :: 0 <= i < |s| ==> r[i] == f(s[i])
  {
    seq(|s|, i requires 0 <= i < |s| => f(s[i]))
  }

  /** The first row of `s` that satisfies `p` (what `fetchone` returns for a scan in rowid order). */
  function First<T(!new)>(s: seq<T>, p: T -> bool): (r: Option<T>)
    ensures r.Some? ==> r.value in s && p(r.value)
    ensures r.None? <==> forall x :: x in s ==> !p(x)
  {
    if s == [] then None
    else if p(s[0]) then Some(s[0])
    else First(s[1..], p)
  }

  lemma {:induction false} FirstAppend<T(!new)>(s: seq<T>, x: T, p: T -> bool)
    ensures First(s + [x], p) == if First(s, p).Some? then First(s, p) else if p(x) then Some(x) else None
  {
    if s != [] {
      assert (s + [x])[1..] == s[1..] + [x];
      FirstAppend(s[1..], x, p);
    }
  }

  /** Keeping the rows that all satisfy `p` keeps the sequence. */
  lemma {:induction false} FilterAll<T(!new)>(s: seq<T>, p: T -> bool)
    requires forall x :: x in s ==> p(x)
    ensures Filter(s, p) == s
  {
    if s != [] {
      FilterAll(s[1..], p);
    }
  }

  /** Filtering out rows that `q` never selects does not move `q`'s first match. */
  lemma {:induction false} FirstFilter<T(!new)>(s: seq<T>, keep: T -> bool, q: T -> bool)
    requires forall x :: q(x) ==> keep(x)
    ensures First(Filter(s, keep), q) == First(s, q)
  {
    if s != [] {
      FirstFilter(s[1..], keep, q);
    }
  }

  lemma MapSeqCons<T>(s: seq<T>, f: T -> T)
    requires s != []
    ensures MapSeq(s, f) == [f(s[0])] + MapSeq(s[1..], f)
  {
  }

  /** Rewriting rows with `f`, which never changes whether `q` selects a row, rewrites `q`'s first match. */
  lemma {:induction false} FirstMapSeq<T(!new)>(s: seq<T>, f: T -> T, q: T -> bool)
    requires forall x :: q(f(x)) == q(x)
    ensures First(MapSeq(s, f), q) == if First(s, q).Some? then Some(f(First(s, q).value)) else None
  {
    if s != [] {
      MapSeqCons(s, f);
      FirstMapSeq(s[1..], f, q);
    }
  }

  /** Filtering twice with one predicate is filtering once. */
  lemma FilterTwice<T(!new)>(s: seq<T>, p: T -> bool)
    ensures Filter(Filter(s, p), p) == Filter(s, p)
  {
    FilterAll(Filter(s, p), p);
  }

  /** Keeping none of the rows leaves nothing. */
  lemma {:induction false} FilterNone<T(!new)>(s: seq<T>, p: T -> bool)
    requires forall x :: x in s ==> !p(x)
    ensures Filter(s, p) == []
  {
    if s != [] {
      FilterNone(s[1..], p);
    }
  }

  /** Taking one more element of a sequence appends it. */
  lemma TakeSnoc<T>(s: seq<T>, i: nat)
    requires i < |s|
    ensures s[..i + 1] == s[..i] + [s[i]]
  {
  }

  /** Two sequences with one multiset hold the same elements. */
  lemma SameMembers<T>(a: seq<T>, b: seq<T>)
    requires multiset(a) == multiset(b)
    ensures forall x :: x in a <==> x in b
  {
    forall x
      ensures x in a <==> x in b
    {
      assert x in a <==> x in multiset(a);
      assert x in b <==> x in multiset(b);
    }
  }

  /** Two sequences with the same elements are both empty or both not. */
  lemma SameMembersEmpty<T>(a: seq<T>, b: seq<T>)
    requires forall x :: x in a <==> x in b
    ensures |a| > 0 <==> b != []
  {
    if b != [] {
      assert b[0] in a;
    }
    if a != [] {
      assert a[0] in b;
    }
  }

  /** Taking one more element of a sequence appended to `a` appends that element. */
  lemma AppendTakeSnoc<T>(a: seq<T>, s: seq<T>, i: nat)
    requires i < |s|
    ensures a + s[..i + 1] == a + s[..i] + [s[i]]
  {
    assert s[..i + 1] == s[..i] + [s[i]];
  }

  /** Every element of `s` stands in `before` to every later one. */
  predicate Pairwise<T>(s: seq<T>, before: (T, T) -> bool)
  {
    forall i, j :: 0 <= i < j < |s| ==> before(s[i], s[j])
  }

  /** Dropping rows keeps the order of the rows that remain. */
  lemma {:induction false} FilterPairwise<T(!new)>(s: seq<T>, p: T -> bool, before: (T, T) -> bool)
    requires Pairwise(s, before)
    ensures Pairwise(Filter(s, p), before)
  {
    if s != [] {
      assert Pairwise(s[1..], before) by {
        forall i, j | 0 <= i < j < |s[1..]|
          ensures before(s[1..][i], s[1..][j])
        {
          assert s[1..][i] == s[i + 1] && s[1..][j] == s[j + 1];
        }
      }
      FilterPairwise(s[1..], p, before);
      if p(s[0]) {
        var r := Filter(s[1..], p);
        forall x | x in r
          ensures before(s[0], x)
        {
          var j :| 1 <= j < |s| && s[j] == x;
        }
      }
    }
  }
}
