/** Vocabulary shared by every page and provider: optional values, the outcome of an awaited
    remote call, notifications, and the array and string operations the components use
    (`filter`, `toLowerCase`, `includes`, `startsWith`). */
module Common {

  datatype Option<T> = None | Some(value: T)
  {
    function GetOr(default: T): T {
      match this
      case Some(v) => v
      case None => default
    }
  }

  /** A JavaScript `Error`; a missing message is the empty string. */
  datatype Failure = Failure(message: string)

  /** How an awaited call ended: it resolved with a value, or it threw / rejected. */
  datatype Call<T> = Returned(value: T) | Threw(failure: Failure)

  /** A notification shown by `toast(...)`: title, description and whether it is destructive. */
  datatype Toast = Toast(title: string, description: string, destructive: bool)

  /** `error.message || fallback`: an empty message is falsy and falls back. */
  function MessageOr(f: Failure, fallback: string): (m: string)
    ensures f.message != "" ==> m == f.message
    ensures f.message == "" ==> m == fallback
    ensures m == "" ==> fallback == ""
  {
    if f.message != "" then f.message else fallback
  }

  /** `x || ''` for an optional string column. */
  function OrEmpty(s: Option<string>): (r: string)
    ensures s.Some? ==> r == s.value
    ensures s.None? ==> r == ""
  {
    s.GetOr("")
  }

  // ---------------------------------------------------------------------------
  // Array.prototype.filter and order-preserving sub-lists

  /** `sub` is `s` with some elements removed and the rest in their original order. */
  predicate IsSubsequence<T(==)>(sub: seq<T>, s: seq<T>)
    decreases |s|
  {
    sub == [] ||
    (s != [] && ((sub[0] == s[0] && IsSubsequence(sub[1..], s[1..])) || IsSubsequence(sub, s[1..])))
  }

  /** `s.filter(p)`. */
  function Filter<T(==,!new)>(s: seq<T>, p: T -> bool): (r: seq<T>)
    ensures |r| <= |s|
    ensures forall x :: x in r <==> x in s && p(x)
  {
    if s == [] then []
    else if p(s[0]) then [s[0]] + Filter(s[1..], p)
    else Filter(s[1..], p)
  }

  /** `s.filter(p).length`. */
  function Count<T(==,!new)>(s: seq<T>, p: T -> bool): (n: nat)
    ensures n <= |s|
    ensures n == |PassingFrom(s, p, 0)|
  {
    CountFrom(s, p, 0);
    assert s[0..] == s;
    |Filter(s, p)|
  }

  /** The positions from `k` on whose element passes `p`. */
  function PassingFrom<T>(s: seq<T>, p: T -> bool, k: nat): set<nat> {
    set i: nat | k <= i < |s| && p(s[i])
  }

  /** Filtering the suffix from `k` keeps one element per passing position. */
  lemma {:induction false} CountFrom<T(!new)>(s: seq<T>, p: T -> bool, k: nat)
    requires k <= |s|
    ensures |Filter(s[k..], p)| == |PassingFrom(s, p, k)|
    decreases |s| - k
  {
    if k == |s| {
      assert PassingFrom(s, p, k) == {};
    } else {
      CountFrom(s, p, k + 1);
      assert s[k..][1..] == s[k + 1..];
      if p(s[k]) {
        assert PassingFrom(s, p, k) == {k} + PassingFrom(s, p, k + 1);
      } else {
        assert PassingFrom(s, p, k) == PassingFrom(s, p, k + 1);
      }
    }
  }

  /** Every element's multiplicity after filtering, for all elements at once. */
  lemma FilterMultiplicities<T(!new)>(s: seq<T>, p: T -> bool)
    ensures forall x :: multiset(Filter(s, p))[x] == if p(x) then multiset(s)[x] else 0
  {
    forall x ensures multiset(Filter(s, p))[x] == if p(x) then multiset(s)[x] else 0 {
      FilterMultiplicity(s, p, x);
    }
  }

  /** The filtered list is an order-preserving sub-list of the input. */
  lemma {:induction false} FilterIsSubsequence<T(!new)>(s: seq<T>, p: T -> bool)
    ensures IsSubsequence(Filter(s, p), s)
  {
    if s != [] {
      FilterIsSubsequence(s[1..], p);
      var r := Filter(s, p);
      if p(s[0]) {
        assert r[0] == s[0] && r[1..] == Filter(s[1..], p);
      } else {
        assert r == Filter(s[1..], p);
      }
    }
  }

  /** Each value occurs in the result exactly as often as in the input when it passes, and
      not at all otherwise; with `FilterIsSubsequence` this pins the result down. */
  lemma {:induction false} FilterMultiplicity<T(!new)>(s: seq<T>, p: T -> bool, x: T)
    ensures multiset(Filter(s, p))[x] == if p(x) then multiset(s)[x] else 0
  {
    if s != [] {
      FilterMultiplicity(s[1..], p, x);
      assert s == [s[0]] + s[1..];
      assert multiset(s) == multiset([s[0]]) + multiset(s[1..]);
      if p(s[0]) {
        assert multiset(Filter(s, p)) == multiset([s[0]]) + multiset(Filter(s[1..], p));
      }
    }
  }

  /** A predicate that passes every element keeps the whole list. */
  lemma {:induction false} FilterKeepsAll<T(!new)>(s: seq<T>, p: T -> bool)
    requires forall x :: x in s ==> p(x)
    ensures Filter(s, p) == s
  {
    if s != [] {
      FilterKeepsAll(s[1..], p);
    }
  }

  /** The result has the input's length exactly when every element passes. */
  lemma {:induction false} FilterFullIffAllPass<T(!new)>(s: seq<T>, p: T -> bool)
    ensures |Filter(s, p)| == |s| <==> forall x :: x in s ==> p(x)
  {
    if s != [] {
      FilterFullIffAllPass(s[1..], p);
      if !p(s[0]) {
        assert |Filter(s, p)| < |s|;
      }
    }
  }

  /** Two predicates that agree on the input's elements filter it identically. */
  lemma {:induction false} FilterCongruent<T(!new)>(s: seq<T>, p: T -> bool, q: T -> bool)
    requires forall x :: x in s ==> p(x) == q(x)
    ensures Filter(s, p) == Filter(s, q)
  {
    if s != [] {
      FilterCongruent(s[1..], p, q);
    }
  }

  // ---------------------------------------------------------------------------
  // Strings: ASCII lower-casing, includes, startsWith

  function LowerChar(c: char): char {
    if 'A' <= c <= 'Z' then (c as int + 32) as char else c
  }

  /** `s.toLowerCase()`, restricted to ASCII letters: each capital becomes its small letter,
      every other character is kept, and no capital is left. */
  function Lower(s: string): (r: string)
    ensures |r| == |s|
    ensures forall i :: 0 <= i < |s| && 'A' <= s[i] <= 'Z' ==> r[i] as int == s[i] as int + 32
    ensures forall i :: 0 <= i < |s| && !('A' <= s[i] <= 'Z') ==> r[i] == s[i]
    ensures forall i :: 0 <= i < |r| ==> !('A' <= r[i] <= 'Z')
  {
    seq(|s|, i requires 0 <= i < |s| => LowerChar(s[i]))
  }

  /** Lower-casing a lower-cased string changes nothing. */
  lemma LowerIdempotent(s: string)
    ensures Lower(Lower(s)) == Lower(s)
  {
  }

  /** `hay.includes(needle)`. */
  predicate Includes(hay: string, needle: string)
    decreases |hay|
  {
    needle <= hay || (hay != [] && Includes(hay[1..], needle))
  }

  /** `needle` occupies positions `i .. i + |needle|` of `hay`. */
  ghost predicate OccursAt(hay: string, needle: string, i: int) {
    0 <= i && i + |needle| <= |hay| && hay[i..i + |needle|] == needle
  }

  /** An occurrence at a position makes `Includes` hold. */
  lemma {:induction false} OccursImpliesIncludes(hay: string, needle: string, i: int)
    requires OccursAt(hay, needle, i)
    ensures Includes(hay, needle)
    decreases i
  {
    if i == 0 {
      assert needle == hay[..|needle|];
    } else {
      assert hay[1..][i - 1..i - 1 + |needle|] == hay[i..i + |needle|];
      OccursImpliesIncludes(hay[1..], needle, i - 1);
    }
  }

  /** `Includes` agrees with the positional definition of a substring. */
  lemma {:induction false} IncludesIffOccurs(hay: string, needle: string)
    ensures Includes(hay, needle) <==> exists i :: OccursAt(hay, needle, i)
    decreases |hay|
  {
    if exists i :: OccursAt(hay, needle, i) {
      var i :| OccursAt(hay, needle, i);
      OccursImpliesIncludes(hay, needle, i);
    }
    if Includes(hay, needle) {
      if needle <= hay {
        assert OccursAt(hay, needle, 0);
      } else {
        IncludesIffOccurs(hay[1..], needle);
        var i :| OccursAt(hay[1..], needle, i);
        assert hay[1..][i..i + |needle|] == hay[i + 1..i + 1 + |needle|];
        assert OccursAt(hay, needle, i + 1);
      }
    }
  }

  /** Every string includes the empty string. */
  lemma IncludesEmpty(hay: string)
    ensures Includes(hay, "")
  {
    assert "" <= hay;
  }

  /** Strings that differ at a position both reach are not prefixes of one another, nor both
      prefixes of a third string. */
  lemma DifferAt(p: string, q: string, k: nat, s: string)
    requires k < |p| && k < |q| && p[k] != q[k]
    ensures !(p <= q) && !(q <= p)
    ensures !(p <= s && q <= s)
  {
  }
}
