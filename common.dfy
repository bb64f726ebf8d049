/** Value types shared by every part of the model: optional values, replies of
    the remote API, JavaScript numbers as the application produces them, ASCII
    case folding, substring search and the order-preserving `Array.filter`. */
module Common {

  datatype Option<+T> = None | Some(value: T)

  /** The outcome of one call to the remote API: the body of a 2xx reply, or the
      message of the error the call was rejected with. */
  datatype Reply<+T> = Ok(value: T) | Err(message: string)

  /** A JSON value received from the server and never inspected by the client. */
  datatype Json = Json(text: string)

  /** A JavaScript number restricted to the values the application produces:
      an integer or NaN (what `undefined * 1000` and `Number("abc")` give). */
  datatype Num = Finite(n: int) | NaN {

    /** `this + other` */
    function Plus(other: Num): Num {
      if Finite? && other.Finite? then Finite(n + other.n) else NaN
    }

    /** `this - other` */
    function Minus(other: Num): Num {
      if Finite? && other.Finite? then Finite(n - other.n) else NaN
    }

    /** `this * other` */
    function Times(other: Num): Num {
      if Finite? && other.Finite? then Finite(n * other.n) else NaN
    }

    /** `this > 0`; every comparison with NaN is false */
    predicate IsPositive() { Finite? && n > 0 }

    /** `this <= 0`; every comparison with NaN is false */
    predicate IsAtMostZero() { Finite? && n <= 0 }
  }

  /** `toLowerCase` on one character, restricted to ASCII letters. */
  function LowerChar(c: char): char {
    if 'A' <= c <= 'Z' then (c as int + 32) as char else c
  }

  /** `toLowerCase` restricted to ASCII letters. */
  function Lower(s: string): (r: string)
    ensures |r| == |s|
    ensures forall i :: 0 <= i < |r| ==> !('A' <= r[i] <= 'Z')
    ensures forall i :: 0 <= i < |r| ==> (r[i] == s[i] || r[i] as int == s[i] as int + 32)
    ensures forall i :: 0 <= i < |r| ==> r[i] == LowerChar(s[i])
  {
    seq(|s|, i requires 0 <= i < |s| => LowerChar(s[i]))
  }

  /** Text without upper-case ASCII letters is its own lower case. */
  lemma LowerOfLowercase(s: string)
    requires forall i :: 0 <= i < |s| ==> !('A' <= s[i] <= 'Z')
    ensures Lower(s) == s
  {
  }

  predicate StartsWith(s: string, prefix: string) {
    |prefix| <= |s| && s[..|prefix|] == prefix
  }

  /** `hay.includes(needle)`, scanning from the left. */
  predicate Contains(hay: string, needle: string)
    decreases |hay|
  {
    StartsWith(hay, needle) || (hay != [] && Contains(hay[1..], needle))
  }

  /** An independent statement of `includes`: the needle occurs at some offset. */
  predicate OccursAt(hay: string, needle: string, i: int) {
    0 <= i && i + |needle| <= |hay| && hay[i..i + |needle|] == needle
  }

  lemma {:induction false} ContainsIffOccurs(hay: string, needle: string)
    ensures Contains(hay, needle) <==> exists i :: OccursAt(hay, needle, i)
    decreases |hay|
  {
    if StartsWith(hay, needle) {
      assert OccursAt(hay, needle, 0);
    } else if hay != [] {
      ContainsIffOccurs(hay[1..], needle);
      if exists i :: OccursAt(hay[1..], needle, i) {
        var i :| OccursAt(hay[1..], needle, i);
        assert hay[i + 1..i + 1 + |needle|] == hay[1..][i..i + |needle|];
        assert OccursAt(hay, needle, i + 1);
      }
      if exists i :: OccursAt(hay, needle, i) {
        var i :| OccursAt(hay, needle, i);
        assert i != 0;
        assert hay[1..][i - 1..i - 1 + |needle|] == hay[i..i + |needle|];
        assert OccursAt(hay[1..], needle, i - 1);
      }
    }
  }

  /** A needle holding a character the haystack lacks is not found in it. */
  lemma MissingCharNotContained(hay: string, needle: string, k: int)
    requires 0 <= k < |needle|
    requires forall i :: 0 <= i < |hay| ==> hay[i] != needle[k]
    ensures !Contains(hay, needle)
  {
    forall i | 0 <= i && i + |needle| <= |hay|
      ensures !OccursAt(hay, needle, i)
    {
      assert hay[i..i + |needle|][k] == hay[i + k] != needle[k];
    }
    ContainsIffOccurs(hay, needle);
  }

  /** `a` can be obtained from `b` by deleting elements: order is preserved. */
  predicate IsSubsequence<T(==)>(a: seq<T>, b: seq<T>)
    decreases |b|
  {
    a == [] || (b != [] && if a[0] == b[0] then IsSubsequence(a[1..], b[1..]) else IsSubsequence(a, b[1..]))
  }

  /** `s.filter(keep)`: every kept element, each copy of it, in order. */
  function Filter<T(==,!new)>(s: seq<T>, keep: T -> bool): (r: seq<T>)
    ensures |r| <= |s|
    ensures forall i :: 0 <= i < |r| ==> r[i] in s && keep(r[i])
    ensures forall i :: 0 <= i < |s| && keep(s[i]) ==> s[i] in r
    ensures IsSubsequence(r, s)
    ensures forall x :: multiset(r)[x] == (if keep(x) then multiset(s)[x] else 0)
  {
    if s == [] then []
    else
      assert s == [s[0]] + s[1..];
      FilterStep(s[0], s[1..], Filter(s[1..], keep), keep);
      if keep(s[0]) then [s[0]] + Filter(s[1..], keep) else Filter(s[1..], keep)
  }

  /** What `Filter` promises carries over from a tail to one more element. */
  lemma FilterStep<T(!new)>(x: T, tail: seq<T>, rest: seq<T>, keep: T -> bool)
    requires |rest| <= |tail|
    requires forall i :: 0 <= i < |rest| ==> rest[i] in tail && keep(rest[i])
    requires forall i :: 0 <= i < |tail| && keep(tail[i]) ==> tail[i] in rest
    requires IsSubsequence(rest, tail)
    requires forall y :: multiset(rest)[y] == (if keep(y) then multiset(tail)[y] else 0)
    ensures var s, r := [x] + tail, if keep(x) then [x] + rest else rest;
      && |r| <= |s|
      && (forall i :: 0 <= i < |r| ==> r[i] in s && keep(r[i]))
      && (forall i :: 0 <= i < |s| && keep(s[i]) ==> s[i] in r)
      && IsSubsequence(r, s)
      && (forall y :: multiset(r)[y] == (if keep(y) then multiset(s)[y] else 0))
  {
    var s := [x] + tail;
    assert forall i :: 1 <= i < |s| ==> s[i] == tail[i - 1];
    assert multiset(s) == multiset{x} + multiset(tail);
    assert multiset([x] + rest) == multiset{x} + multiset(rest);
  }

  /** When every element is kept, the filter returns its input unchanged. */
  lemma {:induction false} FilterKeepsAll<T(!new)>(s: seq<T>, keep: T -> bool)
    requires forall i :: 0 <= i < |s| ==> keep(s[i])
    ensures Filter(s, keep) == s
  {
    if s != [] {
      FilterKeepsAll(s[1..], keep);
    }
  }

  /** Two tests that agree on every element select the same elements. */
  lemma {:induction false} FilterAgrees<T(!new)>(s: seq<T>, keep: T -> bool, keep': T -> bool)
    requires forall i :: 0 <= i < |s| ==> keep(s[i]) == keep'(s[i])
    ensures Filter(s, keep) == Filter(s, keep')
  {
    if s != [] {
      FilterAgrees(s[1..], keep, keep');
    }
  }
}
