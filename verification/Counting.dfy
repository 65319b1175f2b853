/** Counting the elements of a sequence that satisfy a predicate. */
module Counting {
  function Count<T>(p: T -> bool, s: seq<T>): (n: nat)
    ensures n <= |s|
  {
    if s == [] then 0 else (if p(s[0]) then 1 else 0) + Count(p, s[1..])
  }

  lemma {:induction false} CountConcat<T>(p: T -> bool, a: seq<T>, b: seq<T>)
    ensures Count(p, a + b) == Count(p, a) + Count(p, b)
  {
    if a == [] {
      assert a + b == b;
    } else {
      assert (a + b)[1..] == a[1..] + b;
      CountConcat(p, a[1..], b);
    }
  }

  lemma CountAppend<T>(p: T -> bool, s: seq<T>, x: T)
    ensures Count(p, s + [x]) == Count(p, s) + if p(x) then 1 else 0
  {
    CountConcat(p, s, [x]);
  }

  lemma CountUpdate<T>(p: T -> bool, s: seq<T>, i: nat, x: T)
    requires i < |s|
    ensures Count(p, s[i := x]) == Count(p, s) - (if p(s[i]) then 1 else 0) + if p(x) then 1 else 0
  {
    assert s == s[..i] + ([s[i]] + s[i + 1..]);
    assert s[i := x] == s[..i] + ([x] + s[i + 1..]);
    CountConcat(p, s[..i], [s[i]] + s[i + 1..]);
    CountConcat(p, s[..i], [x] + s[i + 1..]);
  }

  lemma {:induction false} CountSame<T>(p: T -> bool, q: T -> bool, a: seq<T>, b: seq<T>)
    requires |a| == |b|
    requires forall i :: 0 <= i < |a| ==> p(a[i]) == q(b[i])
    ensures Count(p, a) == Count(q, b)
  {
    if a != [] { CountSame(p, q, a[1..], b[1..]); }
  }

  lemma {:induction false} CountMonotone<T>(p: T -> bool, q: T -> bool, s: seq<T>)
    requires forall i :: 0 <= i < |s| ==> p(s[i]) ==> q(s[i])
    ensures Count(p, s) <= Count(q, s)
  {
    if s != [] { CountMonotone(p, q, s[1..]); }
  }

  /** A witness of the larger predicate that fails the smaller one makes it strict. */
  lemma {:induction false} CountStrict<T>(p: T -> bool, q: T -> bool, s: seq<T>, w: nat)
    requires w < |s| && q(s[w]) && !p(s[w])
    requires forall i :: 0 <= i < |s| ==> p(s[i]) ==> q(s[i])
    ensures Count(p, s) < Count(q, s)
  {
    if w == 0 { CountMonotone(p, q, s[1..]); } else { CountStrict(p, q, s[1..], w - 1); }
  }

  lemma {:induction false} CountNone<T>(p: T -> bool, s: seq<T>)
    requires forall i :: 0 <= i < |s| ==> !p(s[i])
    ensures Count(p, s) == 0
  {
    if s != [] { CountNone(p, s[1..]); }
  }
}
