/** `xs.filter(p).length`: every progress figure of the dashboard counts the
    entries of a list that satisfy a test (completed subtasks, ticked
    checklist items, resolved ClickUp checklist items). */
module Counting {

  /** The number of elements of `s` that satisfy `p`. */
  function Count<T>(s: seq<T>, p: T -> bool): (n: nat)
    ensures n <= |s|
  {
    if |s| == 0 then 0 else (if p(s[0]) then 1 else 0) + Count(s[1..], p)
  }

  /** Counting distributes over concatenation. */
  lemma {:induction false} CountAppend<T>(a: seq<T>, b: seq<T>, p: T -> bool)
    ensures Count(a + b, p) == Count(a, p) + Count(b, p)
  {
    if |a| > 0 {
      assert (a + b)[1..] == a[1..] + b;
      CountAppend(a[1..], b, p);
    } else {
      assert a + b == b;
    }
  }

  /** All elements pass: the count is the length; none passes: it is 0. */
  lemma {:induction false} CountAllOrNone<T>(s: seq<T>, p: T -> bool)
    ensures (forall k :: 0 <= k < |s| ==> p(s[k])) ==> Count(s, p) == |s|
    ensures (forall k :: 0 <= k < |s| ==> !p(s[k])) ==> Count(s, p) == 0
  {
    if |s| > 0 {
      CountAllOrNone(s[1..], p);
    }
  }

  /** Two lists of the same length whose elements pass their tests at the same
      positions have the same count. */
  lemma {:induction false} CountPointwise<T, U>(s: seq<T>, p: T -> bool, t: seq<U>, q: U -> bool)
    requires |s| == |t|
    requires forall k :: 0 <= k < |s| ==> (p(s[k]) <==> q(t[k]))
    ensures Count(s, p) == Count(t, q)
  {
    if |s| > 0 {
      CountPointwise(s[1..], p, t[1..], q);
    }
  }
}
