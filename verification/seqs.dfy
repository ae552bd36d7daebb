/** Sequence operations behind the in-memory (mock-mode) repositories:
    a std::vector scanned front to back, filtered into a fresh vector,
    erased at the first match (std::find_if + erase) or overwritten there. */
module Seqs {
  import opened Wrappers

  /** Order-preserving filter: the elements of `s` that satisfy `p`, in their original order. */
  function Filter<T(==)>(s: seq<T>, p: T -> bool): (r: seq<T>)
    ensures |r| <= |s|
    ensures forall i :: 0 <= i < |r| ==> p(r[i])
    ensures forall i :: 0 <= i < |s| && p(s[i]) ==> s[i] in r
    ensures forall x :: x in r ==> x in s
  {
    if |s| == 0 then []
    else (if p(s[0]) then [s[0]] else []) + Filter(s[1..], p)
  }

  /** Filtering a concatenation filters each part and keeps them in order;
      with `Filter([x], p)` this pins `Filter` down as the order-preserving filter. */
  lemma {:induction false} FilterAppend<T>(a: seq<T>, b: seq<T>, p: T -> bool)
    ensures Filter(a + b, p) == Filter(a, p) + Filter(b, p)
    decreases |a|
  {
    if |a| == 0 {
      assert a + b == b;
    } else {
      assert (a + b)[1..] == a[1..] + b;
      FilterAppend(a[1..], b, p);
    }
  }

  /** Appending one element grows a filter by that element exactly when it qualifies. */
  lemma FilterSnoc<T>(s: seq<T>, x: T, p: T -> bool)
    ensures Filter(s + [x], p) == Filter(s, p) + (if p(x) then [x] else [])
  {
    FilterAppend(s, [x], p);
    assert Filter([x], p) == (if p(x) then [x] else []) + Filter([x][1..], p);
  }

  /** Nothing qualifies, nothing is kept. */
  lemma {:induction false} FilterNone<T>(s: seq<T>, p: T -> bool)
    requires forall i :: 0 <= i < |s| ==> !p(s[i])
    ensures Filter(s, p) == []
    decreases |s|
  {
    if |s| > 0 {
      FilterNone(s[1..], p);
    }
  }

  /** Position of the first element satisfying `p` (std::find_if). */
  function FirstIndex<T(==)>(s: seq<T>, p: T -> bool): (r: Option<nat>)
    ensures r.None? <==> forall i :: 0 <= i < |s| ==> !p(s[i])
    ensures r.Some? ==> r.value < |s| && p(s[r.value])
    ensures r.Some? ==> forall i :: 0 <= i < r.value ==> !p(s[i])
  {
    if |s| == 0 then None
    else if p(s[0]) then Some(0)
    else
      match FirstIndex(s[1..], p)
      case None => None
      case Some(i) => Some(i + 1)
  }

  /** Erases the first element satisfying `p`; the flag says whether one was found.
      All other elements keep their order. */
  function RemoveFirst<T(==)>(s: seq<T>, p: T -> bool): (r: (seq<T>, bool))
    ensures r.1 <==> exists i :: 0 <= i < |s| && p(s[i])
    ensures !r.1 ==> r.0 == s
    ensures r.1 ==> var k := FirstIndex(s, p).value;
                    |r.0| == |s| - 1 && r.0 == s[..k] + s[k + 1..]
  {
    match FirstIndex(s, p)
    case None => (s, false)
    case Some(k) => (s[..k] + s[k + 1..], true)
  }

  /** Overwrites the first element satisfying `p` with `x`; `None` when nothing matches. */
  function ReplaceFirst<T(==)>(s: seq<T>, p: T -> bool, x: T): (r: Option<seq<T>>)
    ensures r.None? <==> forall i :: 0 <= i < |s| ==> !p(s[i])
    ensures r.Some? ==> var k := FirstIndex(s, p).value;
                        |r.value| == |s| && r.value == s[k := x]
  {
    match FirstIndex(s, p)
    case None => None
    case Some(k) => Some(s[k := x])
  }
}
