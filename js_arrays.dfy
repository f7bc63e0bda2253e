/**
 * The few JavaScript array operations the modelled handlers are built from,
 * with the semantics the ECMAScript standard gives them (section 23.1.3 of
 * ECMA-262): `find`/`findIndex` scan from the left, `splice(start, 1)`
 * normalises a negative start against the length, `filter` keeps order.
 */
module JsArrays {

  datatype Option<T> = None | Some(value: T)

  /** `findIndex`: the first index whose element satisfies `p`, or -1. */
  function FindIndex<T>(s: seq<T>, p: T -> bool): (i: int)
    ensures -1 <= i < |s|
    ensures i == -1 <==> forall k :: 0 <= k < |s| ==> !p(s[k])
    ensures 0 <= i ==> p(s[i]) && forall k :: 0 <= k < i ==> !p(s[k])
  {
    if s == [] then -1
    else if p(s[0]) then 0
    else
      var j := FindIndex(s[1..], p);
      if j == -1 then -1 else j + 1
  }

  /** `find`: the first element satisfying `p`, or undefined. */
  function Find<T>(s: seq<T>, p: T -> bool): (r: Option<T>)
    ensures r.None? <==> forall k :: 0 <= k < |s| ==> !p(s[k])
    ensures r.Some? ==> r.value in s && p(r.value)
    ensures r.Some? ==> exists i :: 0 <= i < |s| && s[i] == r.value && forall k :: 0 <= k < i ==> !p(s[k])
  {
    var i := FindIndex(s, p);
    if i == -1 then None else Some(s[i])
  }

  /**
   * `splice(start, 1)`: a negative start counts from the end (and is raised
   * to 0 if still negative), a start past the end removes nothing.
   */
  function Splice1<T>(s: seq<T>, start: int): (r: seq<T>)
    ensures 0 <= start < |s| ==> r == s[..start] + s[start + 1..]
    ensures start == -1 && s != [] ==> r == s[..|s| - 1]
    ensures start < -1 && s != [] && |s| + start >= 0 ==> r == s[..|s| + start] + s[|s| + start + 1..]
    ensures start < -1 && s != [] && |s| + start < 0 ==> r == s[1..]
    ensures s == [] || start >= |s| ==> r == s
    ensures |r| == if s == [] || start >= |s| then |s| else |s| - 1
  {
    var k := if start < 0 then (if |s| + start < 0 then 0 else |s| + start)
             else (if start > |s| then |s| else start);
    if k < |s| then s[..k] + s[k + 1..] else s
  }

  /** The effect of the source's `for … if (p) { splice(i, 1); break; }` loops. */
  function RemoveFirst<T>(s: seq<T>, p: T -> bool): seq<T>
  {
    var i := FindIndex(s, p);
    if i == -1 then s else s[..i] + s[i + 1..]
  }

  /** `filter`: the elements satisfying `p`, in their original order. */
  function Filter<T>(s: seq<T>, p: T -> bool): (r: seq<T>)
    ensures |r| <= |s|
    ensures forall k :: 0 <= k < |r| ==> p(r[k])
  {
    if s == [] then []
    else if p(s[0]) then [s[0]] + Filter(s[1..], p)
    else Filter(s[1..], p)
  }

  /** Filtering keeps exactly the members that pass: nothing new appears, nothing that passes is lost. */
  lemma {:induction false} FilterMembers<T>(s: seq<T>, p: T -> bool)
    ensures forall k :: 0 <= k < |Filter(s, p)| ==> Filter(s, p)[k] in s
    ensures forall k :: 0 <= k < |s| && p(s[k]) ==> s[k] in Filter(s, p)
  {
    if s != [] {
      var t := s[1..];
      FilterMembers(t, p);
      assert forall k :: 0 <= k < |t| ==> t[k] == s[k + 1];
      assert s == [s[0]] + t;
    }
  }

  /** Removing the first match takes out exactly one element that matches, or nothing when none does. */
  lemma {:induction false} RemoveFirstSpec<T>(s: seq<T>, p: T -> bool)
    ensures (forall k :: 0 <= k < |s| ==> !p(s[k])) ==> RemoveFirst(s, p) == s
    ensures (exists k :: 0 <= k < |s| && p(s[k])) ==>
              |RemoveFirst(s, p)| == |s| - 1 &&
              exists i :: 0 <= i < |s| && p(s[i]) && multiset(RemoveFirst(s, p)) + multiset{s[i]} == multiset(s)
  {
    var i := FindIndex(s, p);
    if i != -1 {
      assert s == s[..i] + [s[i]] + s[i + 1..];
      assert multiset(s) == multiset(s[..i]) + multiset{s[i]} + multiset(s[i + 1..]);
    }
  }

  /** Removing the first match never removes an element that does not match. */
  lemma {:induction false} RemoveFirstKeeps<T>(s: seq<T>, p: T -> bool, x: T)
    requires x in s && !p(x)
    ensures x in RemoveFirst(s, p)
  {
    var i := FindIndex(s, p);
    if i != -1 {
      assert s == s[..i] + [s[i]] + s[i + 1..];
      assert x in s[..i] || x in s[i + 1..];
    }
  }

  /** Every element of the result of a removal was in the input. */
  lemma {:induction false} RemoveFirstSubset<T>(s: seq<T>, p: T -> bool, x: T)
    requires x in RemoveFirst(s, p)
    ensures x in s
  {
    var i := FindIndex(s, p);
    if i != -1 {
      assert x in s[..i] || x in s[i + 1..];
    }
  }

  /** Filtering keeps the relative order: it is a subsequence, counted with multiplicity. */
  lemma {:induction false} FilterMultiset<T>(s: seq<T>, p: T -> bool)
    ensures multiset(Filter(s, p)) <= multiset(s)
    ensures forall x :: p(x) ==> multiset(Filter(s, p))[x] == multiset(s)[x]
  {
    if s != [] {
      FilterMultiset(s[1..], p);
      assert s == [s[0]] + s[1..];
    }
  }

  /** Filtering keeps a sequence whole when every element passes. */
  lemma {:induction false} FilterAll<T>(s: seq<T>, p: T -> bool)
    requires forall k :: 0 <= k < |s| ==> p(s[k])
    ensures Filter(s, p) == s
  {
    if s != [] {
      var t := s[1..];
      assert forall k :: 0 <= k < |t| ==> t[k] == s[k + 1];
      FilterAll(t, p);
      assert p(s[0]);
      assert Filter(s, p) == [s[0]] + Filter(t, p);
      assert s == [s[0]] + t;
    }
  }

  /** Filtering by `p` and then by a stricter `q` is filtering by `q`. */
  lemma {:induction false} FilterNarrower<T>(s: seq<T>, p: T -> bool, q: T -> bool)
    requires forall k :: 0 <= k < |s| && q(s[k]) ==> p(s[k])
    ensures Filter(Filter(s, p), q) == Filter(s, q)
  {
    if s != [] {
      assert forall k :: 0 <= k < |s[1..]| ==> s[1..][k] == s[k + 1];
      FilterNarrower(s[1..], p, q);
    }
  }

  /** The predicate that holds where `p` does not. */
  function Not<T>(p: T -> bool): T -> bool
  {
    x => !p(x)
  }

  /** One unfolding of `Filter` on a sequence written as head and tail. */
  lemma FilterCons<T>(x: T, s: seq<T>, p: T -> bool)
    ensures Filter([x] + s, p) == if p(x) then [x] + Filter(s, p) else Filter(s, p)
  {
    assert ([x] + s)[0] == x && ([x] + s)[1..] == s;
  }

  /** Filtering a concatenation filters each part. */
  lemma {:induction false} FilterAppend<T>(a: seq<T>, b: seq<T>, p: T -> bool)
    ensures Filter(a + b, p) == Filter(a, p) + Filter(b, p)
  {
    if a == [] {
      assert a + b == b;
    } else {
      FilterAppend(a[1..], b, p);
      FilterAppendStep(a[0], a[1..], b, p);
      assert a == [a[0]] + a[1..];
      assert a + b == [a[0]] + (a[1..] + b);
    }
  }

  /** The inductive step of `FilterAppend`: one more element in front. */
  lemma FilterAppendStep<T>(x: T, t: seq<T>, b: seq<T>, p: T -> bool)
    requires Filter(t + b, p) == Filter(t, p) + Filter(b, p)
    ensures Filter([x] + (t + b), p) == Filter([x] + t, p) + Filter(b, p)
  {
    var ft, fb := Filter(t, p), Filter(b, p);
    if p(x) {
      calc {
        Filter([x] + (t + b), p);
        { FilterCons(x, t + b, p); }
        [x] + (ft + fb);
        { assert [x] + (ft + fb) == ([x] + ft) + fb; }
        ([x] + ft) + fb;
        { FilterCons(x, t, p); }
        Filter([x] + t, p) + fb;
      }
    } else {
      calc {
        Filter([x] + (t + b), p);
        { FilterCons(x, t + b, p); }
        ft + fb;
        { FilterCons(x, t, p); }
        Filter([x] + t, p) + fb;
      }
    }
  }

  /**
   * The source's `for (i = 0; i < s.length; i++) if (p(s[i])) { s.splice(i, 1); break; }`.
   */
  method RemoveFirstMatch<T>(s: seq<T>, p: T -> bool) returns (r: seq<T>)
    ensures r == RemoveFirst(s, p)
  {
    r := s;
    var i := 0;
    while i < |r|
      invariant 0 <= i <= |r| && r == s
      invariant forall k :: 0 <= k < i ==> !p(s[k])
    {
      if p(r[i]) {
        r := r[..i] + r[i + 1..];
        return;
      }
      i := i + 1;
    }
  }

  /**
   * The source's `for (i = 0; i < s.length; i++) if (p(s[i])) { s.splice(i, 1); i--; }`:
   * every match is removed, the rest keeps its order.
   */
  method RemoveAllMatches<T>(s: seq<T>, p: T -> bool) returns (r: seq<T>)
    ensures r == Filter(s, Not(p))
  {
    r := s;
    var i := 0;
    ghost var n := 0;
    while i < |r|
      invariant 0 <= n <= |s|
      invariant i == |Filter(s[..n], Not(p))|
      invariant r == Filter(s[..n], Not(p)) + s[n..]
    {
      FilterSnoc(s, n, Not(p));
      if p(r[i]) {
        r := r[..i] + r[i + 1..];
      } else {
        i := i + 1;
      }
      n := n + 1;
    }
    assert s[..n] == s;
  }

  lemma FilterSnoc<T>(s: seq<T>, n: nat, q: T -> bool)
    requires n < |s|
    ensures Filter(s[..n + 1], q) == Filter(s[..n], q) + (if q(s[n]) then [s[n]] else [])
    ensures Filter(s[..n], q) + s[n..] == Filter(s[..n], q) + [s[n]] + s[n + 1..]
  {
    FilterAppend(s[..n], [s[n]], q);
    assert s[..n + 1] == s[..n] + [s[n]];
    assert s[n..] == [s[n]] + s[n + 1..];
  }
}
