/** The two shapes of loop the scraper runs over a list: one whose body may raise (the first
    exception ends the loop and propagates), and one that skips every element whose body raises. */
module Collect {
  import opened Wrappers

  /** `[f(x) for x in xs]` where `f` may raise: the results in order, or the first exception. */
  function Traverse<A, B, E>(xs: seq<A>, f: A -> Result<B, E>): (r: Result<seq<B>, E>)
    ensures r.Success? <==> forall i :: 0 <= i < |xs| ==> f(xs[i]).Success?
    ensures r.Success? ==> |r.value| == |xs|
    ensures r.Success? ==> forall i :: 0 <= i < |xs| ==> f(xs[i]) == Success(r.value[i])
    ensures r.Failure? ==>
      exists i :: 0 <= i < |xs| && f(xs[i]) == Failure(r.error) &&
        forall j :: 0 <= j < i ==> f(xs[j]).Success?
    decreases |xs|
  {
    if |xs| == 0 then Success([])
    else
      var front := xs[..|xs| - 1];
      assert forall i :: 0 <= i < |front| ==> front[i] == xs[i];
      var ys :- Traverse(front, f);
      var y :- f(xs[|xs| - 1]);
      Success(ys + [y])
  }

  /** When every body succeeds, the loop returns the results. */
  lemma TraverseAllSucceed<A, B, E>(xs: seq<A>, f: A -> Result<B, E>, ys: seq<B>)
    requires |ys| == |xs| && forall j :: 0 <= j < |xs| ==> f(xs[j]) == Success(ys[j])
    ensures Traverse(xs, f) == Success(ys)
  {
    var r := Traverse(xs, f);
    assert r.Success?;
    assert forall j :: 0 <= j < |xs| ==> r.value[j] == ys[j];
    assert r.value == ys;
  }

  /** The loop raises the exception of the first body that raises. */
  lemma TraverseFirstFailure<A, B, E>(xs: seq<A>, f: A -> Result<B, E>, i: nat)
    requires i < |xs| && f(xs[i]).Failure?
    requires forall j :: 0 <= j < i ==> f(xs[j]).Success?
    ensures Traverse(xs, f) == Failure(f(xs[i]).error)
  {
    var r := Traverse(xs, f);
    assert r.Failure?;
    var k :| 0 <= k < |xs| && f(xs[k]) == Failure(r.error) && forall j :: 0 <= j < k ==> f(xs[j]).Success?;
    assert k == i;
  }

  /** A loop that has run through `xs[..i]` and raises at `xs[i]` raises that exception. */
  lemma TraverseExtendFailure<A, B, E>(xs: seq<A>, f: A -> Result<B, E>, i: nat)
    requires i < |xs| && Traverse(xs[..i], f).Success? && f(xs[i]).Failure?
    ensures Traverse(xs, f) == Failure(f(xs[i]).error)
  {
    assert forall j :: 0 <= j < i ==> xs[..i][j] == xs[j];
    TraverseFirstFailure(xs, f, i);
  }

  /** One more successful body extends the results by its value. */
  lemma TraverseExtend<A, B, E>(xs: seq<A>, f: A -> Result<B, E>, i: nat, ys: seq<B>, y: B)
    requires i < |xs| && Traverse(xs[..i], f) == Success(ys) && f(xs[i]) == Success(y)
    ensures Traverse(xs[..i + 1], f) == Success(ys + [y])
  {
    assert xs[..i + 1][..i] == xs[..i];
  }

  /** When every body raises or every body succeeds, the loop raises iff some body runs and
      raises. */
  lemma TraverseUniform<A, B, E>(xs: seq<A>, f: A -> Result<B, E>, ok: bool)
    requires forall i :: 0 <= i < |xs| ==> f(xs[i]).Success? == ok
    ensures Traverse(xs, f).Failure? <==> |xs| > 0 && !ok
  {
    if |xs| > 0 && !ok {
      assert !f(xs[0]).Success?;
    }
  }

  /** The loop over `range(1, n + 1)` when every body raises or every body succeeds: it raises
      iff there is a page and the bodies raise, and otherwise returns one result per page. */
  lemma TraverseRange<B, E>(xs: seq<int>, f: int -> Result<B, E>, ok: bool)
    requires forall i :: 0 <= i < |xs| ==> xs[i] == i + 1
    requires forall p :: 1 <= p <= |xs| ==> f(p).Success? == ok
    ensures Traverse(xs, f).Failure? <==> |xs| > 0 && !ok
    ensures Traverse(xs, f).Success? ==>
      |Traverse(xs, f).value| == |xs| &&
      forall i :: 0 <= i < |xs| ==> f(i + 1) == Success(Traverse(xs, f).value[i])
  {
    forall i | 0 <= i < |xs| ensures f(xs[i]).Success? == ok {
      assert f(xs[i]) == f(i + 1);
    }
    TraverseUniform(xs, f, ok);
    if Traverse(xs, f).Success? {
      forall i | 0 <= i < |xs| ensures f(i + 1) == Success(Traverse(xs, f).value[i]) {
        assert xs[i] == i + 1;
      }
    }
  }

  /** `out = []; for x in xs: out.append(f(x))`: the loop that stops at the first exception. */
  method TraverseEach<A, B, E>(xs: seq<A>, f: A -> Result<B, E>) returns (r: Result<seq<B>, E>)
    ensures r == Traverse(xs, f)
  {
    var out: seq<B> := [];
    var i := 0;
    while i < |xs|
      invariant 0 <= i <= |xs|
      invariant Traverse(xs[..i], f) == Success(out)
    {
      var y := f(xs[i]);
      if y.Failure? {
        TraverseExtendFailure(xs, f, i);
        return Failure(y.error);
      }
      TraverseExtend(xs, f, i, out, y.value);
      out := out + [y.value];
      i := i + 1;
    }
    assert xs[..i] == xs;
    return Success(out);
  }

  /** The loop `for x in xs: try: out.append(f(x)) except: continue`. */
  function Successes<A, B, E>(xs: seq<A>, f: A -> Result<B, E>): (r: seq<B>)
    ensures |r| <= |xs|
    decreases |xs|
  {
    if |xs| == 0 then []
    else
      var ys := Successes(xs[..|xs| - 1], f);
      match f(xs[|xs| - 1])
      case Success(y) => ys + [y]
      case Failure(_) => ys
  }

  /** One more body either adds its result or is skipped. */
  lemma SuccessesExtend<A, B, E>(xs: seq<A>, f: A -> Result<B, E>, i: nat)
    requires i < |xs|
    ensures Successes(xs[..i + 1], f) ==
      Successes(xs[..i], f) + (if f(xs[i]).Success? then [f(xs[i]).value] else [])
  {
    assert xs[..i + 1][..i] == xs[..i];
  }

  /** When no body raises, nothing is skipped. */
  lemma {:induction false} SuccessesAllSucceed<A, B, E>(xs: seq<A>, f: A -> Result<B, E>, ys: seq<B>)
    requires |ys| == |xs| && forall i :: 0 <= i < |xs| ==> f(xs[i]) == Success(ys[i])
    ensures Successes(xs, f) == ys
    decreases |xs|
  {
    if |xs| > 0 {
      var n := |xs| - 1;
      SuccessesAllSucceed(xs[..n], f, ys[..n]);
      assert ys == ys[..n] + [ys[n]];
    }
  }

  /** Skipping is local: the items of two stretches are kept independently. */
  lemma {:induction false} SuccessesAppend<A, B, E>(a: seq<A>, b: seq<A>, f: A -> Result<B, E>)
    ensures Successes(a + b, f) == Successes(a, f) + Successes(b, f)
    decreases |b|
  {
    if |b| == 0 {
      assert a + b == a;
    } else {
      var b' := b[..|b| - 1];
      assert (a + b)[..|a + b| - 1] == a + b';
      SuccessesAppend(a, b', f);
    }
  }

  predicate StrictlyIncreasing(idx: seq<nat>) {
    forall k, l :: 0 <= k < l < |idx| ==> idx[k] < idx[l]
  }

  /** `idx` lists, in increasing order, the positions of the elements of `xs` whose body
      succeeds, and holds exactly what `Successes` keeps. */
  ghost predicate SuccessIndex<A, B, E>(xs: seq<A>, f: A -> Result<B, E>, idx: seq<nat>) {
    && |idx| == |Successes(xs, f)|
    && StrictlyIncreasing(idx)
    && (forall k :: 0 <= k < |idx| ==> idx[k] < |xs| && f(xs[idx[k]]) == Success(Successes(xs, f)[k]))
    && (forall i :: 0 <= i < |xs| && f(xs[i]).Success? ==> i in idx)
  }

  /** The kept results are exactly those of the elements whose body succeeds, in their order. */
  lemma {:induction false} SuccessesSubsequence<A, B, E>(xs: seq<A>, f: A -> Result<B, E>)
    returns (idx: seq<nat>)
    ensures SuccessIndex(xs, f, idx)
    decreases |xs|
  {
    if |xs| == 0 {
      idx := [];
    } else {
      var sub := SuccessesSubsequence(xs[..|xs| - 1], f);
      idx := SuccessIndexStep(xs, f, sub);
    }
  }

  lemma SuccessIndexStep<A, B, E>(xs: seq<A>, f: A -> Result<B, E>, sub: seq<nat>)
    returns (idx: seq<nat>)
    requires |xs| > 0 && SuccessIndex(xs[..|xs| - 1], f, sub)
    ensures SuccessIndex(xs, f, idx)
  {
    var front := xs[..|xs| - 1];
    var n := |xs| - 1;
    var rf := Successes(front, f);
    assert forall i :: 0 <= i < n ==> front[i] == xs[i];
    if f(xs[n]).Success? {
      assert Successes(xs, f) == rf + [f(xs[n]).value];
      idx := sub + [n];
    } else {
      assert Successes(xs, f) == rf;
      idx := sub;
    }
  }

  function Concat<T>(chunks: seq<seq<T>>): (r: seq<T>)
    decreases |chunks|
  {
    if |chunks| == 0 then [] else Concat(chunks[..|chunks| - 1]) + chunks[|chunks| - 1]
  }

  /** Appending one more chunk appends its elements. */
  lemma ConcatSnoc<T>(chunks: seq<seq<T>>, c: seq<T>)
    ensures Concat(chunks + [c]) == Concat(chunks) + c
  {
    assert (chunks + [c])[..|chunks|] == chunks;
  }

  lemma EmptyAppend<T>(a: seq<T>, b: seq<T>)
    requires |a| == 0
    ensures a + b == b
  {
    assert a == [];
  }

  /** One more element of `[f(x) for x in xs]`. */
  lemma MapExtend<A, B>(xs: seq<A>, f: A -> B, ys: seq<B>, i: nat)
    requires i < |xs| && |ys| == i && forall j :: 0 <= j < i ==> ys[j] == f(xs[j])
    ensures |ys + [f(xs[i])]| == i + 1
    ensures forall j :: 0 <= j < i + 1 ==> (ys + [f(xs[i])])[j] == f(xs[j])
  {
  }

  lemma SliceAfter<T>(a: seq<T>, b: seq<T>)
    ensures (a + b)[|a|..] == b && (a + b)[..|a|] == a
  {
  }

  lemma AppendAssoc<T>(a: seq<T>, b: seq<T>, c: seq<T>)
    ensures (a + b) + c == a + (b + c)
  {
  }

  /** A non-empty sequence in front of `r` is its head in front of the rest. */
  lemma ConsAppend<T>(s: seq<T>, r: seq<T>)
    requires |s| > 0
    ensures s + r == [s[0]] + (s[1..] + r)
  {
    assert s == [s[0]] + s[1..];
    AppendAssoc([s[0]], s[1..], r);
  }

  /** `sum(size(x) for x in xs)` */
  function Sum<A>(xs: seq<A>, size: A -> nat): nat
    decreases |xs|
  {
    if |xs| == 0 then 0 else Sum(xs[..|xs| - 1], size) + size(xs[|xs| - 1])
  }

  /** The length of a concatenation is the sum of the chunk lengths. */
  lemma {:induction false} ConcatLength<A, T>(xs: seq<A>, chunks: seq<seq<T>>, size: A -> nat)
    requires |chunks| == |xs|
    requires forall i :: 0 <= i < |xs| ==> |chunks[i]| == size(xs[i])
    ensures |Concat(chunks)| == Sum(xs, size)
    decreases |xs|
  {
    if |xs| > 0 {
      ConcatLength(xs[..|xs| - 1], chunks[..|chunks| - 1], size);
    }
  }

  // ---------------------------------------------------------------------------
  // Searching and filtering

  /** The position of the first element satisfying `p`: what a `for ... if p(x): ... break`
      loop stops at. */
  function FirstIndex<T>(xs: seq<T>, p: T -> bool): (r: Option<nat>)
    ensures r.Some? ==> r.value < |xs| && p(xs[r.value]) && forall j :: 0 <= j < r.value ==> !p(xs[j])
    ensures r.None? <==> forall j :: 0 <= j < |xs| ==> !p(xs[j])
    decreases |xs|
  {
    if |xs| == 0 then None
    else if p(xs[0]) then Some(0)
    else
      assert forall j :: 0 <= j < |xs| - 1 ==> xs[1..][j] == xs[j + 1];
      match FirstIndex(xs[1..], p)
      case Some(k) => Some(k + 1)
      case None => None
  }

  lemma FirstIndexAt<T>(xs: seq<T>, p: T -> bool, i: nat)
    requires i < |xs| && p(xs[i]) && forall j :: 0 <= j < i ==> !p(xs[j])
    ensures FirstIndex(xs, p) == Some(i)
  {
  }

  /** The position of the last element satisfying `p`, as a `for x in reversed(xs)` loop finds
      it. */
  function LastIndex<T>(xs: seq<T>, p: T -> bool): (r: Option<nat>)
    ensures r.Some? ==> r.value < |xs| && p(xs[r.value]) && forall j :: r.value < j < |xs| ==> !p(xs[j])
    ensures r.None? <==> forall j :: 0 <= j < |xs| ==> !p(xs[j])
    decreases |xs|
  {
    if |xs| == 0 then None
    else if p(xs[|xs| - 1]) then Some(|xs| - 1)
    else LastIndex(xs[..|xs| - 1], p)
  }

  lemma LastIndexAt<T>(xs: seq<T>, p: T -> bool, i: nat)
    requires i < |xs| && p(xs[i]) && forall j :: i < j < |xs| ==> !p(xs[j])
    ensures LastIndex(xs, p) == Some(i)
  {
  }

  /** `[x for x in xs if p(x)]` */
  function Filter<T>(xs: seq<T>, p: T -> bool): (r: seq<T>)
    ensures |r| <= |xs|
    ensures forall k :: 0 <= k < |r| ==> p(r[k]) && r[k] in xs
    decreases |xs|
  {
    if |xs| == 0 then []
    else
      var front := Filter(xs[..|xs| - 1], p);
      assert forall k :: 0 <= k < |front| ==> front[k] in xs;
      if p(xs[|xs| - 1]) then front + [xs[|xs| - 1]] else front
  }

  /** Every element satisfying `p` is kept. */
  lemma {:induction false} FilterKeeps<T>(xs: seq<T>, p: T -> bool, i: nat)
    requires i < |xs| && p(xs[i])
    ensures xs[i] in Filter(xs, p)
    decreases |xs|
  {
    if i < |xs| - 1 {
      FilterKeeps(xs[..|xs| - 1], p, i);
    }
  }

  /** Nothing is dropped when every element satisfies `p`. */
  lemma {:induction false} FilterAll<T>(xs: seq<T>, p: T -> bool)
    requires forall i :: 0 <= i < |xs| ==> p(xs[i])
    ensures Filter(xs, p) == xs
    decreases |xs|
  {
    if |xs| > 0 {
      FilterAll(xs[..|xs| - 1], p);
    }
  }
}
