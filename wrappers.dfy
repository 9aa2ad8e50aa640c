/** Option and Result, the two failure-carrying shapes used across the model. */
module Wrappers {

  datatype Option<+T> = None | Some(value: T)

  /**
    `Err` carries the text of the exception the Python code would raise
    (`str(e)`); `:-` propagates it the way an uncaught exception propagates.
  */
  datatype Result<+T, +E> = Ok(value: T) | Err(error: E) {
    predicate IsFailure() {
      Err?
    }

    function PropagateFailure<U>(): Result<U, E>
      requires Err?
    {
      Err(error)
    }

    function Extract(): T
      requires Ok?
    {
      value
    }
  }

  /**
    `for x in xs: out.append(f(x))` where each step may raise: the first
    failure stops the loop; `done` holds what was appended before.
  */
  function Traverse<A, B, E>(f: A -> Result<B, E>, xs: seq<A>, done: seq<B>): (r: Result<seq<B>, E>)
    ensures r.Ok? ==> |r.value| == |done| + |xs| && r.value[..|done|] == done
  {
    if |xs| == 0 then Ok(done)
    else
      var y :- f(xs[0]);
      Traverse(f, xs[1..], done + [y])
  }

  /** What was appended before the loop only prefixes its result. */
  lemma {:induction false} TraverseShift<A, B, E>(f: A -> Result<B, E>, xs: seq<A>, done: seq<B>)
    ensures Traverse(f, xs, done).Ok? <==> Traverse(f, xs, []).Ok?
    ensures Traverse(f, xs, done).Ok? ==> Traverse(f, xs, done).value == done + Traverse(f, xs, []).value
    ensures Traverse(f, xs, done).Err? ==> Traverse(f, xs, done) == Traverse(f, xs, [])
  {
    var none: seq<B> := [];
    if |xs| == 0 {
      assert done + none == done;
    } else if f(xs[0]).Ok? {
      var y := f(xs[0]).value;
      TraverseShift(f, xs[1..], done + [y]);
      TraverseShift(f, xs[1..], [y]);
      assert none + [y] == [y];
      assert Traverse(f, xs, done) == Traverse(f, xs[1..], done + [y]);
      assert Traverse(f, xs, none) == Traverse(f, xs[1..], [y]);
      var rest := Traverse(f, xs[1..], none);
      if rest.Ok? {
        assert done + [y] + rest.value == done + ([y] + rest.value);
      }
    }
  }

  /** The loop finishes exactly when no step raises. */
  lemma {:induction false} TraverseOk<A, B, E>(f: A -> Result<B, E>, xs: seq<A>, done: seq<B>)
    ensures Traverse(f, xs, done).Ok? <==> forall k :: 0 <= k < |xs| ==> f(xs[k]).Ok?
  {
    if |xs| > 0 && f(xs[0]).Ok? {
      TraverseOk(f, xs[1..], done + [f(xs[0]).value]);
      forall k | 1 <= k < |xs|
        ensures f(xs[1..][k - 1]) == f(xs[k])
      {
        assert xs[1..][k - 1] == xs[k];
      }
    }
  }

  /** The k-th element of a finished loop is the k-th step's value. */
  lemma {:induction false} TraverseValues<A, B, E>(f: A -> Result<B, E>, xs: seq<A>)
    requires Traverse(f, xs, []).Ok?
    ensures |Traverse(f, xs, []).value| == |xs|
    ensures forall k :: 0 <= k < |xs| ==> f(xs[k]).Ok? && Traverse(f, xs, []).value[k] == f(xs[k]).value
  {
    if |xs| > 0 {
      var y := f(xs[0]).value;
      var none: seq<B> := [];
      assert none + [y] == [y];
      assert Traverse(f, xs, none) == Traverse(f, xs[1..], [y]);
      TraverseShift(f, xs[1..], [y]);
      TraverseValues(f, xs[1..]);
      var ys := Traverse(f, xs, []).value;
      assert ys == [y] + Traverse(f, xs[1..], []).value;
      forall k | 1 <= k < |xs|
        ensures f(xs[k]).Ok? && ys[k] == f(xs[k]).value
      {
        assert xs[1..][k - 1] == xs[k];
      }
    }
  }

  /** A loop whose every step returns its element unchanged returns the whole sequence. */
  lemma TraverseUnchanged<A, E>(f: A -> Result<A, E>, xs: seq<A>)
    requires forall k :: 0 <= k < |xs| ==> f(xs[k]) == Ok(xs[k])
    ensures Traverse(f, xs, []) == Ok(xs)
  {
    TraverseOk(f, xs, []);
    TraverseValues(f, xs);
    var ys := Traverse(f, xs, []).value;
    assert forall k :: 0 <= k < |xs| ==> ys[k] == xs[k];
    assert ys == xs;
  }

  /**
    `for x in xs: out.append(f(x, len(out)))`: the loop of `Traverse` where
    each step also sees how many values were appended before it.
  */
  function TraverseIndexed<A, B, E>(f: (A, nat) -> Result<B, E>, xs: seq<A>, done: seq<B>): (r: Result<seq<B>, E>)
    ensures r.Ok? ==> |r.value| == |done| + |xs| && r.value[..|done|] == done
  {
    if |xs| == 0 then Ok(done)
    else
      var y :- f(xs[0], |done|);
      TraverseIndexed(f, xs[1..], done + [y])
  }

  /** The indexed loop finishes exactly when every step, at its own position, succeeds. */
  lemma {:induction false} TraverseIndexedOk<A, B, E>(f: (A, nat) -> Result<B, E>, xs: seq<A>, done: seq<B>)
    ensures TraverseIndexed(f, xs, done).Ok? <==> forall k :: 0 <= k < |xs| ==> f(xs[k], |done| + k).Ok?
  {
    if |xs| > 0 && f(xs[0], |done|).Ok? {
      var done' := done + [f(xs[0], |done|).value];
      TraverseIndexedOk(f, xs[1..], done');
      forall k | 1 <= k < |xs|
        ensures f(xs[1..][k - 1], |done'| + (k - 1)) == f(xs[k], |done| + k)
      {
        assert xs[1..][k - 1] == xs[k];
      }
    }
  }

  /** After the values already appended, the k-th element's value is the step's at position `|done| + k`. */
  lemma {:induction false} TraverseIndexedValues<A, B, E>(f: (A, nat) -> Result<B, E>, xs: seq<A>, done: seq<B>)
    requires TraverseIndexed(f, xs, done).Ok?
    ensures forall k :: 0 <= k < |xs| ==>
              f(xs[k], |done| + k).Ok? && TraverseIndexed(f, xs, done).value[|done| + k] == f(xs[k], |done| + k).value
  {
    if |xs| > 0 {
      var y := f(xs[0], |done|).value;
      var done' := done + [y];
      var ys := TraverseIndexed(f, xs, done).value;
      assert ys == TraverseIndexed(f, xs[1..], done').value;
      TraverseIndexedValues(f, xs[1..], done');
      forall k | 0 <= k < |xs|
        ensures f(xs[k], |done| + k).Ok? && ys[|done| + k] == f(xs[k], |done| + k).value
      {
        if k == 0 {
          assert ys[..|done'|] == done';
          assert ys[|done|] == ys[..|done'|][|done|];
        } else {
          assert xs[1..][k - 1] == xs[k];
          assert ys[|done'| + (k - 1)] == f(xs[1..][k - 1], |done'| + (k - 1)).value;
        }
      }
    }
  }

  /** A finished indexed loop from the start: the k-th value is the step's at position k. */
  lemma TraverseIndexedFromStart<A, B, E>(f: (A, nat) -> Result<B, E>, xs: seq<A>)
    requires TraverseIndexed(f, xs, []).Ok?
    ensures |TraverseIndexed(f, xs, []).value| == |xs|
    ensures forall k :: 0 <= k < |xs| ==> f(xs[k], k).Ok? && TraverseIndexed(f, xs, []).value[k] == f(xs[k], k).value
  {
    var none: seq<B> := [];
    TraverseIndexedValues(f, xs, none);
    forall k | 0 <= k < |xs|
      ensures f(xs[k], k).Ok? && TraverseIndexed(f, xs, []).value[k] == f(xs[k], k).value
    {
      assert |none| + k == k;
    }
  }

  /** A step of a filter loop that appended something. */
  predicate Kept<B, E>(y: Result<Option<B>, E>)
  {
    y.Ok? && y.value.Some?
  }

  /**
    `for x in xs[k:]: y = f(x); if y is not None: out.append(y)` where each
    step may raise: the first failure stops the loop; `done` holds what was
    appended before.
  */
  function Gather<A, B, E>(f: A -> Result<Option<B>, E>, xs: seq<A>, k: nat, done: seq<B>): (r: Result<seq<B>, E>)
    requires k <= |xs|
    ensures r.Ok? ==> |done| <= |r.value| <= |done| + |xs| - k && r.value[..|done|] == done
    decreases |xs| - k
  {
    if k == |xs| then Ok(done)
    else
      var y :- f(xs[k]);
      Gather(f, xs, k + 1, if y.Some? then done + [y.value] else done)
  }

  /** The pairs `f` gives for `xs[k..]`, flattened: first and second of each in turn. */
  function Pairs<A, B>(f: A -> (B, B), xs: seq<A>, k: nat): (r: seq<B>)
    requires k <= |xs|
    ensures |r| == 2 * (|xs| - k)
    decreases |xs| - k
  {
    if k == |xs| then [] else [f(xs[k]).0, f(xs[k]).1] + Pairs(f, xs, k + 1)
  }

  /** The pair of `xs[j]` sits at offset `2 * (j - k)`. */
  lemma {:induction false} PairsAt<A, B>(f: A -> (B, B), xs: seq<A>, k: nat, j: nat)
    requires k <= j < |xs|
    ensures Pairs(f, xs, k)[2 * (j - k)] == f(xs[j]).0
    ensures Pairs(f, xs, k)[2 * (j - k) + 1] == f(xs[j]).1
    decreases j - k
  {
    if j > k {
      PairsAt(f, xs, k + 1, j);
    }
  }

  /** The first pair, then the rest. */
  lemma PairsUnfold<A, B>(f: A -> (B, B), xs: seq<A>, k: nat)
    requires k < |xs|
    ensures Pairs(f, xs, k) == [f(xs[k]).0, f(xs[k]).1] + Pairs(f, xs, k + 1)
  {
  }

  /** Concatenation is associative. */
  lemma AppendAssoc<T>(a: seq<T>, b: seq<T>, c: seq<T>)
    ensures a + b + c == a + (b + c)
  {
  }

  /** One turn of the filter loop: a raising step ends it, otherwise it goes on from the next position. */
  lemma GatherStep<A, B, E>(f: A -> Result<Option<B>, E>, xs: seq<A>, k: nat, done: seq<B>)
    requires k < |xs|
    ensures f(xs[k]).Err? ==> Gather(f, xs, k, done) == Err(f(xs[k]).error)
    ensures f(xs[k]).Ok? && f(xs[k]).value.None? ==> Gather(f, xs, k, done) == Gather(f, xs, k + 1, done)
    ensures f(xs[k]).Ok? && f(xs[k]).value.Some? ==>
              Gather(f, xs, k, done) == Gather(f, xs, k + 1, done + [f(xs[k]).value.value])
  {
  }

  /** The positions from `k` on whose step appends: increasing, and every such position is listed. */
  function KeptIndices<A, B, E>(f: A -> Result<Option<B>, E>, xs: seq<A>, k: nat): (r: seq<nat>)
    requires k <= |xs|
    ensures forall j :: 0 <= j < |r| ==> k <= r[j] < |xs| && Kept(f(xs[r[j]]))
    ensures forall j, j' :: 0 <= j < j' < |r| ==> r[j] < r[j']
    decreases |xs| - k
  {
    if k == |xs| then [] else (if Kept(f(xs[k])) then [k] else []) + KeptIndices(f, xs, k + 1)
  }

  /** Every position from `k` on whose step appends is listed. */
  lemma {:induction false} KeptIndicesComplete<A, B, E>(f: A -> Result<Option<B>, E>, xs: seq<A>, k: nat)
    requires k <= |xs|
    ensures forall i :: k <= i < |xs| && Kept(f(xs[i])) ==> i in KeptIndices(f, xs, k)
    decreases |xs| - k
  {
    if k < |xs| {
      KeptIndicesComplete(f, xs, k + 1);
      var rest := KeptIndices(f, xs, k + 1);
      assert KeptIndices(f, xs, k) == (if Kept(f(xs[k])) then [k] else []) + rest;
      forall i | k < i < |xs| && Kept(f(xs[i]))
        ensures i in KeptIndices(f, xs, k)
      {
        assert i in rest;
      }
    }
  }

  /** The filter loop finishes exactly when no step raises. */
  lemma {:induction false} GatherOk<A, B, E>(f: A -> Result<Option<B>, E>, xs: seq<A>, k: nat, done: seq<B>)
    requires k <= |xs|
    ensures Gather(f, xs, k, done).Ok? <==> forall i :: k <= i < |xs| ==> f(xs[i]).Ok?
    decreases |xs| - k
  {
    if k < |xs| && f(xs[k]).Ok? {
      var y := f(xs[k]).value;
      GatherOk(f, xs, k + 1, if y.Some? then done + [y.value] else done);
    }
  }

  /** `r` continues `done` with the values of the appending steps from `k` on, in position order. */
  ghost predicate Appended<A, B, E>(f: A -> Result<Option<B>, E>, xs: seq<A>, k: nat, done: seq<B>, r: seq<B>)
    requires k <= |xs|
  {
    var idx := KeptIndices(f, xs, k);
    |r| == |done| + |idx| &&
    forall j :: 0 <= j < |idx| ==> r[|done| + j] == f(xs[idx[j]]).value.value
  }

  /** One appending step: what holds from `k + 1` after the append holds from `k` before it. */
  lemma AppendedStep<A, B, E>(f: A -> Result<Option<B>, E>, xs: seq<A>, k: nat, done: seq<B>, v: B, r: seq<B>)
    requires k < |xs| && f(xs[k]) == Ok(Some(v))
    requires Appended(f, xs, k + 1, done + [v], r) && r[..|done| + 1] == done + [v]
    ensures Appended(f, xs, k, done, r)
  {
    var rest := KeptIndices(f, xs, k + 1);
    var idx := [k] + rest;
    assert KeptIndices(f, xs, k) == idx;
    forall j | 0 <= j < |idx|
      ensures r[|done| + j] == f(xs[idx[j]]).value.value
    {
      if j == 0 {
        assert r[|done|] == (done + [v])[|done|];
      } else {
        assert idx[j] == rest[j - 1];
        assert r[|done| + j] == r[|done + [v]| + (j - 1)];
      }
    }
  }

  /**
    A finished filter loop appended exactly the values of the steps that
    returned something, in the order of their positions.
  */
  lemma {:induction false} GatherKept<A, B, E>(f: A -> Result<Option<B>, E>, xs: seq<A>, k: nat, done: seq<B>)
    requires k <= |xs|
    requires Gather(f, xs, k, done).Ok?
    ensures Appended(f, xs, k, done, Gather(f, xs, k, done).value)
    decreases |xs| - k
  {
    if k < |xs| {
      var y := f(xs[k]).value;
      if y.Some? {
        var next := done + [y.value];
        GatherKept(f, xs, k + 1, next);
        assert Gather(f, xs, k, done) == Gather(f, xs, k + 1, next);
        AppendedStep(f, xs, k, done, y.value, Gather(f, xs, k + 1, next).value);
      } else {
        GatherKept(f, xs, k + 1, done);
        assert Gather(f, xs, k, done) == Gather(f, xs, k + 1, done);
        assert KeptIndices(f, xs, k) == KeptIndices(f, xs, k + 1);
      }
    }
  }

  /**
    A finished filter loop from the start: its output is the values of the
    appending steps in position order, and every other step returned nothing.
  */
  lemma GatherOrder<A, B, E>(f: A -> Result<Option<B>, E>, xs: seq<A>)
    requires Gather(f, xs, 0, []).Ok?
    ensures var r := Gather(f, xs, 0, []).value;
            var idx := KeptIndices(f, xs, 0);
            |r| == |idx| &&
            (forall i :: 0 <= i < |xs| && i !in idx ==> f(xs[i]) == Ok(None)) &&
            (forall j :: 0 <= j < |idx| ==> f(xs[idx[j]]) == Ok(Some(r[j])))
  {
    var none: seq<B> := [];
    GatherKept(f, xs, 0, none);
    GatherOk(f, xs, 0, none);
    KeptIndicesComplete(f, xs, 0);
    var r := Gather(f, xs, 0, []).value;
    var idx := KeptIndices(f, xs, 0);
    forall j | 0 <= j < |idx|
      ensures f(xs[idx[j]]) == Ok(Some(r[j]))
    {
      assert r[0 + j] == f(xs[idx[j]]).value.value;
    }
  }
}
