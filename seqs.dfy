/** Order-preserving filtering of sequences, the model of a pandas boolean mask. */
module Seqs {
  import opened Outcomes

  /** Number of elements of `s` that satisfy `p`. */
  function Count<T>(s: seq<T>, p: T -> bool): nat
  {
    if s == [] then 0 else (if p(s[0]) then 1 else 0) + Count(s[1..], p)
  }

  /** `r` can be obtained from `s` by deleting elements, keeping the order of the rest. */
  predicate IsSubsequence<T(==)>(r: seq<T>, s: seq<T>)
  {
    if r == [] then true
    else if s == [] then false
    else (r[0] == s[0] && IsSubsequence(r[1..], s[1..])) || IsSubsequence(r, s[1..])
  }

  /** The elements of `s` that satisfy `p`, in their original order (`df[mask]`). */
  function Filter<T>(s: seq<T>, p: T -> bool): seq<T>
  {
    if s == [] then []
    else if p(s[0]) then [s[0]] + Filter(s[1..], p)
    else Filter(s[1..], p)
  }

  /** The mask keeps exactly the elements satisfying `p`, in their original order. */
  lemma {:induction false} FilterFacts<T>(s: seq<T>, p: T -> bool)
    ensures forall x :: x in Filter(s, p) ==> x in s && p(x)
    ensures forall i :: 0 <= i < |s| && p(s[i]) ==> s[i] in Filter(s, p)
    ensures IsSubsequence(Filter(s, p), s)
    ensures |Filter(s, p)| == Count(s, p)
  {
    if s != [] {
      FilterFacts(s[1..], p);
      var rest := Filter(s[1..], p);
      assert forall i :: 1 <= i < |s| ==> s[i] == s[1..][i - 1];
      if p(s[0]) {
        assert ([s[0]] + rest)[1..] == rest;
      } else {
        assert rest != [] ==> IsSubsequence(rest, s[1..]);
      }
    }
  }

  /** `i` is the one and only position of `s` whose element satisfies `p`. */
  predicate OnlyAt<T>(s: seq<T>, p: T -> bool, i: int)
  {
    0 <= i < |s| && p(s[i]) && forall j :: 0 <= j < |s| && p(s[j]) ==> j == i
  }

  lemma {:induction false} CountZero<T>(s: seq<T>, p: T -> bool)
    ensures Count(s, p) == 0 <==> forall j :: 0 <= j < |s| ==> !p(s[j])
  {
    if s != [] {
      CountZero(s[1..], p);
      assert forall j :: 1 <= j < |s| ==> s[j] == s[1..][j - 1];
    }
  }

  /** Exactly one satisfying element is the same as a unique satisfying position. */
  lemma {:induction false} CountOne<T>(s: seq<T>, p: T -> bool)
    ensures Count(s, p) == 1 <==> exists i :: OnlyAt(s, p, i)
  {
    if s != [] {
      var t := s[1..];
      CountOne(t, p);
      CountZero(t, p);
      assert forall j :: 1 <= j < |s| ==> s[j] == t[j - 1];
      if p(s[0]) {
        if Count(s, p) == 1 {
          assert OnlyAt(s, p, 0);
        }
        if exists i :: OnlyAt(s, p, i) {
          var i :| OnlyAt(s, p, i);
          assert i == 0;
          forall j | 0 <= j < |t| ensures !p(t[j]) {
            assert s[j + 1] == t[j];
          }
        }
      } else {
        if Count(s, p) == 1 {
          var i :| OnlyAt(t, p, i);
          assert OnlyAt(s, p, i + 1);
        }
        if exists i :: OnlyAt(s, p, i) {
          var i :| OnlyAt(s, p, i);
          assert i != 0;
          forall j | 0 <= j < |t| && p(t[j]) ensures j == i - 1 {
            assert s[j + 1] == t[j];
          }
          assert OnlyAt(t, p, i - 1);
        }
      }
    }
  }

  /** Two successive masks keep the same rows as one mask with both conditions. */
  lemma {:induction false} FilterTwice<T>(s: seq<T>, p: T -> bool, q: T -> bool, both: T -> bool)
    requires forall x :: both(x) == (p(x) && q(x))
    ensures Filter(Filter(s, p), q) == Filter(s, both)
  {
    if s != [] {
      FilterTwice(s[1..], p, q, both);
      var rest := Filter(s[1..], p);
      if p(s[0]) {
        assert Filter(s, p) == [s[0]] + rest;
        assert ([s[0]] + rest)[1..] == rest;
      }
    }
  }

  /** Traversing a concatenation traverses both parts. */
  lemma TraverseAppend<A, B>(s: seq<A>, t: seq<A>, f: A -> Result<B>, a: seq<B>, b: seq<B>)
    requires Traverse(s, f) == Ok(a) && Traverse(t, f) == Ok(b)
    ensures Traverse(s + t, f) == Ok(a + b)
  {
    var st := s + t;
    TraverseFacts(s, f);
    TraverseFacts(t, f);
    TraverseFacts(st, f);
    forall i | 0 <= i < |st| ensures f(st[i]) == Ok((a + b)[i]) {
      if i < |s| {
        assert st[i] == s[i];
      } else {
        assert st[i] == t[i - |s|];
      }
    }
    var v := Traverse(st, f).value;
    assert forall i :: 0 <= i < |st| ==> v[i] == (a + b)[i];
    assert v == a + b;
  }

  /** Traversing an element listed twice. */
  lemma TraverseTwice<A, B>(x: A, f: A -> Result<B>, b: B)
    requires f(x) == Ok(b)
    ensures Traverse([x, x], f) == Ok([b, b])
  {
    var two := [x, x];
    TraverseFacts(two, f);
    assert f(two[0]) == Ok(b) && f(two[1]) == Ok(b);
    var v := Traverse(two, f).value;
    assert v == [v[0], v[1]];
  }

  /** Position `i` is where `f` first fails on `s`. */
  predicate FirstFailure<A, B>(s: seq<A>, f: A -> Result<B>, i: int)
  {
    0 <= i < |s| && f(s[i]).Err? && forall j :: 0 <= j < i ==> f(s[j]).Ok?
  }

  /**
   * Applies `f` to every element in order and stops at the first failure,
   * as a Python loop stops at the first exception.
   */
  function Traverse<A, B>(s: seq<A>, f: A -> Result<B>): Result<seq<B>>
  {
    if s == [] then Ok([])
    else
      var done :- Traverse(s[..|s| - 1], f);
      var last :- f(s[|s| - 1]);
      Ok(done + [last])
  }

  /**
   * A traversal succeeds exactly when `f` succeeds on every element, and then
   * holds the results in order; otherwise it carries the first failure.
   */
  lemma {:induction false} TraverseFacts<A, B>(s: seq<A>, f: A -> Result<B>)
    ensures Traverse(s, f).Ok? <==> forall i :: 0 <= i < |s| ==> f(s[i]).Ok?
    ensures Traverse(s, f).Ok? ==>
      |Traverse(s, f).value| == |s| && forall i :: 0 <= i < |s| ==> f(s[i]) == Ok(Traverse(s, f).value[i])
    ensures Traverse(s, f).Err? ==> exists i :: FirstFailure(s, f, i) && Traverse(s, f).error == f(s[i]).error
  {
    if s != [] {
      var init := s[..|s| - 1];
      TraverseFacts(init, f);
      assert forall i :: 0 <= i < |init| ==> init[i] == s[i];
      if Traverse(init, f).Ok? && f(s[|s| - 1]).Ok? {
        var r := Traverse(init, f).value + [f(s[|s| - 1]).value];
        assert forall i :: 0 <= i < |init| ==> r[i] == Traverse(init, f).value[i];
      }
    }
  }

  /** Two conversions that agree on every element traverse alike. */
  lemma {:induction false} TraverseAgree<A, B>(s: seq<A>, f: A -> Result<B>, g: A -> Result<B>)
    requires forall i :: 0 <= i < |s| ==> f(s[i]) == g(s[i])
    ensures Traverse(s, f) == Traverse(s, g)
  {
    if s != [] {
      var init := s[..|s| - 1];
      assert forall i :: 0 <= i < |init| ==> init[i] == s[i];
      TraverseAgree(init, f, g);
    }
  }

  /** When every failure of `f` carries the same error, so does a failed traversal. */
  lemma TraverseError<A, B>(s: seq<A>, f: A -> Result<B>, e: Error)
    requires forall i :: 0 <= i < |s| && f(s[i]).Err? ==> f(s[i]).error == e
    requires Traverse(s, f).Err?
    ensures Traverse(s, f).error == e
  {
    TraverseFacts(s, f);
  }

  /** A traversal fails with the error of the first element on which `f` fails. */
  lemma TraverseFirstFailure<A, B>(s: seq<A>, f: A -> Result<B>, i: int)
    requires FirstFailure(s, f, i)
    ensures Traverse(s, f) == Err(f(s[i]).error)
  {
    TraverseFacts(s, f);
    assert Traverse(s, f).Err?;
    var j :| FirstFailure(s, f, j) && Traverse(s, f).error == f(s[j]).error;
    assert j == i;
  }

  /** One more successful element extends a successful traversal of a prefix. */
  lemma TraverseStep<A, B>(s: seq<A>, f: A -> Result<B>, i: int, done: seq<B>, b: B)
    requires 0 <= i < |s|
    requires Traverse(s[..i], f) == Ok(done) && f(s[i]) == Ok(b)
    ensures Traverse(s[..i + 1], f) == Ok(done + [b])
  {
    assert s[..i + 1][..i] == s[..i];
  }

  /** A failure right after a successful prefix is the failure of the whole traversal. */
  lemma TraverseFailsAt<A, B>(s: seq<A>, f: A -> Result<B>, i: int, done: seq<B>)
    requires 0 <= i < |s|
    requires Traverse(s[..i], f) == Ok(done) && f(s[i]).Err?
    ensures Traverse(s, f) == Err(f(s[i]).error)
  {
    TraverseFacts(s[..i], f);
    assert forall j :: 0 <= j < i ==> s[..i][j] == s[j];
    assert FirstFailure(s, f, i);
    TraverseFirstFailure(s, f, i);
  }
}
