/** Shared vocabulary: optional values, results that stand for Python
    exceptions, and the few list operations the scrapers rely on. */
module Common {

  datatype Option<T> = None | Some(value: T) {
    function GetOr(default: T): T {
      match this
      case Some(v) => v
      case None => default
    }
  }

  /** The outcome of a Python call that may raise: `Err` carries the name of
      the exception that escapes. */
  datatype Result<T> = Ok(value: T) | Err(error: string)

  /** Python's `xs[:n]`: a negative `n` counts from the end. */
  function SlicePrefix<T>(xs: seq<T>, n: int): (r: seq<T>)
    ensures r <= xs
    ensures 0 <= n ==> |r| == if n < |xs| then n else |xs|
    ensures n < 0 ==> |r| == if |xs| + n < 0 then 0 else |xs| + n
  {
    if 0 <= n then
      (if n < |xs| then xs[..n] else xs)
    else
      (if |xs| + n < 0 then [] else xs[..|xs| + n])
  }

  /** Cutting a list to the length of one of its prefixes gives that prefix. */
  lemma SlicePrefixOfExtension<T>(p: seq<T>, xs: seq<T>)
    requires p <= xs
    ensures SlicePrefix(xs, |p|) == p
  {
  }

  /** Extending a prefix by one element. */
  lemma TakeOneMore<T>(s: seq<T>, i: nat)
    requires i < |s|
    ensures s[..i + 1] == s[..i] + [s[i]]
  {
  }

  /** No value occurs twice. */
  ghost predicate NoDups<T>(s: seq<T>) {
    forall i, j :: 0 <= i < j < |s| ==> s[i] != s[j]
  }

  /** Appends to `seen`, in order, each element of `xs` that is not already
      there: the first occurrence wins. `Distinct(xs)` is `DistinctFrom([], xs)`. */
  function DistinctFrom<T(==)>(seen: seq<T>, xs: seq<T>): seq<T>
    decreases |xs|
  {
    if xs == [] then seen
    else if xs[0] in seen then DistinctFrom(seen, xs[1..])
    else DistinctFrom(seen + [xs[0]], xs[1..])
  }

  /** One step of `DistinctFrom`, for a list written as head and tail. */
  lemma DistinctFromCons<T>(seen: seq<T>, x: T, xs: seq<T>)
    ensures DistinctFrom(seen, [x] + xs)
         == if x in seen then DistinctFrom(seen, xs) else DistinctFrom(seen + [x], xs)
  {
    assert ([x] + xs)[0] == x && ([x] + xs)[1..] == xs;
  }

  /** Taking first occurrences keeps what was there, adds only elements of
      `xs`, adds every element of `xs`, and never repeats a value. */
  lemma {:induction false} DistinctFromProperties<T>(seen: seq<T>, xs: seq<T>)
    requires NoDups(seen)
    ensures seen <= DistinctFrom(seen, xs)
    ensures NoDups(DistinctFrom(seen, xs))
    ensures forall x :: x in DistinctFrom(seen, xs) <==> x in seen || x in xs
    decreases |xs|
  {
    if xs != [] {
      var next := if xs[0] in seen then seen else seen + [xs[0]];
      assert NoDups(next);
      DistinctFromProperties(next, xs[1..]);
      assert xs == [xs[0]] + xs[1..];
    }
  }

  /** Runs `f` on each element, first to last, and concatenates what it
      gives; the first error aborts the whole run. */
  function ConcatAll<A, B>(f: A -> Result<seq<B>>, xs: seq<A>): Result<seq<B>>
    decreases |xs|
  {
    if xs == [] then Ok([])
    else match ConcatAll(f, xs[..|xs| - 1])
      case Err(e) => Err(e)
      case Ok(done) =>
        match f(xs[|xs| - 1])
        case Err(e) => Err(e)
        case Ok(more) => Ok(done + more)
  }

  /** One more element that succeeds: what it gives is appended. */
  lemma ConcatAllStep<A, B>(f: A -> Result<seq<B>>, xs: seq<A>, k: nat, done: seq<B>, more: seq<B>)
    requires k < |xs| && ConcatAll(f, xs[..k]) == Ok(done) && f(xs[k]) == Ok(more)
    ensures ConcatAll(f, xs[..k + 1]) == Ok(done + more)
  {
    var pre := xs[..k + 1];
    assert pre[..|pre| - 1] == xs[..k];
  }

  /** One more element that fails: its error is the result. */
  lemma ConcatAllStepErr<A, B>(f: A -> Result<seq<B>>, xs: seq<A>, k: nat)
    requires k < |xs| && ConcatAll(f, xs[..k]).Ok? && f(xs[k]).Err?
    ensures ConcatAll(f, xs[..k + 1]) == f(xs[k])
  {
    var pre := xs[..k + 1];
    assert pre[..|pre| - 1] == xs[..k];
  }

  /** Once a prefix fails, the whole run fails with the same error. */
  lemma {:induction false} ConcatAllAbortsOnPrefix<A, B>(f: A -> Result<seq<B>>, xs: seq<A>, k: nat)
    requires k <= |xs| && ConcatAll(f, xs[..k]).Err?
    ensures ConcatAll(f, xs) == ConcatAll(f, xs[..k])
    decreases |xs| - k
  {
    if k < |xs| {
      var pre := xs[..k + 1];
      assert pre[..|pre| - 1] == xs[..k];
      ConcatAllAbortsOnPrefix(f, xs, k + 1);
    } else {
      assert xs[..k] == xs;
    }
  }

  /** The run fails exactly when some element fails. */
  lemma {:induction false} ConcatAllErrIff<A, B>(f: A -> Result<seq<B>>, xs: seq<A>)
    ensures ConcatAll(f, xs).Err? <==> exists k :: 0 <= k < |xs| && f(xs[k]).Err?
    decreases |xs|
  {
    if xs != [] {
      var init := xs[..|xs| - 1];
      ConcatAllErrIff(f, init);
      if exists k :: 0 <= k < |xs| && f(xs[k]).Err? {
        var k :| 0 <= k < |xs| && f(xs[k]).Err?;
        if k < |xs| - 1 {
          assert init[k] == xs[k];
        }
      }
      forall k | 0 <= k < |init| ensures init[k] == xs[k] { }
    }
  }

  /** Runs `g` on each element, first to last, and concatenates what it
      gives. */
  function ConcatMap<A, B>(g: A -> seq<B>, xs: seq<A>): seq<B>
    decreases |xs|
  {
    if xs == [] then [] else g(xs[0]) + ConcatMap(g, xs[1..])
  }

  /** The pieces of a longer list follow those of a shorter one. */
  lemma {:induction false} ConcatMapAppend<A, B>(g: A -> seq<B>, a: seq<A>, b: seq<A>)
    ensures ConcatMap(g, a + b) == ConcatMap(g, a) + ConcatMap(g, b)
    decreases |a|
  {
    if a == [] {
      assert a + b == b;
    } else {
      assert (a + b)[0] == a[0] && (a + b)[1..] == a[1..] + b;
      ConcatMapAppend(g, a[1..], b);
    }
  }

  /** Whenever the failing run succeeds, it gives what the run of `g` gives,
      when `g` agrees with `f` wherever `f` succeeds. */
  lemma {:induction false} ConcatAllAgrees<A, B>(f: A -> Result<seq<B>>, g: A -> seq<B>, xs: seq<A>)
    requires forall x :: f(x).Ok? ==> f(x).value == g(x)
    requires ConcatAll(f, xs).Ok?
    ensures ConcatAll(f, xs).value == ConcatMap(g, xs)
    decreases |xs|
  {
    if xs != [] {
      var init, last := xs[..|xs| - 1], xs[|xs| - 1];
      ConcatAllAgrees(f, g, init);
      assert xs == init + [last];
      ConcatMapAppend(g, init, [last]);
      assert ConcatMap(g, [last]) == g(last) + ConcatMap(g, []);
    }
  }
}
