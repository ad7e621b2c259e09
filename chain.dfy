/** `Chain` of main.go: a terminal handler wrapped by a list of middlewares,
    each one around the result of the ones before it. The last middleware of
    the list therefore ends up outermost and runs first. */
module Chaining {
  import opened Http
  import opened Gates

  /** The handler that `Chain(f, ms...)` returns: the last middleware wraps
      the chain of the others. */
  function Fold(f: Handler, ms: seq<Middleware>): Handler
    decreases |ms|
  {
    if ms == [] then f else ms[|ms| - 1](Fold(f, ms[..|ms| - 1]))
  }

  /** The loop of `Chain`: `f = m(f)` for each middleware in list order. */
  method Chain(f: Handler, middlewares: seq<Middleware>) returns (g: Handler)
    ensures g == Fold(f, middlewares)
  {
    g := f;
    for i := 0 to |middlewares|
      invariant g == Fold(f, middlewares[..i])
    {
      assert middlewares[..i + 1][..i] == middlewares[..i];
      g := middlewares[i](g);
    }
    assert middlewares[..|middlewares|] == middlewares;
  }

  /** With no middleware the terminal handler comes back unchanged. */
  lemma ChainEmpty(f: Handler)
    ensures Fold(f, []) == f
  {
  }

  /** A middleware appended to the list wraps everything listed before it. */
  lemma ChainLastOutermost(f: Handler, ms: seq<Middleware>, m: Middleware)
    ensures Fold(f, ms + [m]) == m(Fold(f, ms))
  {
    assert (ms + [m])[..|ms|] == ms;
  }

  /** Chaining in two steps is chaining the concatenated list. */
  lemma {:induction false} ChainAppend(f: Handler, a: seq<Middleware>, b: seq<Middleware>)
    ensures Fold(f, a + b) == Fold(Fold(f, a), b)
    decreases |b|
  {
    if b == [] {
      assert a + b == a;
    } else {
      var n := |b| - 1;
      assert (a + b)[..|a + b| - 1] == a + b[..n];
      ChainAppend(f, a, b[..n]);
    }
  }

  // ---------------------------------------------------------------------------
  // Lists of the source's own middlewares

  /** The middlewares of a list of stages, in the same order. */
  function Stages(ss: seq<Stage>): (ms: seq<Middleware>)
    ensures |ms| == |ss|
    ensures forall i :: 0 <= i < |ss| ==> ms[i] == Instantiate(ss[i])
  {
    if ss == [] then [] else Stages(ss[..|ss| - 1]) + [Instantiate(ss[|ss| - 1])]
  }

  function Reversed<T>(s: seq<T>): (r: seq<T>)
    ensures |r| == |s|
    ensures forall i :: 0 <= i < |s| ==> r[i] == s[|s| - 1 - i]
  {
    if s == [] then [] else [s[|s| - 1]] + Reversed(s[..|s| - 1])
  }

  /** Reference semantics of a pipeline: run the stages in the given order,
      each either handing over to the rest or answering itself; the terminal
      handler answers when every stage has handed over. */
  function Run(order: seq<Stage>, f: Handler, r: Request): Trace
    decreases |order|
  {
    if order == [] then f(r)
    else match Check(order[0], r)
      case Next(before) => before + Run(order[1..], f, r)
      case Stop(response) => response
  }

  /** The chained handler runs the stages from the last listed to the first,
      then the terminal handler. */
  lemma {:induction false} ChainRunsLastFirst(f: Handler, ss: seq<Stage>, r: Request)
    ensures Fold(f, Stages(ss))(r) == Run(Reversed(ss), f, r)
    decreases |ss|
  {
    if ss != [] {
      var n := |ss| - 1;
      var init := ss[..n];
      assert Stages(ss)[..n] == Stages(init);
      ChainRunsLastFirst(f, init, r);
      InstantiateServes(ss[n], Fold(f, Stages(init)), r);
      assert Reversed(ss)[1..] == Reversed(init);
    }
  }

  /** What the stages emit on the way in when each of them hands over. */
  function Preludes(order: seq<Stage>, r: Request): Trace
    requires forall k :: 0 <= k < |order| ==> Check(order[k], r).Next?
    decreases |order|
  {
    if order == [] then [] else Check(order[0], r).before + Preludes(order[1..], r)
  }

  /** When every stage hands over, the terminal handler runs once, after the
      stages' own output in execution order. */
  lemma {:induction false} ChainAllPass(f: Handler, ss: seq<Stage>, r: Request)
    requires forall k :: 0 <= k < |ss| ==> Check(ss[k], r).Next?
    ensures Fold(f, Stages(ss))(r) == Preludes(Reversed(ss), r) + f(r)
    decreases |ss|
  {
    if ss != [] {
      var n := |ss| - 1;
      var init := ss[..n];
      assert Stages(ss)[..n] == Stages(init);
      ChainAllPass(f, init, r);
      InstantiateServes(ss[n], Fold(f, Stages(init)), r);
      assert Reversed(ss)[1..] == Reversed(init);
    }
  }

  /** When the first-listed stage, the one right around the terminal handler,
      refuses the request, the trace is the same whatever handler it wraps. */
  lemma {:induction false} InnermostStopShields(f: Handler, g: Handler, ss: seq<Stage>, r: Request)
    requires ss != [] && Check(ss[0], r).Stop?
    ensures Fold(f, Stages(ss))(r) == Fold(g, Stages(ss))(r)
    decreases |ss|
  {
    var n := |ss| - 1;
    var init := ss[..n];
    assert Stages(ss)[..n] == Stages(init);
    InstantiateServes(ss[n], Fold(f, Stages(init)), r);
    InstantiateServes(ss[n], Fold(g, Stages(init)), r);
    if n > 0 {
      InnermostStopShields(f, g, init, r);
    }
  }

  lemma StagesAppend(a: seq<Stage>, b: seq<Stage>)
    ensures Stages(a + b) == Stages(a) + Stages(b)
  {
  }

  /** Short-circuit: when the stage at position k refuses, the stages listed
      before it and the terminal handler never run; the chain answers as if
      any handler `g` stood in their place. */
  lemma {:induction false} ChainShortCircuits(f: Handler, g: Handler, ss: seq<Stage>, k: nat, r: Request)
    requires k < |ss| && Check(ss[k], r).Stop?
    ensures Fold(f, Stages(ss))(r) == Fold(g, Stages(ss[k..]))(r)
  {
    assert ss == ss[..k] + ss[k..];
    StagesAppend(ss[..k], ss[k..]);
    ChainAppend(f, Stages(ss[..k]), Stages(ss[k..]));
    InnermostStopShields(Fold(f, Stages(ss[..k])), g, ss[k..], r);
  }
}
