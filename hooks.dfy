/**
 * The operation hook pipeline (lib/hooks/operation-hooks.js): an ordered list of
 * interceptors run over one shared context, stopping at the first error.
 */
module OperationHooks {
  import opened Wrappers

  /**
   * What a hook does with its continuation: call it without an error, having left the
   * shared context as `ctx`, or call it with the error `err`.
   */
  datatype Step<C, E> = Continue(ctx: C) | Abort(err: E)

  /**
   * How the pipeline's promise settles: resolved with the shared context or rejected
   * with an error; `ran` counts the hooks that were invoked.
   */
  datatype Run<C, E> = Resolved(ctx: C, ran: nat) | Rejected(err: E, ran: nat)

  /** The pipeline after `count` hooks have continued, leaving the context `ctx`. */
  function RunFrom<C, E>(ctx: C, hooks: seq<C -> Step<C, E>>, count: nat): (r: Run<C, E>)
    requires count <= |hooks|
    ensures count <= r.ran <= |hooks|
    ensures r.Resolved? ==> r.ran == |hooks|
    decreases |hooks| - count
  {
    if count == |hooks| then Resolved(ctx, count)
    else match hooks[count](ctx)
      case Abort(e) => Rejected(e, count + 1)
      case Continue(next) => RunFrom(next, hooks, count + 1)
  }

  /** The promise `operationHooks(ctx, hooks)` returns. */
  function Pipeline<C, E>(ctx: C, hooks: seq<C -> Step<C, E>>): (r: Run<C, E>)
    ensures hooks == [] ==> r == Resolved(ctx, 0)
    ensures hooks != [] && hooks[0](ctx).Abort? ==> r == Rejected(hooks[0](ctx).err, 1)
    ensures r.Resolved? ==> r.ran == |hooks|
    ensures r.Rejected? ==> 1 <= r.ran <= |hooks|
  {
    RunFrom(ctx, hooks, 0)
  }

  /**
   * `runNext`: `count` advances by one per continuation; the pipeline resolves once it
   * reaches `hooks.length` and rejects as soon as a hook passes an error.
   */
  method RunHooks<C, E>(ctx: C, hooks: seq<C -> Step<C, E>>) returns (r: Run<C, E>)
    ensures r == Pipeline(ctx, hooks)
  {
    var count := 0;
    var shared := ctx;
    while count < |hooks|
      invariant 0 <= count <= |hooks|
      invariant Pipeline(ctx, hooks) == RunFrom(shared, hooks, count)
      decreases |hooks| - count
    {
      match hooks[count](shared) {
        case Abort(e) =>
          return Rejected(e, count + 1);
        case Continue(next) =>
          shared := next;
      }
      count := count + 1;
    }
    r := Resolved(shared, count);
  }

  /**
   * The context hook `i` is invoked with: the caller's context for hook 0, and for later
   * hooks whatever the previous hook left, provided every earlier hook continued.
   */
  function ContextAt<C, E>(ctx: C, hooks: seq<C -> Step<C, E>>, i: nat): Option<C>
    requires i <= |hooks|
  {
    if i == 0 then Some(ctx)
    else match ContextAt(ctx, hooks, i - 1)
      case None => None
      case Some(c) => (match hooks[i - 1](c) case Continue(next) => Some(next) case Abort(_) => None)
  }

  lemma {:induction false} RunFromContextAt<C, E>(ctx: C, hooks: seq<C -> Step<C, E>>, i: nat)
    requires i <= |hooks| && ContextAt(ctx, hooks, i).Some?
    ensures Pipeline(ctx, hooks) == RunFrom(ContextAt(ctx, hooks, i).value, hooks, i)
  {
    if i > 0 {
      RunFromContextAt(ctx, hooks, i - 1);
    }
  }

  lemma {:induction false} ContextAtPrefix<C, E>(ctx: C, hooks: seq<C -> Step<C, E>>, i: nat, j: nat)
    requires j <= i <= |hooks| && ContextAt(ctx, hooks, i).Some?
    ensures ContextAt(ctx, hooks, j).Some?
    decreases i - j
  {
    if j < i {
      ContextAtPrefix(ctx, hooks, i - 1, j);
    }
  }

  lemma {:induction false} RunFromFromContext<C, E>(ctx: C, hooks: seq<C -> Step<C, E>>, i: nat)
    requires i <= |hooks| && ContextAt(ctx, hooks, i).Some?
    ensures var r := RunFrom(ContextAt(ctx, hooks, i).value, hooks, i);
      && (r.Resolved? ==> ContextAt(ctx, hooks, |hooks|) == Some(r.ctx))
      && (r.Rejected? ==> ContextAt(ctx, hooks, r.ran - 1).Some? &&
                          hooks[r.ran - 1](ContextAt(ctx, hooks, r.ran - 1).value) == Abort(r.err))
    decreases |hooks| - i
  {
    var c := ContextAt(ctx, hooks, i).value;
    if i < |hooks| {
      match hooks[i](c) {
        case Abort(e) =>
        case Continue(next) =>
          assert ContextAt(ctx, hooks, i + 1) == Some(next);
          RunFromFromContext(ctx, hooks, i + 1);
      }
    }
  }

  /**
   * The pipeline's outcome, hook by hook: hooks run in list order, each on the context
   * the previous one left; a rejection names the first hook that passed an error and no
   * later hook runs; a resolution happens after exactly `hooks.length` hooks, with the
   * context the last hook left (the caller's own context when the list is empty).
   */
  lemma {:induction false} PipelineOutcome<C, E>(ctx: C, hooks: seq<C -> Step<C, E>>)
    ensures var r := Pipeline(ctx, hooks);
      && (r.Resolved? <==> ContextAt(ctx, hooks, |hooks|).Some?)
      && (r.Resolved? ==> r.ran == |hooks| && r.ctx == ContextAt(ctx, hooks, |hooks|).value)
      && (r.Rejected? ==> 1 <= r.ran <= |hooks| && ContextAt(ctx, hooks, r.ran - 1).Some? &&
                          hooks[r.ran - 1](ContextAt(ctx, hooks, r.ran - 1).value) == Abort(r.err))
      && (hooks == [] ==> r == Resolved(ctx, 0))
  {
    var r := Pipeline(ctx, hooks);
    RunFromFromContext(ctx, hooks, 0);
    if ContextAt(ctx, hooks, |hooks|).Some? {
      RunFromContextAt(ctx, hooks, |hooks|);
    }
  }

  /** Adds `k` to the number of hooks a run invoked. */
  function Shift<C, E>(r: Run<C, E>, k: nat): Run<C, E> {
    match r
    case Resolved(c, n) => Resolved(c, n + k)
    case Rejected(e, n) => Rejected(e, n + k)
  }

  lemma {:induction false} RunFromAppend<C, E>(ctx: C, a: seq<C -> Step<C, E>>, b: seq<C -> Step<C, E>>, i: nat)
    requires i <= |a|
    ensures RunFrom(ctx, a + b, i) ==
      match RunFrom(ctx, a, i)
      case Resolved(c, _) => Shift(RunFrom(c, b, 0), |a|)
      case Rejected(e, n) => Rejected(e, n)
    decreases |a| - i
  {
    if i == |a| {
      RunFromShift(ctx, a, b, 0);
    } else {
      assert (a + b)[i] == a[i];
      match a[i](ctx) {
        case Abort(e) =>
        case Continue(next) => RunFromAppend(next, a, b, i + 1);
      }
    }
  }

  lemma {:induction false} RunFromShift<C, E>(ctx: C, a: seq<C -> Step<C, E>>, b: seq<C -> Step<C, E>>, j: nat)
    requires j <= |b|
    ensures RunFrom(ctx, a + b, |a| + j) == Shift(RunFrom(ctx, b, j), |a|)
    decreases |b| - j
  {
    if j < |b| {
      assert (a + b)[|a| + j] == b[j];
      match b[j](ctx) {
        case Abort(e) =>
        case Continue(next) => RunFromShift(next, a, b, j + 1);
      }
    }
  }

  /**
   * Running a concatenated list is running the first part and, if it resolves, the second
   * part on the context the first part left.
   */
  lemma PipelineAppend<C, E>(ctx: C, a: seq<C -> Step<C, E>>, b: seq<C -> Step<C, E>>)
    ensures Pipeline(ctx, a + b) ==
      match Pipeline(ctx, a)
      case Resolved(c, _) => Shift(Pipeline(c, b), |a|)
      case Rejected(e, n) => Rejected(e, n)
  {
    RunFromAppend(ctx, a, b, 0);
  }
}
