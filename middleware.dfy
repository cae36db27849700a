/**
 * Middleware chains (middleware.go): how a chain runs against a context's
 * status, and the set of four per-stage chains a gateway publishes.
 *
 * A handler is a function from what it can see of the context to the action
 * it decides. `TraceAfter` specifies a run of a chain as a left fold over
 * its middlewares; `Execute` is the loop of the source, proved against it.
 */
module Middlewares {

  import opened Actions
  import opened Contexts

  type Handler = View -> Action

  datatype Middleware = Middleware(handler: Handler, ignoreFlags: Action)

  type MiddlewareChain = seq<Middleware>

  /** Whether `m` is skipped while the context's status is `status`. */
  predicate Skipped(m: Middleware, status: Action) {
    m.ignoreFlags & status != 0
  }

  /** Where a run of a chain stands after some prefix of it: the context's
      status, whether a handler rejected, and the positions of the
      middlewares whose handlers were invoked, in invocation order. */
  datatype Trace = Trace(status: Action, rejected: bool, invoked: seq<nat>)

  /** One middleware, at position `k`, applied to the trace so far. */
  function Step(m: Middleware, k: nat, start: View, t: Trace): Trace {
    if t.rejected || Skipped(m, t.status) then t
    else
      var a := m.handler(start.(status := t.status));
      if a == Reject then Trace(t.status, true, t.invoked + [k])
      else Trace(a, false, t.invoked + [k])
  }

  /** The trace after the first `n` middlewares of `chain`, started on a
      context whose view is `start`. */
  function TraceAfter(chain: MiddlewareChain, n: nat, start: View): Trace
    requires n <= |chain|
  {
    if n == 0 then Trace(start.status, false, [])
    else Step(chain[n - 1], n - 1, start, TraceAfter(chain, n - 1, start))
  }

  /** The context's status once the whole chain has run. */
  function FinalStatus(chain: MiddlewareChain, start: View): Action {
    TraceAfter(chain, |chain|, start).status
  }

  /** What `execute` returns. */
  function Outcome(chain: MiddlewareChain, start: View): Action {
    var t := TraceAfter(chain, |chain|, start);
    if t.rejected then Reject else t.status
  }

  /** Whether the handler at position `k` is invoked: no earlier handler
      rejected and the middleware's mask shares no bit with the status. */
  predicate Invoked(chain: MiddlewareChain, start: View, k: nat)
    requires k < |chain|
  {
    var t := TraceAfter(chain, k, start);
    !t.rejected && !Skipped(chain[k], t.status)
  }

  /** What the handler at position `k` returns when it is invoked. */
  function Verdict(chain: MiddlewareChain, start: View, k: nat): Action
    requires k < |chain|
  {
    chain[k].handler(start.(status := TraceAfter(chain, k, start).status))
  }

  /** `chain.execute(ctx)`: runs the chain, writing each non-rejecting
      verdict into the context's status. Nothing but the status changes.
      `invoked` records, beside each handler call, the position of the
      middleware called: they are exactly the positions of the trace. */
  method Execute(chain: MiddlewareChain, ctx: Context) returns (action: Action, ghost invoked: seq<nat>)
    modifies ctx`status
    ensures action == Outcome(chain, old(ctx.Snapshot()))
    ensures ctx.status == FinalStatus(chain, old(ctx.Snapshot()))
    ensures invoked == TraceAfter(chain, |chain|, old(ctx.Snapshot())).invoked
    ensures old(ctx.status) != Reject ==> ctx.status != Reject
  {
    ghost var start := ctx.Snapshot();
    invoked := [];
    for i := 0 to |chain|
      invariant ctx.Snapshot() == start.(status := ctx.status)
      invariant !TraceAfter(chain, i, start).rejected
      invariant TraceAfter(chain, i, start).status == ctx.status
      invariant TraceAfter(chain, i, start).invoked == invoked
    {
      StepFacts(chain, start, i);
      var m := chain[i];
      if Skipped(m, ctx.status) {
        continue;
      }
      var a := m.handler(ctx.Snapshot());
      invoked := invoked + [i];
      if a == Reject {
        RejectedStaysRejected(chain, start, i + 1, |chain|);
        if start.status != Reject {
          StatusNeverBecomesReject(chain, start, |chain|);
        }
        action := a;
        return;
      }
      ctx.status := a;
    }
    if start.status != Reject {
      StatusNeverBecomesReject(chain, start, |chain|);
    }
    action := ctx.status;
  }

  /** What one more middleware does to a run that has not been rejected. */
  lemma StepFacts(chain: MiddlewareChain, start: View, i: nat)
    requires i < |chain| && !TraceAfter(chain, i, start).rejected
    ensures var t := TraceAfter(chain, i, start);
      var t' := TraceAfter(chain, i + 1, start);
      if Skipped(chain[i], t.status) then t' == t
      else if Verdict(chain, start, i) == Reject then t'.rejected && t'.invoked == t.invoked + [i]
      else !t'.rejected && t'.status == Verdict(chain, start, i) && t'.invoked == t.invoked + [i]
  {
  }

  /** Once a handler has rejected, the rest of the chain changes nothing. */
  lemma {:induction false} RejectedStaysRejected(chain: MiddlewareChain, start: View, i: nat, j: nat)
    requires i <= j <= |chain|
    requires TraceAfter(chain, i, start).rejected
    ensures TraceAfter(chain, j, start) == TraceAfter(chain, i, start)
  {
    if i < j {
      RejectedStaysRejected(chain, start, i, j - 1);
    }
  }

  /** Strictly increasing positions, all below `bound`. */
  predicate Ascending(positions: seq<nat>, bound: nat) {
    (forall i :: 0 <= i < |positions| ==> positions[i] < bound) &&
    (forall i, j :: 0 <= i < j < |positions| ==> positions[i] < positions[j])
  }

  /** Handlers run in chain order, each at most once, and only among the
      first `n` middlewares. */
  lemma {:induction false} InvokedInOrder(chain: MiddlewareChain, start: View, n: nat)
    requires n <= |chain|
    ensures Ascending(TraceAfter(chain, n, start).invoked, n)
  {
    if n > 0 {
      InvokedInOrder(chain, start, n - 1);
      var prev := TraceAfter(chain, n - 1, start).invoked;
      var inv := TraceAfter(chain, n, start).invoked;
      assert inv == prev || inv == prev + [n - 1];
    }
  }

  /** A handler is invoked exactly when no earlier handler rejected and its
      middleware is not skipped under the status at that point. */
  lemma {:induction false} InvokedExactly(chain: MiddlewareChain, start: View, n: nat, k: nat)
    requires n <= |chain|
    ensures k in TraceAfter(chain, n, start).invoked <==> k < n && Invoked(chain, start, k)
  {
    if n > 0 {
      InvokedExactly(chain, start, n - 1, k);
      InvokedExactly(chain, start, n - 1, n - 1);
    }
  }

  /** A skipped middleware leaves the status, and everything else, as it
      was. */
  lemma SkippedChangesNothing(chain: MiddlewareChain, start: View, k: nat)
    requires k < |chain|
    requires Skipped(chain[k], TraceAfter(chain, k, start).status)
    ensures TraceAfter(chain, k + 1, start) == TraceAfter(chain, k, start)
  {
  }

  /** A handler that returns `Reject` ends the run: the chain returns
      `Reject`, no later handler is invoked, and the status keeps the value
      it had before that handler ran. */
  lemma RejectStops(chain: MiddlewareChain, start: View, k: nat)
    requires k < |chain| && Invoked(chain, start, k)
    requires Verdict(chain, start, k) == Reject
    ensures Outcome(chain, start) == Reject
    ensures FinalStatus(chain, start) == TraceAfter(chain, k, start).status
    ensures forall j :: k < j < |chain| ==> j !in TraceAfter(chain, |chain|, start).invoked
  {
    RejectedStaysRejected(chain, start, k + 1, |chain|);
    InvokedInOrder(chain, start, k + 1);
  }

  /** Re-judgment: if no handler rejected, the status is the verdict of the
      last handler invoked, or the starting status if none was. */
  lemma {:induction false} FinalStatusIsLastVerdict(chain: MiddlewareChain, start: View, n: nat)
    requires n <= |chain|
    requires !TraceAfter(chain, n, start).rejected
    ensures var t := TraceAfter(chain, n, start);
      |t.invoked| > 0 ==>
        (t.invoked[|t.invoked| - 1] < |chain| &&
         t.status == Verdict(chain, start, t.invoked[|t.invoked| - 1]))
    ensures var t := TraceAfter(chain, n, start);
      |t.invoked| == 0 ==> t.status == start.status
  {
    if n > 0 {
      assert !TraceAfter(chain, n - 1, start).rejected;
      FinalStatusIsLastVerdict(chain, start, n - 1);
    }
  }

  /** A chain with no rejection returns exactly the final status; an empty
      chain returns the starting status. */
  lemma NoRejectReturnsStatus(chain: MiddlewareChain, start: View)
    requires !TraceAfter(chain, |chain|, start).rejected
    ensures Outcome(chain, start) == FinalStatus(chain, start)
    ensures chain == [] ==> Outcome(chain, start) == start.status
  {
  }

  /** No run turns a status other than `Reject` into `Reject`: a rejecting
      handler stops the chain without writing the status. */
  lemma {:induction false} StatusNeverBecomesReject(chain: MiddlewareChain, start: View, n: nat)
    requires n <= |chain|
    requires start.status != Reject
    ensures TraceAfter(chain, n, start).status != Reject
  {
    if n > 0 {
      StatusNeverBecomesReject(chain, start, n - 1);
    }
  }

  /** From a status other than `Reject`, a chain returns `Reject` exactly
      when one of its handlers rejected. */
  lemma RejectOutcomeIffHandlerRejected(chain: MiddlewareChain, start: View)
    requires start.status != Reject
    ensures Outcome(chain, start) == Reject <==>
      exists k :: 0 <= k < |chain| && Invoked(chain, start, k) && Verdict(chain, start, k) == Reject
  {
    if Outcome(chain, start) == Reject {
      StatusNeverBecomesReject(chain, start, |chain|);
      var k := FirstRejection(chain, start, |chain|);
    } else {
      forall k | 0 <= k < |chain| && Invoked(chain, start, k)
        ensures Verdict(chain, start, k) != Reject
      {
        if Verdict(chain, start, k) == Reject {
          RejectStops(chain, start, k);
        }
      }
    }
  }

  /** A rejection within a prefix persists in every longer prefix. */
  lemma RejectedPersists(chain: MiddlewareChain, start: View, i: nat, j: nat)
    requires i <= j <= |chain|
    ensures TraceAfter(chain, i, start).rejected ==> TraceAfter(chain, j, start).rejected
  {
    if TraceAfter(chain, i, start).rejected {
      RejectedStaysRejected(chain, start, i, j);
    }
  }

  /** A rejected trace was rejected by an invoked handler, and no invoked
      handler before it rejected. */
  lemma {:induction false} FirstRejection(chain: MiddlewareChain, start: View, n: nat) returns (k: nat)
    requires n <= |chain|
    requires TraceAfter(chain, n, start).rejected
    ensures k < n && Invoked(chain, start, k) && Verdict(chain, start, k) == Reject
    ensures forall j :: 0 <= j < k && Invoked(chain, start, j) ==> Verdict(chain, start, j) != Reject
  {
    if TraceAfter(chain, n - 1, start).rejected {
      k := FirstRejection(chain, start, n - 1);
    } else {
      k := n - 1;
      forall j | 0 <= j < k && Invoked(chain, start, j)
        ensures Verdict(chain, start, j) != Reject
      {
        StepFacts(chain, start, j);
        RejectedPersists(chain, start, j + 1, k);
      }
    }
  }


  /** A handler that decides `a` whatever it sees. */
  function Always(a: Action): Handler {
    v => a
  }

  /** A middleware that sets Deliver makes a later one masked with
      IgnoreDeliver skip, and a third may still re-judge to Quarantine. */
  lemma RejudgmentScenario(start: View)
    requires start.status == Pass
    ensures var chain := [Middleware(Always(Deliver), 0), Middleware(Always(Pass), IgnoreDeliver),
                          Middleware(Always(Quarantine), 0)];
      Outcome(chain, start) == Quarantine && TraceAfter(chain, 3, start).invoked == [0, 2]
  {
    var chain := [Middleware(Always(Deliver), 0), Middleware(Always(Pass), IgnoreDeliver),
                  Middleware(Always(Quarantine), 0)];
    assert TraceAfter(chain, 1, start) == Trace(Deliver, false, [0]);
    assert TraceAfter(chain, 2, start) == Trace(Deliver, false, [0]);
    assert TraceAfter(chain, 3, start) == Trace(Quarantine, false, [0, 2]);
  }

  /** A rejection stops the chain before the next handler and keeps the
      status it found. */
  lemma RejectScenario(start: View)
    requires start.status == Pass
    ensures var chain := [Middleware(Always(Reject), 0), Middleware(Always(Pass), 0)];
      Outcome(chain, start) == Reject && FinalStatus(chain, start) == Pass &&
      TraceAfter(chain, 2, start).invoked == [0]
  {
    var chain := [Middleware(Always(Reject), 0), Middleware(Always(Pass), 0)];
    assert TraceAfter(chain, 1, start) == Trace(Pass, true, [0]);
    assert TraceAfter(chain, 2, start) == Trace(Pass, true, [0]);
  }

  /** A middleware masked with both dispositions is skipped under
      Quarantine and the status stays Quarantine. */
  lemma SkipScenario(start: View)
    requires start.status == Quarantine
    ensures var chain := [Middleware(Always(Pass), IgnoreDeliver | IgnoreQuarantine)];
      Outcome(chain, start) == Quarantine && TraceAfter(chain, 1, start).invoked == []
  {
  }

  /** The middleware `register` stores: a zero mask becomes the default
      mask, any other mask is kept. */
  function WithDefaultFlags(m: Middleware): (r: Middleware)
    ensures r.handler == m.handler
    ensures r.ignoreFlags != 0
    ensures m.ignoreFlags != 0 ==> r == m
    ensures m.ignoreFlags == 0 ==> r.ignoreFlags == DefaultIgnoreFlags
  {
    if m.ignoreFlags == 0 then m.(ignoreFlags := DefaultIgnoreFlags) else m
  }

  /** A middleware registered without a mask runs only while no disposition
      (Deliver or Quarantine) has been decided. */
  lemma DefaultMaskSkipsDispositions(m: Middleware, status: Action)
    requires m.ignoreFlags == 0
    ensures Skipped(WithDefaultFlags(m), status) <==> status & (Deliver | Quarantine) != 0
    ensures !Skipped(WithDefaultFlags(m), Pass) && Skipped(WithDefaultFlags(m), Deliver)
    ensures Skipped(WithDefaultFlags(m), Quarantine)
  {
  }

  /** The four protocol stages that have a chain. */
  datatype Stage = Conn | MailFrom | RcptTo | Data

  /** `middlewareChains`: one chain per stage. */
  class MiddlewareChains {
    var connChain: MiddlewareChain
    var mailFromChain: MiddlewareChain
    var rcptToChain: MiddlewareChain
    var dataChain: MiddlewareChain

    /** `NewMiddlewareChains`: all four chains empty. */
    constructor ()
      ensures connChain == [] && mailFromChain == [] && rcptToChain == [] && dataChain == []
    {
      connChain, mailFromChain, rcptToChain, dataChain := [], [], [], [];
    }

    function Chain(stage: Stage): MiddlewareChain
      reads this
    {
      match stage
      case Conn => connChain
      case MailFrom => mailFromChain
      case RcptTo => rcptToChain
      case Data => dataChain
    }

    /** Appends `m`, with the default mask if it has none, to the chain of
        `stage`; the other chains are unchanged. */
    method Register(stage: Stage, m: Middleware)
      modifies this
      ensures Chain(stage) == old(Chain(stage)) + [WithDefaultFlags(m)]
      ensures forall s :: s != stage ==> Chain(s) == old(Chain(s))
    {
      var r := m;
      if r.ignoreFlags == 0 {
        r := r.(ignoreFlags := DefaultIgnoreFlags);
      }
      match stage
      case Conn => connChain := connChain + [r];
      case MailFrom => mailFromChain := mailFromChain + [r];
      case RcptTo => rcptToChain := rcptToChain + [r];
      case Data => dataChain := dataChain + [r];
    }

    method RegisterConnMiddleware(m: Middleware)
      modifies this
      ensures connChain == old(connChain) + [WithDefaultFlags(m)]
      ensures mailFromChain == old(mailFromChain) && rcptToChain == old(rcptToChain) && dataChain == old(dataChain)
    {
      Register(Conn, m);
      assert Chain(MailFrom) == old(Chain(MailFrom));
      assert Chain(RcptTo) == old(Chain(RcptTo));
      assert Chain(Data) == old(Chain(Data));
    }

    method RegisterMailFromMiddleware(m: Middleware)
      modifies this
      ensures mailFromChain == old(mailFromChain) + [WithDefaultFlags(m)]
      ensures connChain == old(connChain) && rcptToChain == old(rcptToChain) && dataChain == old(dataChain)
    {
      Register(MailFrom, m);
      assert Chain(Conn) == old(Chain(Conn));
      assert Chain(RcptTo) == old(Chain(RcptTo));
      assert Chain(Data) == old(Chain(Data));
    }

    method RegisterRcptToMiddleware(m: Middleware)
      modifies this
      ensures rcptToChain == old(rcptToChain) + [WithDefaultFlags(m)]
      ensures connChain == old(connChain) && mailFromChain == old(mailFromChain) && dataChain == old(dataChain)
    {
      Register(RcptTo, m);
      assert Chain(Conn) == old(Chain(Conn));
      assert Chain(MailFrom) == old(Chain(MailFrom));
      assert Chain(Data) == old(Chain(Data));
    }

    method RegisterDataMiddleware(m: Middleware)
      modifies this
      ensures dataChain == old(dataChain) + [WithDefaultFlags(m)]
      ensures connChain == old(connChain) && mailFromChain == old(mailFromChain) && rcptToChain == old(rcptToChain)
    {
      Register(Data, m);
      assert Chain(Conn) == old(Chain(Conn));
      assert Chain(MailFrom) == old(Chain(MailFrom));
      assert Chain(RcptTo) == old(Chain(RcptTo));
    }
  }
}
