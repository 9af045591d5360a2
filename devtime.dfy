/** The poller of package devtime.

    Time is not modelled: what happens while `Wait` runs is given as the
    finite sequence of events its `select` takes, in the order it takes them
    (a tick of the ticker, or the context becoming done with some error).
    The check is an oracle that may depend on the context it is handed and on
    how many times it has been called before (the tests' checks count their
    calls). When the events run out before `Wait` returns, `Wait` is still
    blocked in its `select` and the model reports `StillWaiting`. */
module DevTime {
  import opened Errors
  import opened DevCheck

  /** `time.Duration`, in nanoseconds. */
  type Duration = int

  const Second: Duration := 1_000_000_000

  /** `DeadlineExceededErr`, the cause attached to the poller's own deadline. */
  const DeadlineExceededErr: Error := Leaf("set deadline exceeded")

  /** A `context.Context` as far as the poller shapes it. */
  datatype Context =
    | Background
    | WithCancel(parent: Context, id: nat)
    | WithTimeoutCause(parent: Context, timeout: Duration, cause: Error)

  /** The cause the nearest deadline on the context chain carries. */
  function DeadlineCause(ctx: Context): Option<Error>
  {
    match ctx
    case Background => None
    case WithCancel(parent, _) => DeadlineCause(parent)
    case WithTimeoutCause(_, _, cause) => Some(cause)
  }

  /** `Poller`; its Clock is the source of the Tick events. */
  datatype Poller = Poller(maxWaitDuration: Duration, pollInterval: Duration)

  datatype Event = Tick | Done(err: Error)

  datatype WaitOutcome = Returned(err: Option<Error>) | StillWaiting

  /** A check as the poller calls it: the context, and the number of earlier calls. */
  type PollCheck = (Context, nat) -> CheckResult

  /** The context `Wait` hands to the check. */
  function CheckContext(p: Poller, ctx: Context): Context
  {
    if p.maxWaitDuration != 0 then WithTimeoutCause(ctx, p.maxWaitDuration, DeadlineExceededErr) else ctx
  }

  /** With a maximum wait the check gets a context of its own whose deadline
      carries DeadlineExceededErr as its cause; without one it gets the
      caller's. Deadlines are not modelled as instants: when the caller's
      context already has an earlier deadline, `context.WithTimeoutCause`
      returns a plain cancelable child, whose deadline is the caller's and
      whose cause is not DeadlineExceededErr; this lemma does not cover it. */
  lemma CheckContextCarriesDeadlineCause(p: Poller, ctx: Context)
    ensures p.maxWaitDuration != 0 ==> CheckContext(p, ctx) != ctx && DeadlineCause(CheckContext(p, ctx)) == Some(DeadlineExceededErr)
    ensures p.maxWaitDuration == 0 ==> CheckContext(p, ctx) == ctx
  {
    if p.maxWaitDuration != 0 {
      assert ctx < CheckContext(p, ctx);
    }
  }

  /** The result of running the loop on some events: how it ended, how many
      times the check had been called in all, and how many events it took. */
  datatype PollRun = PollRun(outcome: WaitOutcome, calls: nat, consumed: nat)

  /** Reference semantics of the `for { select }` loop, starting after `calls`
      earlier check calls. */
  function Run(events: seq<Event>, ctx: Context, check: PollCheck, calls: nat): (r: PollRun)
    ensures calls <= r.calls && r.consumed <= |events|
    decreases |events|
  {
    if events == [] then PollRun(StillWaiting, calls, 0)
    else match events[0]
      case Done(e) => PollRun(Returned(Some(e)), calls, 1)
      case Tick =>
        var res := check(ctx, calls);
        if res.err.Some? then PollRun(Returned(res.err), calls + 1, 1)
        else if res.success then PollRun(Returned(None), calls + 1, 1)
        else
          var rest := Run(events[1..], ctx, check, calls + 1);
          PollRun(rest.outcome, rest.calls, rest.consumed + 1)
  }

  function CountTicks(events: seq<Event>): nat
  {
    if events == [] then 0 else (if events[0].Tick? then 1 else 0) + CountTicks(events[1..])
  }

  /** The check is called once per tick taken and at no other time; Wait is
      still waiting exactly when every event was a tick answered "not ready",
      and then it has taken them all. */
  lemma {:induction false} RunCallsOncePerTick(events: seq<Event>, ctx: Context, check: PollCheck, calls: nat)
    ensures var r := Run(events, ctx, check, calls);
      r.calls == calls + CountTicks(events[..r.consumed]) &&
      (r.outcome.StillWaiting? ==> r.consumed == |events|) &&
      (r.outcome.StillWaiting? <==>
         (forall i :: 0 <= i < |events| ==> events[i].Tick?) &&
         (forall j :: calls <= j < r.calls ==> check(ctx, j) == NotReady))
  {
    if events != [] {
      var r := Run(events, ctx, check, calls);
      assert events[..r.consumed][0] == events[0];
      if events[0].Tick? && check(ctx, calls) == NotReady {
        var rest := Run(events[1..], ctx, check, calls + 1);
        RunCallsOncePerTick(events[1..], ctx, check, calls + 1);
        assert events[..r.consumed][1..] == events[1..][..rest.consumed];
        forall i | 0 <= i < |events| - 1 ensures events[1..][i] == events[i + 1] { }
      } else {
        assert events[..r.consumed] == [events[0]];
      }
    }
  }

  /** An error returned by Wait is verbatim either the error of a done context
      it took or the error some check call returned. */
  lemma {:induction false} RunErrorOrigin(events: seq<Event>, ctx: Context, check: PollCheck, calls: nat, e: Error)
    requires Run(events, ctx, check, calls).outcome == Returned(Some(e))
    ensures (exists i :: 0 <= i < |events| && events[i] == Done(e)) ||
            (exists j :: calls <= j < Run(events, ctx, check, calls).calls && check(ctx, j).err == Some(e))
  {
    if events[0].Tick? && check(ctx, calls).err.None? {
      RunErrorOrigin(events[1..], ctx, check, calls + 1, e);
      if exists i :: 0 <= i < |events[1..]| && events[1..][i] == Done(e) {
        var i :| 0 <= i < |events[1..]| && events[1..][i] == Done(e);
        assert events[i + 1] == Done(e);
      }
    } else if events[0].Tick? {
      assert check(ctx, calls).err == Some(e);
    } else {
      assert events[0] == Done(e);
    }
  }

  /** While the check reports plain not-ready, every tick just leads to the next
      event: after n ticks the loop is where it would be starting n calls later. */
  lemma {:induction false} RunKeepsPollingWhileNotReady(events: seq<Event>, ctx: Context, check: PollCheck, calls: nat, n: nat)
    requires n <= |events|
    requires forall i :: 0 <= i < n ==> events[i] == Tick
    requires forall j :: calls <= j < calls + n ==> check(ctx, j) == NotReady
    ensures var rest := Run(events[n..], ctx, check, calls + n);
      Run(events, ctx, check, calls) == PollRun(rest.outcome, rest.calls, rest.consumed + n)
  {
    if n > 0 {
      assert events[0] == Tick && check(ctx, calls) == NotReady;
      RunKeepsPollingWhileNotReady(events[1..], ctx, check, calls + 1, n - 1);
      assert events[1..][n - 1..] == events[n..];
    }
  }

  /** The number of calls is the index of the first success when the ticks keep
      coming: n not-ready answers then a ready one end Wait with nil after n + 1 calls. */
  lemma SucceedsAtFirstReady(events: seq<Event>, ctx: Context, check: PollCheck, n: nat)
    requires n < |events|
    requires forall i :: 0 <= i <= n ==> events[i] == Tick
    requires forall j :: 0 <= j < n ==> check(ctx, j) == NotReady
    requires check(ctx, n) == Ready
    ensures Run(events, ctx, check, 0) == PollRun(Returned(None), n + 1, n + 1)
  {
    RunKeepsPollingWhileNotReady(events, ctx, check, 0, n);
    assert events[n..][0] == Tick;
  }

  /** A done context after n not-ready ticks ends Wait with the context's error
      and no further call. */
  lemma CancelledAfterNotReady(events: seq<Event>, ctx: Context, check: PollCheck, n: nat, e: Error)
    requires n < |events|
    requires forall i :: 0 <= i < n ==> events[i] == Tick
    requires events[n] == Done(e)
    requires forall j :: 0 <= j < n ==> check(ctx, j) == NotReady
    ensures Run(events, ctx, check, 0) == PollRun(Returned(Some(e)), n, n + 1)
  {
    RunKeepsPollingWhileNotReady(events, ctx, check, 0, n);
    assert events[n..][0] == Done(e);
  }

  /** `Poller.Wait`. `tickerInterval` is the interval the ticker is created
      with, `checkContexts` the context of each check call, and `stops` how
      many times the ticker has been stopped (the deferred `ticker.Stop()`). */
  method Wait(p: Poller, ctx: Context, events: seq<Event>, check: PollCheck)
    returns (outcome: WaitOutcome, ghost tickerInterval: Duration, ghost checkContexts: seq<Context>, ghost stops: nat)
    ensures tickerInterval == if p.pollInterval == 0 then Second else p.pollInterval
    ensures forall i :: 0 <= i < |checkContexts| ==> checkContexts[i] == CheckContext(p, ctx)
    ensures outcome == Run(events, CheckContext(p, ctx), check, 0).outcome
    ensures |checkContexts| == Run(events, CheckContext(p, ctx), check, 0).calls
    ensures stops == if outcome.Returned? then 1 else 0
  {
    var poll := p.pollInterval;
    if poll == 0 {
      poll := Second;
    }
    var c := ctx;
    if p.maxWaitDuration != 0 {
      c := WithTimeoutCause(ctx, p.maxWaitDuration, DeadlineExceededErr);
    }
    tickerInterval := poll;
    checkContexts := [];
    stops := 0;
    ghost var total := Run(events, c, check, 0);

    var calls := 0;
    var i := 0;
    while i < |events|
      invariant 0 <= i <= |events|
      invariant calls == |checkContexts|
      invariant forall k :: 0 <= k < |checkContexts| ==> checkContexts[k] == c
      invariant var rest := Run(events[i..], c, check, calls);
        total.outcome == rest.outcome && total.calls == rest.calls
    {
      match events[i] {
        case Done(e) =>
          stops := stops + 1;
          return Returned(Some(e)), tickerInterval, checkContexts, stops;
        case Tick =>
          var res := check(c, calls);
          checkContexts := checkContexts + [c];
          calls := calls + 1;
          if res.err.Some? {
            stops := stops + 1;
            return Returned(res.err), tickerInterval, checkContexts, stops;
          }
          if res.success {
            stops := stops + 1;
            return Returned(None), tickerInterval, checkContexts, stops;
          }
      }
      assert events[i..][1..] == events[i + 1..];
      i := i + 1;
    }
    outcome := StillWaiting;
  }
}
