/**
 * Clients of RequestObservable built with a keyed callback, each one a
 * complete cycle with the effects it must produce: success, failure with
 * retry, cancel, the subscribe guard, override, and what the retry click
 * does because it bypasses subscribe.
 */
module Scenarios {
  import opened Lifecycle
  import opened Runs
  import opened Observable

  /** subscribe(callback), then the call succeeds. */
  method ResponseCycle()
  {
    var r := new RequestObservable.WithSwitch(true);
    r.SubscribeDefault();
    assert r.trace == [KeyedBefore(0)];
    var subscribed := r.IsSubscribed();
    assert subscribed;
    r.DeliverResponse();
    assert r.trace == [KeyedBefore(0), Response(0, true), KeyedAfter(0, true)];
    var unsubscribed := r.IsUnsubscribed();
    assert unsubscribed && r.request.None?;
  }

  /** With retry enabled, the call fails while still subscribed. */
  method FailureCycleShowsRetry()
  {
    var r := new RequestObservable.WithSwitch(true);
    r.EnableRetry();
    r.SubscribeDefault();
    r.DeliverFailure();
    assert r.trace == [KeyedBefore(0), Failure(0, true), ShowRetry, KeyedAfter(0, true)];
  }

  /** The single-slot callback gets the same cycle without request codes. */
  method SingleSlotCycle()
  {
    var r := new RequestObservable.WithCallback(true);
    r.SubscribeCode(7);
    r.DeliverResponse();
    assert r.trace == [SingleBefore, Response(0, true), SingleAfter(true)];
  }

  /** unsubscribe() before the call answers cancels it and reports
      complete = false. Should Retrofit then report the cancelled call as a
      failure, the handler still runs, told that the handle is no longer
      subscribed, and no retry is offered. */
  method CancelledCycle()
  {
    var r := new RequestObservable.WithSwitch(true);
    r.EnableRetry();
    r.SubscribeDefault();
    r.Unsubscribe();
    assert r.trace == [KeyedBefore(0), Cancel(0), KeyedAfter(0, false)];
    r.Unsubscribe();
    assert r.trace == [KeyedBefore(0), Cancel(0), KeyedAfter(0, false)];
    r.DeliverFailure();
    assert r.trace == [KeyedBefore(0), Cancel(0), KeyedAfter(0, false), Failure(0, false)];
  }

  /** A second non-override subscribe while subscribed changes nothing. */
  method SecondSubscribeIgnored()
  {
    var r := new RequestObservable.WithSwitch(true);
    r.SubscribeCode(1);
    ghost var before := r.State();
    r.SubscribeCode(2);
    assert r.State() == before && r.trace == [KeyedBefore(1)];
  }

  /** An override subscribe cancels the running cycle, whose after hook comes
      before the new cycle's before hook. */
  method OverrideCycle()
  {
    var r := new RequestObservable.WithSwitch(true);
    r.SubscribeCode(1);
    assert r.trace == [KeyedBefore(1)] && r.subscription == Live(1) && r.request == Some(0) && r.built == 1;
    ghost var st := r.State();
    assert st == Handle(KeyedSlot, false, Some(1), Live(1), Some(0), 1, true);
    r.Subscribe(2, true);
    OverrideEvents(st);
    OverrideHandle(st);
    assert r.trace == [KeyedBefore(1)] + [Cancel(0), KeyedAfter(1, false), KeyedBefore(2)];
    assert r.subscription == Live(2) && r.request == Some(1);
    ConsFour(KeyedBefore(1), Cancel(0), KeyedAfter(1, false), KeyedBefore(2));
    assert r.trace == [KeyedBefore(1), Cancel(0), KeyedAfter(1, false), KeyedBefore(2)];
  }

  /** Unfolding helper: the literal concatenation, proved where nothing else
      is in scope, because proving it inside OverrideCycle is costly. */
  lemma ConsFour(a: Event, b: Event, c: Event, d: Event)
    ensures [a] + [b, c, d] == [a, b, c, d]
  {
  }

  lemma OverrideEvents(h: Handle)
    requires h == Handle(KeyedSlot, false, Some(1), Live(1), Some(0), 1, true)
    ensures Subscribe(h, 2, true).events == [Cancel(0), KeyedAfter(1, false), KeyedBefore(2)]
  {
    var c: seq<Event> := [Cancel(0)];
    var a: seq<Event> := [KeyedAfter(1, false)];
    var b: seq<Event> := [KeyedBefore(2)];
    assert IsSubscribed(h);
    assert (if h.request.Some? then [Cancel(h.request.value)] else []) == c;
    assert AfterHook(h.notifier, h.slot.code, false) == a;
    assert BeforeHook(h.notifier, 2) == b;
    assert c + a + b == [Cancel(0), KeyedAfter(1, false), KeyedBefore(2)];
  }

  lemma OverrideHandle(h: Handle)
    requires h == Handle(KeyedSlot, false, Some(1), Live(1), Some(0), 1, true)
    ensures Subscribe(h, 2, true).handle.slot == Live(2) && Subscribe(h, 2, true).handle.request == Some(1)
  {
    OverrideOutcome(h, 2);
  }

  /** The retry click re-subscribes without a before hook, so the retried
      cycle's after hook has no before hook to close: the pairing that the
      guarded operations keep is lost once the retry control is used. */
  method RetryCycleUnpaired()
  {
    var r := new RequestObservable.WithSwitch(true);
    r.EnableRetry();
    r.SubscribeCode(5);
    assert r.trace == [KeyedBefore(5)] && r.subscription == Live(5) && r.request == Some(0) && r.built == 1;
    assert AfterHook(KeyedSlot, 5, true) == [KeyedAfter(5, true)];
    r.DeliverFailure();
    assert r.trace == [KeyedBefore(5)] + [Failure(0, true)] + [ShowRetry] + [KeyedAfter(5, true)];
    assert r.subscription == Ended(5) && r.request.None? && r.observed == Some(5) && r.complete;
    r.RetryClick();
    assert r.subscription == Live(5) && r.request == Some(1) && r.complete;
    ghost var t := r.trace;
    r.DeliverResponse();
    assert r.trace == t + [Response(1, true)] + [KeyedAfter(5, true)];
    UnpairedRetryTrace(r.trace);
  }

  lemma UnpairedRetryTrace(es: seq<Event>)
    requires es == [KeyedBefore(5)] + [Failure(0, true)] + [ShowRetry] + [KeyedAfter(5, true)]
                   + [Response(1, true)] + [KeyedAfter(5, true)]
    ensures Hooks(es) == [KeyedBefore(5), KeyedAfter(5, true), KeyedAfter(5, true)]
    ensures !Paired(Hooks(es))
  {
    var e4 := [KeyedBefore(5)] + [Failure(0, true)] + [ShowRetry] + [KeyedAfter(5, true)];
    FailedCycleHooks(e4);
    var e5 := e4 + [Response(1, true)];
    HooksSnoc(e4, Response(1, true));
    HooksSnoc(e5, KeyedAfter(5, true));
    var hs := [KeyedBefore(5), KeyedAfter(5, true), KeyedAfter(5, true)];
    assert Hooks(es) == hs;
    assert !IsBefore(hs[2]);
  }

  /** The hooks of the failed first cycle: its before and after hook. */
  lemma FailedCycleHooks(es: seq<Event>)
    requires es == [KeyedBefore(5)] + [Failure(0, true)] + [ShowRetry] + [KeyedAfter(5, true)]
    ensures Hooks(es) == [KeyedBefore(5), KeyedAfter(5, true)]
  {
    var e1: seq<Event> := [KeyedBefore(5)];
    var e2 := e1 + [Failure(0, true)];
    var e3 := e2 + [ShowRetry];
    HooksSnoc([], KeyedBefore(5));
    assert [] + [KeyedBefore(5)] == e1;
    HooksSnoc(e1, Failure(0, true));
    HooksSnoc(e2, ShowRetry);
    HooksSnoc(e3, KeyedAfter(5, true));
  }

  lemma HooksSnoc(es: seq<Event>, e: Event)
    ensures Hooks(es + [e]) == Hooks(es) + (if IsHook(e) then [e] else [])
  {
    assert (es + [e])[..|es|] == es;
  }

  /** The retry click subscribes whatever observable was built last: after a
      failed request 0 and a new request 1 it repeats request 1, and the
      still live subscription of request 1 is dropped without its teardown,
      so that call is never cancelled. */
  method RetryRepeatsLatestRequest()
  {
    var r := new RequestObservable.WithSwitch(true);
    r.EnableRetry();
    r.SubscribeCode(0);
    assert r.trace == [KeyedBefore(0)] && r.subscription == Live(0) && r.request == Some(0) && r.built == 1;
    r.DeliverFailure();
    assert r.trace == [KeyedBefore(0), Failure(0, true), ShowRetry, KeyedAfter(0, true)];
    assert r.subscription == Ended(0) && r.request.None? && r.built == 1;
    r.SubscribeCode(1);
    assert r.subscription == Live(1) && r.request == Some(1) && r.observed == Some(1) && r.built == 2;
    r.RetryClick();
    assert r.subscription == Live(1) && r.request == Some(2) && r.built == 3;
    r.Unsubscribe();
    assert r.trace == [KeyedBefore(0), Failure(0, true), ShowRetry, KeyedAfter(0, true),
                       KeyedBefore(1), Cancel(2), KeyedAfter(1, false)];
    assert Cancel(1) !in r.trace;
  }
}
