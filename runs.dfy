/**
 * Sequences of operations on one handle, and what they guarantee: the
 * invariant is kept, lifecycle hooks reach only the configured callback and,
 * through the guarded API, come in before/after pairs that track whether the
 * handle is subscribed, and no call is delivered or cancelled twice.
 */
module Runs {
  import opened Lifecycle

  /** Everything that can happen to a handle: its public operations and the
      two ways the pending call can answer. */
  datatype Op =
    | OpSubscribe(code: int, override: bool)
    | OpProcessSubscribe(code: int)
    | OpUnsubscribe
    | OpEnableRetry
    | OpRetryClick
    | OpResponse
    | OpFailure

  /** Whether `op` can happen in state `h`: a call answers only while one is
      pending, and the retry control exists only after enableRetry and does
      not dereference a null mObservable. */
  predicate Enabled(h: Handle, op: Op)
  {
    match op
    case OpResponse => h.request.Some?
    case OpFailure => h.request.Some?
    case OpRetryClick => h.retryEnabled && h.observed.Some?
    case _ => true
  }

  function Step(h: Handle, op: Op): (r: Option<Outcome>)
    ensures r.Some? <==> Enabled(h, op)
    ensures r.Some? ==> r.value.handle.notifier == h.notifier
    ensures r.Some? && Inv(h) ==> Inv(r.value.handle)
  {
    match op
    case OpSubscribe(code, override) => Some(Subscribe(h, code, override))
    case OpProcessSubscribe(code) => Some(ProcessSubscribe(h, code))
    case OpUnsubscribe => Some(Unsubscribe(h))
    case OpEnableRetry => Some(EnableRetry(h))
    case OpRetryClick => if h.retryEnabled && h.observed.Some? then Some(RetryClick(h)) else None
    case OpResponse => if h.request.Some? then Some(DeliverResponse(h)) else None
    case OpFailure => if h.request.Some? then Some(DeliverFailure(h)) else None
  }

  /** The state after `ops` and all effects in order; None if some operation
      was not enabled when its turn came. */
  function Run(h: Handle, ops: seq<Op>): Option<Outcome>
    decreases |ops|
  {
    if ops == [] then Some(Outcome(h, []))
    else Then(Run(h, ops[..|ops| - 1]), ops[|ops| - 1])
  }

  /** One more operation after a run. */
  function Then(r: Option<Outcome>, op: Op): Option<Outcome>
  {
    match r
    case None => None
    case Some(o) =>
      match Step(o.handle, op)
      case None => None
      case Some(s) => Some(Outcome(s.handle, o.events + s.events))
  }

  /** The operations that go through subscribe's guard: everything except the
      retry click and a direct call of proccessSubscribe. */
  predicate Guarded(op: Op)
  {
    !op.OpRetryClick? && !op.OpProcessSubscribe?
  }

  // ---------------------------------------------------------------------
  // Projections of a trace

  predicate IsBefore(e: Event) { e.SingleBefore? || e.KeyedBefore? }

  predicate IsAfter(e: Event) { e.SingleAfter? || e.KeyedAfter? }

  predicate IsHook(e: Event) { IsBefore(e) || IsAfter(e) }

  /** A hook event that the callback of variant `n` can receive. */
  predicate Addressed(e: Event, n: Notifier)
  {
    match n
    case SingleSlot => e.SingleBefore? || e.SingleAfter?
    case KeyedSlot => e.KeyedBefore? || e.KeyedAfter?
    case Silent => false
  }

  /** After hook `a` closes the cycle that before hook `b` opened: same
      callback, and for the keyed callback the same request code. */
  predicate Closes(b: Event, a: Event)
  {
    (b.SingleBefore? && a.SingleAfter?) ||
    (b.KeyedBefore? && a.KeyedAfter? && a.code == b.code)
  }

  /** Before, after, before, after, ...: every after closes the before just
      ahead of it. */
  predicate Paired(hs: seq<Event>)
    decreases |hs|
  {
    if hs == [] then true
    else if |hs| % 2 == 1 then IsBefore(hs[|hs| - 1]) && Paired(hs[..|hs| - 1])
    else Closes(hs[|hs| - 2], hs[|hs| - 1]) && Paired(hs[..|hs| - 1])
  }

  function Hooks(es: seq<Event>): (hs: seq<Event>)
    ensures forall e | e in hs :: IsHook(e) && e in es
  {
    if es == [] then []
    else Hooks(es[..|es| - 1]) + (if IsHook(es[|es| - 1]) then [es[|es| - 1]] else [])
  }

  /** The calls handed to onResponse or onFailure, in order. */
  function Delivered(es: seq<Event>): seq<nat>
  {
    if es == [] then []
    else
      var e := es[|es| - 1];
      Delivered(es[..|es| - 1]) + (if e.Response? || e.Failure? then [e.call] else [])
  }

  /** The calls cancelled, in order. */
  function Cancelled(es: seq<Event>): seq<nat>
  {
    if es == [] then []
    else
      var e := es[|es| - 1];
      Cancelled(es[..|es| - 1]) + (if e.Cancel? then [e.call] else [])
  }

  predicate NoDuplicates(s: seq<nat>)
  {
    forall i, j | 0 <= i < j < |s| :: s[i] != s[j]
  }

  // ---------------------------------------------------------------------
  // Projections distribute over concatenation

  lemma {:induction false} HooksAppend(a: seq<Event>, b: seq<Event>)
    ensures Hooks(a + b) == Hooks(a) + Hooks(b)
    decreases |b|
  {
    if b == [] {
      assert a + b == a;
    } else {
      var b' := b[..|b| - 1];
      assert (a + b)[..|a + b| - 1] == a + b';
      HooksAppend(a, b');
    }
  }

  lemma {:induction false} DeliveredAppend(a: seq<Event>, b: seq<Event>)
    ensures Delivered(a + b) == Delivered(a) + Delivered(b)
    decreases |b|
  {
    if b == [] {
      assert a + b == a;
    } else {
      var b' := b[..|b| - 1];
      assert (a + b)[..|a + b| - 1] == a + b';
      DeliveredAppend(a, b');
    }
  }

  lemma {:induction false} CancelledAppend(a: seq<Event>, b: seq<Event>)
    ensures Cancelled(a + b) == Cancelled(a) + Cancelled(b)
    decreases |b|
  {
    if b == [] {
      assert a + b == a;
    } else {
      var b' := b[..|b| - 1];
      assert (a + b)[..|a + b| - 1] == a + b';
      CancelledAppend(a, b');
    }
  }

  // ---------------------------------------------------------------------
  // The invariant over any run

  /** Whatever operations happen, the handle keeps Inv: the stored
      observable belongs to the subscription and a pending call is the last
      one built. */
  lemma {:induction false} RunKeepsInv(h: Handle, ops: seq<Op>)
    requires Inv(h) && Run(h, ops).Some?
    ensures Inv(Run(h, ops).value.handle)
    decreases |ops|
  {
    if ops != [] {
      RunKeepsInv(h, ops[..|ops| - 1]);
    }
  }

  // ---------------------------------------------------------------------
  // Hooks reach only the configured callback

  /** Every hook among `es` is addressed to `n`. */
  predicate HooksTo(es: seq<Event>, n: Notifier)
  {
    forall e | e in es && IsHook(e) :: Addressed(e, n)
  }

  /** Every hook event of a run goes to the callback the handle was built
      with; a handle built with null callbacks reports no hook at all. */
  lemma {:induction false} HooksAddressed(h: Handle, ops: seq<Op>)
    requires Run(h, ops).Some?
    ensures HooksTo(Run(h, ops).value.events, h.notifier)
    ensures h.notifier == Silent ==> forall e | e in Run(h, ops).value.events :: !IsHook(e)
    decreases |ops|
  {
    if ops != [] {
      var pre := ops[..|ops| - 1];
      HooksAddressed(h, pre);
      RunKeepsNotifier(h, pre);
      var o := Run(h, pre).value;
      var s := Step(o.handle, ops[|ops| - 1]).value;
      StepEventsAddressed(o.handle, ops[|ops| - 1]);
      HooksToAppend(o.events, s.events, h.notifier);
    }
  }

  lemma {:induction false} RunKeepsNotifier(h: Handle, ops: seq<Op>)
    requires Run(h, ops).Some?
    ensures Run(h, ops).value.handle.notifier == h.notifier
    decreases |ops|
  {
    if ops != [] {
      RunKeepsNotifier(h, ops[..|ops| - 1]);
    }
  }

  lemma HooksOfHook(t: seq<Event>, hook: seq<Event>, n: Notifier)
    requires forall e | e in t :: !IsHook(e)
    requires forall e | e in hook :: Addressed(e, n)
    ensures Hooks(t + hook) == hook
  {
    HooksAppend(t, hook);
    NoHooks(t);
    AllHooks(hook, n);
  }

  lemma {:induction false} NoHooks(t: seq<Event>)
    requires forall e | e in t :: !IsHook(e)
    ensures Hooks(t) == []
    decreases |t|
  {
    if t != [] {
      assert t[|t| - 1] in t;
      forall e | e in t[..|t| - 1] ensures !IsHook(e) {
        assert e in t;
      }
      NoHooks(t[..|t| - 1]);
    }
  }

  lemma {:induction false} AllHooks(t: seq<Event>, n: Notifier)
    requires forall e | e in t :: Addressed(e, n)
    ensures Hooks(t) == t
    decreases |t|
  {
    if t != [] {
      assert t[|t| - 1] in t;
      forall e | e in t[..|t| - 1] ensures Addressed(e, n) {
        assert e in t;
      }
      AllHooks(t[..|t| - 1], n);
      assert t[..|t| - 1] + [t[|t| - 1]] == t;
    }
  }

  lemma HooksToAppend(a: seq<Event>, b: seq<Event>, n: Notifier)
    requires HooksTo(a, n) && HooksTo(b, n)
    ensures HooksTo(a + b, n)
  {
  }

  lemma StepEventsAddressed(h: Handle, op: Op)
    requires Step(h, op).Some?
    ensures HooksTo(Step(h, op).value.events, h.notifier)
  {
    var n := h.notifier;
    var cancel: seq<Event> := if h.request.Some? then [Cancel(h.request.value)] else [];
    assert HooksTo(cancel, n);
    match op {
      case OpSubscribe(code, override) =>
        assert HooksTo(BeforeHook(n, code), n);
        if override && IsSubscribed(h) {
          assert HooksTo(AfterHook(n, h.slot.code, false), n);
          HooksToAppend(cancel, AfterHook(n, h.slot.code, false), n);
          HooksToAppend(cancel + AfterHook(n, h.slot.code, false), BeforeHook(n, code), n);
        }
      case OpProcessSubscribe(code) =>
        assert HooksTo(BeforeHook(n, code), n);
      case OpUnsubscribe =>
        if IsSubscribed(h) {
          assert HooksTo(AfterHook(n, h.slot.code, false), n);
          HooksToAppend(cancel, AfterHook(n, h.slot.code, false), n);
        }
      case OpEnableRetry =>
      case OpRetryClick =>
      case OpResponse =>
        var end := EndSubscription(h.(request := None));
        assert HooksTo(end.events, n);
        HooksToAppend([Response(h.request.value, IsSubscribed(h))], end.events, n);
      case OpFailure =>
        var end := EndSubscription(h.(request := None));
        var retry: seq<Event> := if IsSubscribed(h) && h.retryEnabled then [ShowRetry] else [];
        assert HooksTo(end.events, n);
        HooksToAppend([Failure(h.request.value, IsSubscribed(h))], retry, n);
        HooksToAppend([Failure(h.request.value, IsSubscribed(h))] + retry, end.events, n);
    }
  }

  // ---------------------------------------------------------------------
  // Through the guarded API, hooks come in before/after pairs

  /** What ties the hooks reported so far to the handle: they are paired,
      a cycle is open exactly while the handle is subscribed, and the open
      cycle's before hook is the one for the live subscription's code. */
  predicate Bracketed(hs: seq<Event>, h: Handle)
  {
    Paired(hs) &&
    (h.slot.Live? <==> |hs| % 2 == 1) &&
    (h.slot.Live? ==> [hs[|hs| - 1]] == BeforeHook(h.notifier, h.slot.code))
  }

  lemma PairedOpen(hs: seq<Event>, b: Event)
    requires Paired(hs) && |hs| % 2 == 0 && IsBefore(b)
    ensures Paired(hs + [b])
  {
    assert (hs + [b])[..|hs|] == hs;
  }

  lemma PairedClose(hs: seq<Event>, a: Event)
    requires Paired(hs) && |hs| % 2 == 1 && Closes(hs[|hs| - 1], a)
    ensures Paired(hs + [a])
  {
    assert (hs + [a])[..|hs|] == hs;
  }

  /** An after hook closing the open cycle, behind effects that are not
      hooks. */
  lemma CloseBracket(hs: seq<Event>, h: Handle, t: seq<Event>, complete: bool, h': Handle)
    requires h.notifier != Silent && Bracketed(hs, h) && h.slot.Live?
    requires forall e | e in t :: !IsHook(e)
    requires !h'.slot.Live? && h'.notifier == h.notifier
    ensures Bracketed(hs + Hooks(t + AfterHook(h.notifier, h.slot.code, complete)), h')
  {
    var a := AfterHook(h.notifier, h.slot.code, complete);
    HooksOfHook(t, a, h.notifier);
    AfterCloses(hs, h, complete);
    ClosedBracketed(hs, h, a[0], h');
  }

  /** One after hook closing the open cycle ends it. */
  lemma ClosedBracketed(hs: seq<Event>, h: Handle, x: Event, h': Handle)
    requires Bracketed(hs, h) && h.slot.Live? && Closes(hs[|hs| - 1], x) && !h'.slot.Live?
    ensures Bracketed(hs + [x], h')
  {
    PairedClose(hs, x);
  }

  /** The after hook of the live cycle is one event, closing its open before
      hook. */
  lemma AfterCloses(hs: seq<Event>, h: Handle, complete: bool)
    requires h.notifier != Silent && Bracketed(hs, h) && h.slot.Live?
    ensures var a := AfterHook(h.notifier, h.slot.code, complete);
            |a| == 1 && a == [a[0]] && Closes(hs[|hs| - 1], a[0])
  {
    var last := hs[|hs| - 1];
    if h.notifier == SingleSlot {
      assert last == SingleBefore;
    } else {
      assert last == KeyedBefore(h.slot.code);
    }
  }

  /** A before hook opening a new cycle, when none is open. */
  lemma OpenBracket(hs: seq<Event>, h: Handle, code: int, h': Handle)
    requires h.notifier != Silent && Bracketed(hs, h) && !h.slot.Live?
    requires h'.slot == Live(code) && h'.notifier == h.notifier
    ensures Bracketed(hs + Hooks(BeforeHook(h.notifier, code)), h')
  {
    var b := BeforeHook(h.notifier, code);
    if h.notifier == SingleSlot {
      assert b == [SingleBefore];
    } else {
      assert b == [KeyedBefore(code)];
    }
    HooksOfHook([], b, h.notifier);
    assert [] + b == b;
    PairedOpen(hs, b[0]);
    assert hs + b == hs + [b[0]];
  }

  lemma SubscribeBracketed(hs: seq<Event>, h: Handle, code: int, override: bool)
    requires h.notifier != Silent && Bracketed(hs, h)
    ensures Bracketed(hs + Hooks(Subscribe(h, code, override).events), Subscribe(h, code, override).handle)
  {
    if IsSubscribed(h) && !override {
      assert Subscribe(h, code, override) == Outcome(h, []);
      assert hs + Hooks([]) == hs;
    } else if IsSubscribed(h) {
      OverrideBracketed(hs, h, code);
    } else {
      OpenBracket(hs, h, code, ProcessSubscribe(h, code).handle);
    }
  }

  lemma OverrideBracketed(hs: seq<Event>, h: Handle, code: int)
    requires h.notifier != Silent && Bracketed(hs, h) && IsSubscribed(h)
    ensures Bracketed(hs + Hooks(Subscribe(h, code, true).events), Subscribe(h, code, true).handle)
  {
    var u := Unsubscribe(h);
    var p := ProcessSubscribe(u.handle, code);
    UnsubscribeBracketed(hs, h);
    ProcessBracketed(hs + Hooks(u.events), u.handle, code);
    ChainBracketed(hs, u.events, p.events, p.handle);
    OverrideOutcome(h, code);
  }

  /** Unfolding helper: names the override branch of Subscribe as the
      composition of its two steps, so callers need not unfold Subscribe in
      a context that already holds many facts. */
  lemma OverrideOutcome(h: Handle, code: int)
    ensures var u := Unsubscribe(h); var p := ProcessSubscribe(u.handle, code);
            Subscribe(h, code, true) == Outcome(p.handle, u.events + p.events)
  {
  }

  lemma ChainBracketed(hs: seq<Event>, x: seq<Event>, y: seq<Event>, h: Handle)
    requires Bracketed(hs + Hooks(x) + Hooks(y), h)
    ensures Bracketed(hs + Hooks(x + y), h)
  {
    HooksAppend(x, y);
    assert hs + Hooks(x + y) == hs + Hooks(x) + Hooks(y);
  }

  lemma ProcessBracketed(hs: seq<Event>, h: Handle, code: int)
    requires h.notifier != Silent && Bracketed(hs, h) && !h.slot.Live?
    ensures Bracketed(hs + Hooks(ProcessSubscribe(h, code).events), ProcessSubscribe(h, code).handle)
  {
    OpenBracket(hs, h, code, ProcessSubscribe(h, code).handle);
  }

  lemma UnsubscribeBracketed(hs: seq<Event>, h: Handle)
    requires h.notifier != Silent && Bracketed(hs, h)
    ensures Bracketed(hs + Hooks(Unsubscribe(h).events), Unsubscribe(h).handle)
  {
    if IsSubscribed(h) {
      var cancel := if h.request.Some? then [Cancel(h.request.value)] else [];
      CloseBracket(hs, h, cancel, false, Unsubscribe(h).handle);
    } else {
      assert hs + Hooks([]) == hs;
    }
  }

  lemma ResponseBracketed(hs: seq<Event>, h: Handle)
    requires h.notifier != Silent && Bracketed(hs, h) && h.request.Some?
    ensures Bracketed(hs + Hooks(DeliverResponse(h).events), DeliverResponse(h).handle)
  {
    var d := [Response(h.request.value, IsSubscribed(h))];
    if IsSubscribed(h) {
      CloseBracket(hs, h, d, h.complete, DeliverResponse(h).handle);
    } else {
      NoHooks(d);
      assert hs + [] == hs;
    }
  }

  lemma FailureBracketed(hs: seq<Event>, h: Handle)
    requires h.notifier != Silent && Bracketed(hs, h) && h.request.Some?
    ensures Bracketed(hs + Hooks(DeliverFailure(h).events), DeliverFailure(h).handle)
  {
    var d := [Failure(h.request.value, IsSubscribed(h))];
    if IsSubscribed(h) {
      var d' := d + (if h.retryEnabled then [ShowRetry] else []);
      CloseBracket(hs, h, d', h.complete, DeliverFailure(h).handle);
      assert d' + AfterHook(h.notifier, h.slot.code, h.complete) == DeliverFailure(h).events;
    } else {
      NoHooks(d);
      assert hs + [] == hs;
    }
  }

  lemma StepBracketed(hs: seq<Event>, h: Handle, op: Op)
    requires h.notifier != Silent && Guarded(op)
    requires Step(h, op).Some? && Bracketed(hs, h)
    ensures Bracketed(hs + Hooks(Step(h, op).value.events), Step(h, op).value.handle)
  {
    match op {
      case OpSubscribe(code, override) => SubscribeBracketed(hs, h, code, override);
      case OpUnsubscribe => UnsubscribeBracketed(hs, h);
      case OpEnableRetry => assert hs + Hooks([]) == hs;
      case OpResponse => ResponseBracketed(hs, h);
      case OpFailure => FailureBracketed(hs, h);
    }
  }

  /** From a fresh handle, subscribe, unsubscribe and the deliveries produce
      hooks in before/after pairs, each after naming its before's request
      code, and the handle is subscribed exactly while a pair is open. */
  lemma {:induction false} GuardedRunBracketed(n: Notifier, ops: seq<Op>)
    requires n != Silent
    requires forall i | 0 <= i < |ops| :: Guarded(ops[i])
    requires Run(Create(n), ops).Some?
    ensures Paired(Hooks(Run(Create(n), ops).value.events))
    ensures IsSubscribed(Run(Create(n), ops).value.handle) <==> |Hooks(Run(Create(n), ops).value.events)| % 2 == 1
    decreases |ops|
  {
    GuardedRunBracketedFrom(n, ops);
  }

  lemma {:induction false} GuardedRunBracketedFrom(n: Notifier, ops: seq<Op>)
    requires n != Silent
    requires forall i | 0 <= i < |ops| :: Guarded(ops[i])
    requires Run(Create(n), ops).Some?
    ensures Bracketed(Hooks(Run(Create(n), ops).value.events), Run(Create(n), ops).value.handle)
    ensures Run(Create(n), ops).value.handle.notifier == n
    decreases |ops|
  {
    if ops != [] {
      var pre := ops[..|ops| - 1];
      GuardedRunBracketedFrom(n, pre);
      var o := Run(Create(n), pre).value;
      var s := Step(o.handle, ops[|ops| - 1]).value;
      HooksAppend(o.events, s.events);
      StepBracketed(Hooks(o.events), o.handle, ops[|ops| - 1]);
    }
  }

  // ---------------------------------------------------------------------
  // No call answers twice, none is cancelled twice or after it answered

  /** Snoc-defined: every Cancel names a call whose handler has not run yet. */
  predicate NoCancelAfterDelivery(es: seq<Event>)
    decreases |es|
  {
    if es == [] then true
    else
      var e := es[|es| - 1];
      NoCancelAfterDelivery(es[..|es| - 1]) &&
      (e.Cancel? ==> e.call !in Delivered(es[..|es| - 1]))
  }

  /** What ties the calls mentioned so far to the handle. */
  predicate CallsTracked(es: seq<Event>, h: Handle)
  {
    Inv(h) &&
    (forall k | k in Delivered(es) :: k < h.built) &&
    (forall k | k in Cancelled(es) :: k < h.built) &&
    NoDuplicates(Delivered(es)) && NoDuplicates(Cancelled(es)) &&
    NoCancelAfterDelivery(es) &&
    (h.request.Some? ==> h.request.value !in Delivered(es)) &&
    (h.slot.Live? && h.request.Some? ==> h.request.value !in Cancelled(es))
  }

  lemma {:induction false} NoDeliveries(t: seq<Event>)
    requires forall e | e in t :: !e.Response? && !e.Failure?
    ensures Delivered(t) == []
    decreases |t|
  {
    if t != [] {
      assert t[|t| - 1] in t;
      forall e | e in t[..|t| - 1] ensures !e.Response? && !e.Failure? {
        assert e in t;
      }
      NoDeliveries(t[..|t| - 1]);
    }
  }

  lemma {:induction false} NoCancels(t: seq<Event>)
    requires forall e | e in t :: !e.Cancel?
    ensures Cancelled(t) == []
    decreases |t|
  {
    if t != [] {
      assert t[|t| - 1] in t;
      forall e | e in t[..|t| - 1] ensures !e.Cancel? {
        assert e in t;
      }
      NoCancels(t[..|t| - 1]);
    }
  }

  /** Appending effects without deliveries whose cancels name calls not yet
      delivered keeps NoCancelAfterDelivery. */
  lemma {:induction false} AppendCancels(a: seq<Event>, b: seq<Event>)
    requires NoCancelAfterDelivery(a)
    requires forall e | e in b :: !e.Response? && !e.Failure?
    requires forall e | e in b && e.Cancel? :: e.call !in Delivered(a)
    ensures NoCancelAfterDelivery(a + b)
    decreases |b|
  {
    if b == [] {
      assert a + b == a;
    } else {
      var b' := b[..|b| - 1];
      forall e | e in b' ensures !e.Response? && !e.Failure? && (e.Cancel? ==> e.call !in Delivered(a)) {
        assert e in b;
      }
      AppendCancels(a, b');
      assert (a + b)[..|a + b| - 1] == a + b';
      assert b[|b| - 1] in b;
      NoDeliveries(b');
      DeliveredAppend(a, b');
    }
  }

  /** Appending effects without cancels keeps NoCancelAfterDelivery. */
  lemma {:induction false} AppendNoCancels(a: seq<Event>, b: seq<Event>)
    requires NoCancelAfterDelivery(a)
    requires forall e | e in b :: !e.Cancel?
    ensures NoCancelAfterDelivery(a + b)
    decreases |b|
  {
    if b == [] {
      assert a + b == a;
    } else {
      var b' := b[..|b| - 1];
      forall e | e in b' ensures !e.Cancel? {
        assert e in b;
      }
      AppendNoCancels(a, b');
      assert (a + b)[..|a + b| - 1] == a + b';
      assert b[|b| - 1] in b;
    }
  }

  lemma NoDuplicatesSnoc(s: seq<nat>, k: nat)
    requires NoDuplicates(s) && k !in s
    ensures NoDuplicates(s + [k])
  {
    forall i, j | 0 <= i < j < |s + [k]| ensures (s + [k])[i] != (s + [k])[j] {
      if j == |s| {
        assert (s + [k])[i] == s[i] && s[i] in s;
      } else {
        assert (s + [k])[i] == s[i] && (s + [k])[j] == s[j];
      }
    }
  }

  predicate Quiet(e: Event)
  {
    !e.Cancel? && !e.Response? && !e.Failure?
  }

  /** Effects that neither deliver nor cancel, with the pending call and its
      subscription left as they were. */
  lemma QuietTracked(es: seq<Event>, h: Handle, t: seq<Event>, h': Handle)
    requires CallsTracked(es, h) && Inv(h')
    requires forall e | e in t :: Quiet(e)
    requires h'.request == h.request && h'.built == h.built && (h'.slot.Live? ==> h.slot.Live?)
    ensures CallsTracked(es + t, h')
  {
    NoDeliveries(t);
    NoCancels(t);
    DeliveredAppend(es, t);
    CancelledAppend(es, t);
    AppendNoCancels(es, t);
    assert Delivered(es) + [] == Delivered(es);
    assert Cancelled(es) + [] == Cancelled(es);
  }

  /** Effects that neither deliver nor cancel, followed by a newly built call. */
  lemma FreshCallTracked(es: seq<Event>, h: Handle, t: seq<Event>, h': Handle)
    requires CallsTracked(es, h) && Inv(h')
    requires forall e | e in t :: Quiet(e)
    requires h'.request == Some(h.built) && h'.built == h.built + 1
    ensures CallsTracked(es + t, h')
  {
    NoDeliveries(t);
    NoCancels(t);
    DeliveredAppend(es, t);
    CancelledAppend(es, t);
    AppendNoCancels(es, t);
    assert Delivered(es) + [] == Delivered(es);
    assert Cancelled(es) + [] == Cancelled(es);
  }

  /** The teardown of a live subscription cancels only its pending call. */
  lemma UnsubscribeTracked(es: seq<Event>, h: Handle)
    requires CallsTracked(es, h) && IsSubscribed(h)
    ensures CallsTracked(es + Unsubscribe(h).events, Unsubscribe(h).handle)
  {
    var u := Unsubscribe(h);
    var a := AfterHook(h.notifier, h.slot.code, false);
    forall e | e in a ensures Quiet(e) && IsHook(e) {
    }
    if h.request.Some? {
      var c := Cancel(h.request.value);
      assert u.events == [c] + a;
      AppendCancels(es, [c]);
      DeliveredAppend(es, [c]);
      CancelledAppend(es, [c]);
      assert Delivered([c]) == [] by { assert [c][..0] == []; }
      assert Cancelled([c]) == [h.request.value] by { assert [c][..0] == []; }
      assert Delivered(es) + [] == Delivered(es);
      NoDuplicatesSnoc(Cancelled(es), h.request.value);
      assert CallsTracked(es + [c], u.handle);
      QuietTracked(es + [c], u.handle, a, u.handle);
      assert es + [c] + a == es + u.events;
    } else {
      assert u.events == a;
      QuietTracked(es, h, a, u.handle);
    }
  }

  /** A delivery names the pending call; then the call is gone. */
  lemma DeliveryTracked(es: seq<Event>, h: Handle, d: Event, rest: seq<Event>, h': Handle)
    requires CallsTracked(es, h) && h.request.Some? && Inv(h')
    requires (d.Response? || d.Failure?) && d.call == h.request.value
    requires forall e | e in rest :: Quiet(e)
    requires h'.request.None? && h'.built == h.built
    ensures CallsTracked(es + ([d] + rest), h')
  {
    DeliveryStep(es, h, d, h');
    QuietTracked(es + [d], h', rest, h');
    assert es + [d] + rest == es + ([d] + rest);
  }

  /** The delivery itself: the pending call joins the delivered ones. */
  lemma DeliveryStep(es: seq<Event>, h: Handle, d: Event, h': Handle)
    requires CallsTracked(es, h) && h.request.Some? && Inv(h')
    requires (d.Response? || d.Failure?) && d.call == h.request.value
    requires h'.request.None? && h'.built == h.built
    ensures CallsTracked(es + [d], h')
  {
    AppendNoCancels(es, [d]);
    DeliveredAppend(es, [d]);
    CancelledAppend(es, [d]);
    assert Delivered([d]) == [d.call] by { assert [d][..0] == []; }
    assert Cancelled([d]) == [] by { assert [d][..0] == []; }
    assert Cancelled(es) + [] == Cancelled(es);
    NoDuplicatesSnoc(Delivered(es), d.call);
  }

  lemma SubscribeTracked(es: seq<Event>, h: Handle, code: int, override: bool)
    requires CallsTracked(es, h)
    ensures CallsTracked(es + Subscribe(h, code, override).events, Subscribe(h, code, override).handle)
  {
    var s := Subscribe(h, code, override);
    if override && IsSubscribed(h) {
      var u := Unsubscribe(h);
      var p := ProcessSubscribe(u.handle, code);
      UnsubscribeTracked(es, h);
      ProcessTracked(es + u.events, u.handle, code);
      OverrideOutcome(h, code);
      assert es + u.events + p.events == es + s.events;
    } else if IsSubscribed(h) {
      assert s == Outcome(h, []) && es + [] == es;
    } else {
      ProcessTracked(es, h, code);
    }
  }

  lemma ProcessTracked(es: seq<Event>, h: Handle, code: int)
    requires CallsTracked(es, h)
    ensures CallsTracked(es + ProcessSubscribe(h, code).events, ProcessSubscribe(h, code).handle)
  {
    var p := ProcessSubscribe(h, code);
    forall e | e in p.events ensures Quiet(e) {
    }
    FreshCallTracked(es, h, p.events, p.handle);
  }

  lemma ResponseTracked(es: seq<Event>, h: Handle)
    requires CallsTracked(es, h) && h.request.Some?
    ensures CallsTracked(es + DeliverResponse(h).events, DeliverResponse(h).handle)
  {
    var s := DeliverResponse(h);
    var d := Response(h.request.value, IsSubscribed(h));
    var end := EndSubscription(h.(request := None));
    assert s.events == [d] + end.events;
    EndQuiet(h.(request := None));
    DeliveryTracked(es, h, d, end.events, s.handle);
  }

  /** Ending a subscription with no pending call neither delivers nor
      cancels. */
  lemma EndQuiet(h: Handle)
    requires h.request.None?
    ensures forall e | e in EndSubscription(h).events :: Quiet(e)
  {
  }

  lemma FailureTracked(es: seq<Event>, h: Handle)
    requires CallsTracked(es, h) && h.request.Some?
    ensures CallsTracked(es + DeliverFailure(h).events, DeliverFailure(h).handle)
  {
    var s := DeliverFailure(h);
    var d := Failure(h.request.value, IsSubscribed(h));
    var retry := if IsSubscribed(h) && h.retryEnabled then [ShowRetry] else [];
    var end := EndSubscription(h.(request := None));
    assert s.events == [d] + (retry + end.events);
    EndQuiet(h.(request := None));
    forall e | e in retry + end.events ensures Quiet(e) {
    }
    DeliveryTracked(es, h, d, retry + end.events, s.handle);
  }

  lemma StepTracked(es: seq<Event>, h: Handle, op: Op)
    requires CallsTracked(es, h) && Step(h, op).Some?
    ensures CallsTracked(es + Step(h, op).value.events, Step(h, op).value.handle)
  {
    match op {
      case OpSubscribe(code, override) => SubscribeTracked(es, h, code, override);
      case OpProcessSubscribe(code) => ProcessTracked(es, h, code);
      case OpUnsubscribe =>
        if IsSubscribed(h) {
          UnsubscribeTracked(es, h);
        } else {
          assert es + [] == es;
        }
      case OpEnableRetry => QuietTracked(es, h, [], EnableRetry(h).handle);
      case OpRetryClick => FreshCallTracked(es, h, [], RetryClick(h).handle);
      case OpResponse => ResponseTracked(es, h);
      case OpFailure => FailureTracked(es, h);
    }
  }

  /** Every call is handed to onResponse or onFailure at most once, cancelled
      at most once, and never cancelled once its handler has run; every call
      that answers or is cancelled was built by the handle. */
  lemma {:induction false} CallsSettleAtMostOnce(n: Notifier, ops: seq<Op>)
    requires Run(Create(n), ops).Some?
    ensures var o := Run(Create(n), ops).value;
            NoDuplicates(Delivered(o.events)) && NoDuplicates(Cancelled(o.events)) &&
            NoCancelAfterDelivery(o.events) &&
            (forall k | k in Delivered(o.events) + Cancelled(o.events) :: k < o.handle.built)
    decreases |ops|
  {
    RunTracked(n, ops);
  }

  lemma {:induction false} RunTracked(n: Notifier, ops: seq<Op>)
    requires Run(Create(n), ops).Some?
    ensures CallsTracked(Run(Create(n), ops).value.events, Run(Create(n), ops).value.handle)
    decreases |ops|
  {
    if ops != [] {
      var pre := ops[..|ops| - 1];
      RunTracked(n, pre);
      var o := Run(Create(n), pre).value;
      StepTracked(o.events, o.handle, ops[|ops| - 1]);
    }
  }

  // ---------------------------------------------------------------------
  // Through the guarded API, at most one call is in flight

  /** Every call built so far has answered or been cancelled, except the
      pending call of a live subscription. */
  predicate Settled(es: seq<Event>, h: Handle)
  {
    forall k: nat | k < h.built && k !in Delivered(es) && k !in Cancelled(es) ::
      h.slot.Live? && h.request == Some(k)
  }

  /** Every call numbered below `b` has answered or been cancelled. */
  predicate AllSettled(es: seq<Event>, b: nat)
  {
    forall k: nat | k < b :: k in Delivered(es) || k in Cancelled(es)
  }

  lemma SettledIdle(es: seq<Event>, h: Handle)
    requires Settled(es, h) && !h.slot.Live?
    ensures AllSettled(es, h.built)
  {
  }

  /** Effects that settle the pending call leave no call in flight. */
  lemma Closing(es: seq<Event>, h: Handle, t: seq<Event>)
    requires Settled(es, h)
    requires h.request.Some? ==> h.request.value in Delivered(t) || h.request.value in Cancelled(t)
    ensures AllSettled(es + t, h.built)
  {
    DeliveredAppend(es, t);
    CancelledAppend(es, t);
  }

  /** proccessSubscribe with nothing in flight: only its new call is. */
  lemma ProcessSettled(es: seq<Event>, h: Handle, code: int)
    requires AllSettled(es, h.built)
    ensures Settled(es + ProcessSubscribe(h, code).events, ProcessSubscribe(h, code).handle)
  {
    var p := ProcessSubscribe(h, code);
    NoDeliveries(p.events);
    NoCancels(p.events);
    DeliveredAppend(es, p.events);
    CancelledAppend(es, p.events);
    assert Delivered(es) + [] == Delivered(es);
    assert Cancelled(es) + [] == Cancelled(es);
  }

  /** unsubscribe() on a subscribed handle cancels the pending call. */
  lemma UnsubscribeSettles(h: Handle)
    requires IsSubscribed(h) && h.request.Some?
    ensures h.request.value in Cancelled(Unsubscribe(h).events)
  {
    var c := [Cancel(h.request.value)];
    var a := AfterHook(h.notifier, h.slot.code, false);
    assert Unsubscribe(h).events == c + a;
    CancelledAppend(c, a);
    assert Cancelled(c) == [h.request.value] by { assert c[..0] == []; }
  }

  /** A delivery hands the pending call to its handler. */
  lemma DeliverySettles(d: Event, rest: seq<Event>)
    requires d.Response? || d.Failure?
    ensures d.call in Delivered([d] + rest)
  {
    DeliveredAppend([d], rest);
    assert Delivered([d]) == [d.call] by { assert [d][..0] == []; }
  }

  lemma UnsubscribeSettled(es: seq<Event>, h: Handle)
    requires Settled(es, h)
    ensures Settled(es + Unsubscribe(h).events, Unsubscribe(h).handle)
    ensures IsSubscribed(h) ==> AllSettled(es + Unsubscribe(h).events, h.built)
  {
    if IsSubscribed(h) {
      if h.request.Some? {
        UnsubscribeSettles(h);
      }
      Closing(es, h, Unsubscribe(h).events);
    } else {
      assert es + [] == es;
    }
  }

  lemma SubscribeSettled(es: seq<Event>, h: Handle, code: int, override: bool)
    requires Settled(es, h)
    ensures Settled(es + Subscribe(h, code, override).events, Subscribe(h, code, override).handle)
  {
    if override && IsSubscribed(h) {
      var u := Unsubscribe(h);
      var p := ProcessSubscribe(u.handle, code);
      UnsubscribeSettled(es, h);
      ProcessSettled(es + u.events, u.handle, code);
      OverrideOutcome(h, code);
      assert es + u.events + p.events == es + (u.events + p.events);
    } else if IsSubscribed(h) {
      assert es + [] == es;
    } else {
      SettledIdle(es, h);
      ProcessSettled(es, h, code);
    }
  }

  lemma ResponseSettled(es: seq<Event>, h: Handle)
    requires Settled(es, h) && h.request.Some?
    ensures Settled(es + DeliverResponse(h).events, DeliverResponse(h).handle)
  {
    var s := DeliverResponse(h);
    var d := Response(h.request.value, IsSubscribed(h));
    var end := EndSubscription(h.(request := None));
    assert s.events == [d] + end.events;
    DeliverySettles(d, end.events);
    Closing(es, h, s.events);
  }

  lemma FailureSettled(es: seq<Event>, h: Handle)
    requires Settled(es, h) && h.request.Some?
    ensures Settled(es + DeliverFailure(h).events, DeliverFailure(h).handle)
  {
    var s := DeliverFailure(h);
    var d := Failure(h.request.value, IsSubscribed(h));
    var retry := if IsSubscribed(h) && h.retryEnabled then [ShowRetry] else [];
    var end := EndSubscription(h.(request := None));
    assert s.events == [d] + (retry + end.events);
    DeliverySettles(d, retry + end.events);
    Closing(es, h, s.events);
  }

  lemma StepSettled(es: seq<Event>, h: Handle, op: Op)
    requires Settled(es, h) && Guarded(op) && Step(h, op).Some?
    ensures Settled(es + Step(h, op).value.events, Step(h, op).value.handle)
  {
    match op {
      case OpSubscribe(code, override) => SubscribeSettled(es, h, code, override);
      case OpUnsubscribe => UnsubscribeSettled(es, h);
      case OpEnableRetry => assert es + [] == es;
      case OpResponse => ResponseSettled(es, h);
      case OpFailure => FailureSettled(es, h);
    }
  }

  /** From a fresh handle, through subscribe, unsubscribe, enableRetry and
      call arrivals, every call built has answered or been cancelled except
      the pending call of the live subscription: at most one call is in
      flight, and none while the handle is unsubscribed. */
  lemma {:induction false} GuardedRunSettled(n: Notifier, ops: seq<Op>)
    requires forall i | 0 <= i < |ops| :: Guarded(ops[i])
    requires Run(Create(n), ops).Some?
    ensures Settled(Run(Create(n), ops).value.events, Run(Create(n), ops).value.handle)
    decreases |ops|
  {
    if ops != [] {
      var pre := ops[..|ops| - 1];
      GuardedRunSettled(n, pre);
      var o := Run(Create(n), pre).value;
      StepSettled(o.events, o.handle, ops[|ops| - 1]);
    }
  }
}
