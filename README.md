# RequestObservable, modelled in Dafny

`RequestObservable` is a small handle around one Retrofit call run through
RxJava. `subscribe` builds an observable for a request code, reports a
"before" hook to a lifecycle callback, and subscribes, which builds and
enqueues a call. When the call answers, the handler gets `onResponse` or
`onFailure` together with whether the handle is still subscribed. A failure
while subscribed may show a retry snack bar. The teardown (`doOnUnsubscribe`)
cancels a still-pending call and reports the "after" hook with the current
`complete` flag. `unsubscribe` clears `complete` and ends the subscription.
`subscribe` without override does nothing while a subscription is live.

The model has three layers:

- `Lifecycle` (lifecycle.dfy) holds the handle's fields as a value (`Handle`):
  - the callback variant (`Notifier`: none, single-slot `SubscriptionCallback`,
    or keyed `SubscriptionCallbackSwitch`);
  - whether retry is enabled;
  - the request code of the stored observable;
  - the subscription slot (null, live or ended);
  - the pending call;
  - the number of calls built so far;
  - `complete`.

  Each operation is a function. It returns the new handle and the ordered list
  of side effects it performs (`Event`): hooks, handler calls, `cancel()`, and
  showing the retry bar. A call is named by the sequence number under which
  `buildRequest` made it.
- `Observable` (request_observable.dfy) is the class `RequestObservable`. It
  has the Java fields and a `trace` of the effects performed so far. Each
  method assigns its fields in the order the Java does, except that the call
  is built and enqueued as part of the subscription itself (see "## Left
  out" on scheduling). Each method is proved
  to move `State()` and `trace` exactly as the `Lifecycle` function says, and
  to keep the class invariant `Valid()`.
- `Runs` (runs.dfy) covers arbitrary sequences of operations and call
  arrivals from a fresh handle. It proves that:
  - the invariant holds throughout;
  - hooks reach only the configured callback;
  - through the guarded API, hooks come in before/after pairs that match
    request codes, and a pair is open exactly while the handle is subscribed;
  - no call is delivered twice, cancelled twice, or cancelled after it
    answered;
  - through the guarded API, at most one call is in flight: every call built
    has answered or been cancelled, except the pending call of a live
    subscription.

`Scenarios` (scenarios.dfy) drives the class through whole cycles:

- success;
- failure with retry;
- the single-slot callback;
- cancel, including a late failure report;
- the subscribe guard;
- override;
- two traces that show what the retry click does because it bypasses
  `subscribe`.

When a call answers, the model's delivery method does five things in order:

1. it reads whether the slot is live;
2. it calls the handler with that flag;
3. on a failure, it shows the retry bar if the slot was live and retry is
   enabled;
4. it clears the pending call;
5. it ends the slot, which runs the teardown once. The teardown then has no
   call left to cancel.

The model follows the code in three places where a reader might expect a
more regular behaviour:

- **Calls reported after cancel.** The teardown never clears `mRequest`. If
  Retrofit then reports the cancelled call (as a failure), the handler still
  runs, with `subscribed = false`, and no retry is shown. A cancelled cycle is
  therefore not silent: its handler can still be called. The model covers
  such a report only while the cancelled call is still the pending one,
  that is, before the handle is subscribed again.
- **The retry click bypasses `subscribe`.** It re-subscribes the observable
  built last. There is no guard, no before hook, and `complete` is left as it
  is.
  - So hook pairing fails once retry is used (`Scenarios.UnpairedRetryTrace`).
  - A subscription that is still live is replaced without its teardown, so
    its call is never cancelled (`Scenarios.RetryRepeatsLatestRequest`).
  - The click is not a second `subscribe` under its usual rules: a handle
    that is still subscribed is not left alone.
- **The meaning of `complete`.** `complete` is true from `proccessSubscribe`
  on and false only after `unsubscribe`. So the after hook of a failed cycle
  reports `true`.

## Model

| member | source | states |
|---|---|---|
| `Lifecycle.Create` | requestobservablemodule/src/main/java/devfigas/com/requestobservable/RequestObservable.java:19-32 | a new handle has only its callback variant set: it is unsubscribed (not subscribed), has a null subscription, no pending call, no observable and no call built yet, retry is off and `complete` is false |
| `Lifecycle.EndSubscription` | requestobservablemodule/src/main/java/devfigas/com/requestobservable/RequestObservable.java:104-110 | ending the subscription leaves the handle unsubscribed; a live one becomes ended, nothing else changes, and its teardown's effects (cancel of the pending call if any, then the after hook with the current `complete`) are emitted; an already null or ended one is left as it was with no effects, so a live subscription runs its teardown exactly once; the invariant is kept |
| `Lifecycle.ProcessSubscribe` | requestobservablemodule/src/main/java/devfigas/com/requestobservable/RequestObservable.java:77-114 | with no guard, it emits exactly the before hook for `code`; the handle is then subscribed with `complete` true, a live slot and stored observable for `code`, and a new pending call numbered by the calls built so far; callback and retry setting are kept |
| `Lifecycle.Unsubscribe` | requestobservablemodule/src/main/java/devfigas/com/requestobservable/RequestObservable.java:127-132 | on an unsubscribed handle nothing changes and nothing is emitted; on a subscribed one `complete` becomes false, the slot ends, the pending call (if any) is cancelled and then the after hook reports the cycle's code with `complete = false`; the handle is unsubscribed afterwards |
| `Lifecycle.Subscribe` | requestobservablemodule/src/main/java/devfigas/com/requestobservable/RequestObservable.java:59-68 | without override, a subscribed handle is left exactly as it was with no effects and an unsubscribed one behaves as `proccessSubscribe`; with override, an active cycle's cancel and after hook (`complete = false`, old code) come before the new before hook, and the new state is the new cycle's: `complete` true, observable and live slot for the new code, and the next call pending; the handle is always subscribed afterwards |
| `Lifecycle.DeliverResponse` | requestobservablemodule/src/main/java/devfigas/com/requestobservable/RequestObservable.java:86-90 | the first effect is `onResponse` for the pending call with whether the handle was subscribed; the pending call is cleared and the handle ends unsubscribed; if it was subscribed, the after hook follows with the current `complete` |
| `Lifecycle.DeliverFailure` | requestobservablemodule/src/main/java/devfigas/com/requestobservable/RequestObservable.java:93-100 | the first effect is `onFailure` with whether the handle was subscribed; the retry bar is shown if and only if the handle was subscribed and retry is enabled; the pending call is cleared and the handle ends unsubscribed |
| `Lifecycle.EnableRetry` | requestobservablemodule/src/main/java/devfigas/com/requestobservable/RequestObservable.java:34-58 | retry becomes enabled with no effects, and no other field changes |
| `Lifecycle.RetryClick` | requestobservablemodule/src/main/java/devfigas/com/requestobservable/RequestObservable.java:52-56 | the stored observable is subscribed again with no effects and no guard: the slot is live for the stored code, a new call is pending, and `complete`, the observable, callback and retry setting are unchanged |
| `Observable.RequestObservable.WithCallback` | requestobservablemodule/src/main/java/devfigas/com/requestobservable/RequestObservable.java:27-29 | the object is in the state `Create` gives for a single-slot callback (or none, for null), with an empty trace |
| `Observable.RequestObservable.WithSwitch` | requestobservablemodule/src/main/java/devfigas/com/requestobservable/RequestObservable.java:30-32 | the object is in the state `Create` gives for a keyed callback (or none, for null), with an empty trace |
| `Observable.RequestObservable.EnableRetry` | requestobservablemodule/src/main/java/devfigas/com/requestobservable/RequestObservable.java:45-58 | the new fields and trace are those `Lifecycle.EnableRetry` gives; the invariant is kept |
| `Observable.RequestObservable.IsUnsubscribed` | requestobservablemodule/src/main/java/devfigas/com/requestobservable/RequestObservable.java:133-135 | the answer is true exactly when `mSubscription` is null or has been unsubscribed |
| `Observable.RequestObservable.IsSubscribed` | requestobservablemodule/src/main/java/devfigas/com/requestobservable/RequestObservable.java:136-138 | the answer is always the negation of `isUnsuscribed()` |
| `Observable.RequestObservable.BeforeRequest` | requestobservablemodule/src/main/java/devfigas/com/requestobservable/RequestObservable.java:118-121 | the trace grows by exactly the before hook for the callback variant: none, `onBeforeRequest()`, or `onBeforeRequest(code)` |
| `Observable.RequestObservable.AfterRequest` | requestobservablemodule/src/main/java/devfigas/com/requestobservable/RequestObservable.java:122-125 | the trace grows by exactly the after hook for the callback variant, carrying the current `complete` |
| `Observable.RequestObservable.Teardown` | requestobservablemodule/src/main/java/devfigas/com/requestobservable/RequestObservable.java:104-110 | the trace grows by a cancel of the pending call, if there is one, and then the after hook for the captured code |
| `Observable.RequestObservable.EndSubscription` | requestobservablemodule/src/main/java/devfigas/com/requestobservable/RequestObservable.java:130 | the new fields and trace are those `Lifecycle.EndSubscription` gives; the invariant is kept |
| `Observable.RequestObservable.ProcessSubscribe` | requestobservablemodule/src/main/java/devfigas/com/requestobservable/RequestObservable.java:77-114 | the new fields and trace are those `Lifecycle.ProcessSubscribe` gives; the invariant is kept |
| `Observable.RequestObservable.ProcessSubscribeDefault` | requestobservablemodule/src/main/java/devfigas/com/requestobservable/RequestObservable.java:115-117 | as `ProcessSubscribe` with request code 0 |
| `Observable.RequestObservable.Unsubscribe` | requestobservablemodule/src/main/java/devfigas/com/requestobservable/RequestObservable.java:127-132 | the new fields and trace are those `Lifecycle.Unsubscribe` gives; the invariant is kept |
| `Observable.RequestObservable.Subscribe` | requestobservablemodule/src/main/java/devfigas/com/requestobservable/RequestObservable.java:59-68 | the new fields and trace are those `Lifecycle.Subscribe` gives; the invariant is kept |
| `Observable.RequestObservable.SubscribeCode` | requestobservablemodule/src/main/java/devfigas/com/requestobservable/RequestObservable.java:70-72 | as `Subscribe` without override |
| `Observable.RequestObservable.SubscribeDefault` | requestobservablemodule/src/main/java/devfigas/com/requestobservable/RequestObservable.java:73-75 | as `Subscribe` with request code 0, without override |
| `Observable.RequestObservable.DeliverResponse` | requestobservablemodule/src/main/java/devfigas/com/requestobservable/RequestObservable.java:86-90 | the new fields and trace are those `Lifecycle.DeliverResponse` gives; the invariant is kept |
| `Observable.RequestObservable.DeliverFailure` | requestobservablemodule/src/main/java/devfigas/com/requestobservable/RequestObservable.java:93-100 | the new fields and trace are those `Lifecycle.DeliverFailure` gives; the invariant is kept |
| `Observable.RequestObservable.RetryClick` | requestobservablemodule/src/main/java/devfigas/com/requestobservable/RequestObservable.java:55 | the new fields and trace are those `Lifecycle.RetryClick` gives; the invariant is kept |
| `Runs.Step` | requestobservablemodule/src/main/java/devfigas/com/requestobservable/RequestObservable.java:52-117 | an operation or arrival happens exactly when it is enabled: a call answers only while one is pending, and the retry control is used only after `enableRetry` and once there is an observable; the callback variant and the invariant are kept |
| `Runs.RunKeepsInv` | requestobservablemodule/src/main/java/devfigas/com/requestobservable/RequestObservable.java:19-25 | over any run, the stored observable is set exactly when the subscription is and matches its code, and a pending call is the last one built |
| `Runs.HooksAddressed` | requestobservablemodule/src/main/java/devfigas/com/requestobservable/RequestObservable.java:118-125 | every hook of any run is one the handle's own callback variant receives; a handle built with a null callback reports no hook |
| `Runs.GuardedRunBracketed` | requestobservablemodule/src/main/java/devfigas/com/requestobservable/RequestObservable.java:59-132 | from a fresh handle built with a non-null callback, through subscribe, unsubscribe and call arrivals, hooks alternate before/after, each after carrying its before's request code, and the handle is subscribed exactly when the number of hooks is odd |
| `Runs.GuardedRunBracketedFrom` | requestobservablemodule/src/main/java/devfigas/com/requestobservable/RequestObservable.java:59-132 | the inductive form: additionally, the open before hook is the one for the live subscription's code |
| `Runs.CallsSettleAtMostOnce` | requestobservablemodule/src/main/java/devfigas/com/requestobservable/RequestObservable.java:83-110 | over any run, including retry clicks, no call is passed to a handler twice, none is cancelled twice, none is cancelled after its handler ran, and every such call was built by the handle |
| `Runs.RunTracked` | requestobservablemodule/src/main/java/devfigas/com/requestobservable/RequestObservable.java:83-110 | the inductive form: additionally, the pending call has not answered yet, and while the slot is live it has not been cancelled |
| `Runs.GuardedRunSettled` | requestobservablemodule/src/main/java/devfigas/com/requestobservable/RequestObservable.java:59-132 | from a fresh handle, through subscribe (plain and override), unsubscribe, enableRetry and call arrivals, every call built that has neither answered nor been cancelled is the pending call of a live subscription (`Settled`): at most one call is in flight, and none while the handle is unsubscribed; proved operation by operation, since the guard builds a call only when nothing is in flight and override and unsubscribe cancel the pending call first |
| `Scenarios.UnpairedRetryTrace` | requestobservablemodule/src/main/java/devfigas/com/requestobservable/RequestObservable.java:55 | in the trace of subscribe, failure, retry click and response, the retried cycle's after hook has no before hook, so the hooks are not paired |
| `Scenarios.OverrideEvents` | requestobservablemodule/src/main/java/devfigas/com/requestobservable/RequestObservable.java:59-62 | overriding a live keyed cycle for code 1 with code 2 emits cancel of call 0, after(1, false), before(2), in that order |

## Left out

- The `enableRetry` bodies (resources, the SDK-version branch, snack-bar styling, the view): only "retry is enabled" is kept.
- RxJava scheduling (`subscribeOn`, `observeOn`) and any race between a call's arrival and a cancel: each arrival is one sequential step. Because of `subscribeOn(Schedulers.newThread())`, the source assigns `mSubscription` first and builds the call into `mRequest` later, on the worker thread. The model builds and enqueues the call within `proccessSubscribe` and the retry click. `Runs.CallsSettleAtMostOnce`'s "none is cancelled twice" relies on this order: an `unsubscribe` before the worker runs would cancel the previous cycle's `mRequest` again.
- The order of steps inside `onResponse`/`onFailure`: the source calls `onCompleted` before the retry check and before clearing `mRequest`. The model ends the slot last, as if the main-thread hop of `observeOn` delays the teardown. The slot-live flag read by the retry check is therefore the one read before the handler runs.
- A late answer from a call that has been replaced by an override, a retry click, a direct `proccessSubscribe` on a live handle (it is public and unguarded), or a plain `subscribe` after `unsubscribe`. Its handler would still run: with `subscribed = true` if its subscription was left live, with `subscribed = false` for a cancelled call reported after the new `subscribe`. Its closure would clear the new `mRequest`. The new cycle's `unsubscribe` then cancels nothing, and the new call's own answer later reaches the handler with `subscribed = false`. A left-behind live subscription would also later report its own after hook. The model lets only the pending call answer. `Runs.GuardedRunSettled` holds only under this rule: in the source, a late failure report of a cancelled call clears the new `mRequest`, and the next plain `subscribe` then puts a second call in flight.
- Re-entrant callbacks: handlers and hooks are single events that do not call back into the handle. In the source, a handler runs before `onCompleted` and before `mRequest` is cleared. A handler that calls `unsubscribe()` would therefore cancel the call that just answered. A handler that calls the override `subscribe` would have its new call's `mRequest` cleared afterwards. `Runs.CallsSettleAtMostOnce` and `Runs.GuardedRunBracketed` hold only under this assumption.
- Retrofit internals (`enqueue`, the `Response` and `Throwable` contents) and the generic payload: a call is only a sequence number with a recorded cancel.
- The identity of the `RequestCallback` passed to each subscribe: handler calls are recorded by call number only.
- Both callbacks being non-null at once is impossible through the two constructors, so dispatch is a three-way variant instead of two null checks.
- `Lifecycle.RetryClick`: requires a stored observable, because the source would dereference a null `mObservable` otherwise (a crash, not a behaviour).
