/**
 * The state of one RequestObservable handle as a value, and one function per
 * operation giving the new state together with the ordered list of side
 * effects (lifecycle hooks, handler calls, call cancellation, the retry
 * snack bar) that the operation performs.
 */
module Lifecycle {

  datatype Option<T> = None | Some(value: T)

  /** The lifecycle callback the handle was constructed with: a single-slot
      SubscriptionCallback, a keyed SubscriptionCallbackSwitch, or neither
      (the constructor was given null). */
  datatype Notifier = Silent | SingleSlot | KeyedSlot

  /** mSubscription: null, or the subscription to the observable built for
      one request code, still live or already unsubscribed. */
  datatype Slot = Null | Live(code: int) | Ended(code: int)

  /** One side effect of the handle, as the outside world sees it. A Retrofit
      call is named by the sequence number under which buildRequest made it. */
  datatype Event =
    | SingleBefore                          // SubscriptionCallback.onBeforeRequest()
    | SingleAfter(complete: bool)           // SubscriptionCallback.onAfterRequest(complete)
    | KeyedBefore(code: int)                // SubscriptionCallbackSwitch.onBeforeRequest(code)
    | KeyedAfter(code: int, complete: bool) // SubscriptionCallbackSwitch.onAfterRequest(code, complete)
    | Response(call: nat, subscribed: bool) // RequestCallback.onResponse(call, response, subscribed)
    | Failure(call: nat, subscribed: bool)  // RequestCallback.onFailure(call, t, subscribed)
    | Cancel(call: nat)                     // Call.cancel()
    | ShowRetry                             // mSnackBarRetry.show()

  /** The fields of a handle. */
  datatype Handle = Handle(
    notifier: Notifier,
    retryEnabled: bool,    // mSnackBarRetry != null
    observed: Option<int>, // mObservable, by the request code its teardown captured
    slot: Slot,            // mSubscription
    request: Option<nat>,  // mRequest
    built: nat,            // calls built so far; the next one is call number `built`
    complete: bool)

  /** The state after an operation and the effects it performed, in order. */
  datatype Outcome = Outcome(handle: Handle, events: seq<Event>)

  /** What every reachable handle satisfies: mObservable is set exactly when
      mSubscription is, and is the observable that subscription belongs to;
      a pending call is the last one built, and exists only once a
      subscription does. */
  predicate Inv(h: Handle)
  {
    (h.slot.Null? <==> h.observed.None?) &&
    (!h.slot.Null? ==> h.observed == Some(h.slot.code)) &&
    (h.request.Some? ==> !h.slot.Null? && h.request.value + 1 == h.built)
  }

  /** isUnsuscribed(): mSubscription is null or has been unsubscribed. */
  predicate IsUnsubscribed(h: Handle)
  {
    h.slot.Null? || h.slot.Ended?
  }

  /** isSubscribed(): the negation of isUnsuscribed(). */
  predicate IsSubscribed(h: Handle)
  {
    !IsUnsubscribed(h)
  }

  /** Both constructors: only the callback field is set; complete starts false. */
  function Create(n: Notifier): (h: Handle)
    ensures Inv(h) && IsUnsubscribed(h) && !IsSubscribed(h)
    ensures h.notifier == n && !h.retryEnabled && !h.complete
    ensures h.request.None? && h.observed.None?
    ensures h.slot == Null && h.built == 0
  {
    Handle(n, false, None, Null, None, 0, false)
  }

  /** beforeRequest(code): the single-slot callback if there is one, else the
      keyed one, which also gets the request code. */
  function BeforeHook(n: Notifier, code: int): seq<Event>
  {
    match n
    case SingleSlot => [SingleBefore]
    case KeyedSlot => [KeyedBefore(code)]
    case Silent => []
  }

  /** afterRequest(code): as beforeRequest, passing the current `complete`. */
  function AfterHook(n: Notifier, code: int, complete: bool): seq<Event>
  {
    match n
    case SingleSlot => [SingleAfter(complete)]
    case KeyedSlot => [KeyedAfter(code, complete)]
    case Silent => []
  }

  /** The effects of the doOnUnsubscribe action of the observable built for
      `code`: cancel the call if one is still pending, then the after hook. */
  function Teardown(h: Handle, code: int): seq<Event>
  {
    (if h.request.Some? then [Cancel(h.request.value)] else []) + AfterHook(h.notifier, code, h.complete)
  }

  /** Ending mSubscription (Subscription.unsubscribe(), or the end of the stream
      after onCompleted): a live subscription becomes unsubscribed and runs its
      teardown, exactly once; a null or already ended one is left alone. */
  function EndSubscription(h: Handle): (r: Outcome)
    ensures IsUnsubscribed(r.handle)
    ensures IsUnsubscribed(h) ==> r == Outcome(h, [])
    ensures IsSubscribed(h) ==> r.handle == h.(slot := Ended(h.slot.code))
    ensures IsSubscribed(h) ==> r.events == Teardown(h, h.slot.code)
    ensures Inv(h) ==> Inv(r.handle)
  {
    if h.slot.Live? then Outcome(h.(slot := Ended(h.slot.code)), Teardown(h, h.slot.code))
    else Outcome(h, [])
  }

  /** proccessSubscribe(code): complete := true, the before hook, a new
      observable for `code`, and a subscription to it, which builds and
      enqueues a new call. No guard: it runs whatever the current state. */
  function ProcessSubscribe(h: Handle, code: int): (r: Outcome)
    ensures IsSubscribed(r.handle) && r.handle.complete
    ensures r.events == BeforeHook(h.notifier, code)
    ensures r.handle.slot == Live(code) && r.handle.observed == Some(code)
    ensures r.handle.request == Some(h.built) && r.handle.built == h.built + 1
    ensures r.handle.notifier == h.notifier && r.handle.retryEnabled == h.retryEnabled
    ensures Inv(r.handle)
  {
    var h1 := h.(complete := true);
    var h2 := h1.(observed := Some(code));
    var h3 := h2.(request := Some(h2.built), built := h2.built + 1);
    Outcome(h3.(slot := Live(code)), BeforeHook(h.notifier, code))
  }

  /** unsubscribe(): on a subscribed handle, complete := false and the
      subscription ends, so its teardown cancels a pending call and reports
      the after hook with complete = false; otherwise nothing happens. */
  function Unsubscribe(h: Handle): (r: Outcome)
    ensures IsUnsubscribed(r.handle)
    ensures IsUnsubscribed(h) ==> r == Outcome(h, [])
    ensures IsSubscribed(h) ==>
              r.handle == h.(complete := false, slot := Ended(h.slot.code)) &&
              r.events == (if h.request.Some? then [Cancel(h.request.value)] else [])
                          + AfterHook(h.notifier, h.slot.code, false)
    ensures Inv(h) ==> Inv(r.handle)
  {
    if IsUnsubscribed(h) then Outcome(h, [])
    else EndSubscription(h.(complete := false))
  }

  /** subscribe(code, callback, override). With override the current cycle is
      unsubscribed first, so its after hook (complete = false) precedes the
      new cycle's before hook; without override a subscribed handle is left
      exactly as it was. Either way the handle is subscribed afterwards. */
  function Subscribe(h: Handle, code: int, override: bool): (r: Outcome)
    ensures IsSubscribed(r.handle)
    ensures !override && IsSubscribed(h) ==> r == Outcome(h, [])
    ensures !override && IsUnsubscribed(h) ==> r == ProcessSubscribe(h, code)
    ensures override && IsUnsubscribed(h) ==> r == ProcessSubscribe(h, code)
    ensures override && IsSubscribed(h) ==>
              r.events == (if h.request.Some? then [Cancel(h.request.value)] else [])
                          + AfterHook(h.notifier, h.slot.code, false)
                          + BeforeHook(h.notifier, code)
    ensures override ==>
              r.handle == h.(complete := true, observed := Some(code), slot := Live(code),
                             request := Some(h.built), built := h.built + 1)
    ensures Inv(h) ==> Inv(r.handle)
  {
    if override then
      var u := Unsubscribe(h);
      var p := ProcessSubscribe(u.handle, code);
      Outcome(p.handle, u.events + p.events)
    else if IsUnsubscribed(h) then ProcessSubscribe(h, code)
    else Outcome(h, [])
  }

  /** The pending call answers with a response: onResponse gets whether the
      handle is still subscribed, mRequest is cleared and the subscription
      ends (its teardown then has no call left to cancel). */
  function DeliverResponse(h: Handle): (r: Outcome)
    requires h.request.Some?
    ensures |r.events| > 0 && r.events[0] == Response(h.request.value, IsSubscribed(h))
    ensures IsUnsubscribed(r.handle) && r.handle.request.None?
    ensures IsUnsubscribed(h) ==> r == Outcome(h.(request := None), [Response(h.request.value, false)])
    ensures IsSubscribed(h) ==>
              r.handle == h.(request := None, slot := Ended(h.slot.code)) &&
              r.events == [Response(h.request.value, true)] + AfterHook(h.notifier, h.slot.code, h.complete)
    ensures Inv(h) ==> Inv(r.handle)
  {
    var subscribed := IsSubscribed(h);
    var cleared := h.(request := None);
    var end := EndSubscription(cleared);
    Outcome(end.handle, [Response(h.request.value, subscribed)] + end.events)
  }

  /** The pending call fails: onFailure gets whether the handle is still
      subscribed, the retry snack bar is shown exactly when the handle is
      still subscribed and retry is enabled, then mRequest is cleared and
      the subscription ends. */
  function DeliverFailure(h: Handle): (r: Outcome)
    requires h.request.Some?
    ensures |r.events| > 0 && r.events[0] == Failure(h.request.value, IsSubscribed(h))
    ensures ShowRetry in r.events <==> IsSubscribed(h) && h.retryEnabled
    ensures IsUnsubscribed(r.handle) && r.handle.request.None?
    ensures IsUnsubscribed(h) ==> r == Outcome(h.(request := None), [Failure(h.request.value, false)])
    ensures IsSubscribed(h) ==>
              r.handle == h.(request := None, slot := Ended(h.slot.code)) &&
              r.events == [Failure(h.request.value, true)]
                          + (if h.retryEnabled then [ShowRetry] else [])
                          + AfterHook(h.notifier, h.slot.code, h.complete)
    ensures Inv(h) ==> Inv(r.handle)
  {
    var subscribed := IsSubscribed(h);
    var retry := if subscribed && h.retryEnabled then [ShowRetry] else [];
    var cleared := h.(request := None);
    var end := EndSubscription(cleared);
    Outcome(end.handle, [Failure(h.request.value, subscribed)] + retry + end.events)
  }

  /** enableRetry(...): installs the retry snack bar. */
  function EnableRetry(h: Handle): (r: Outcome)
    ensures r.handle.retryEnabled && r.events == []
    ensures r.handle.(retryEnabled := h.retryEnabled) == h
  {
    Outcome(h.(retryEnabled := true), [])
  }

  /** The snack bar's click listener: mSubscription := mObservable.subscribe().
      The stored observable is subscribed directly, so there is no guard, no
      before hook and `complete` keeps its value; subscribing builds and
      enqueues a new call, and a subscription that was still live is dropped
      without its teardown. Clicking before any subscribe would dereference a
      null mObservable, hence the precondition. */
  function RetryClick(h: Handle): (r: Outcome)
    requires h.observed.Some?
    ensures IsSubscribed(r.handle) && r.events == []
    ensures r.handle.slot == Live(h.observed.value)
    ensures r.handle.request == Some(h.built) && r.handle.built == h.built + 1
    ensures r.handle.complete == h.complete && r.handle.observed == h.observed
    ensures r.handle.notifier == h.notifier && r.handle.retryEnabled == h.retryEnabled
    ensures Inv(h) ==> Inv(r.handle)
  {
    var h1 := h.(request := Some(h.built), built := h.built + 1);
    Outcome(h1.(slot := Live(h.observed.value)), [])
  }
}
