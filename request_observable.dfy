/**
 * RequestObservable as an object: the fields the Java class assigns, plus
 * `trace`, the ordered record of the side effects it has performed. Every
 * method is proved to do what the corresponding function of Lifecycle says
 * to the abstract state State().
 */
module Observable {
  import opened Lifecycle

  class RequestObservable {
    const notifier: Notifier      // mSubscriptionCallback / mSubscriptionCallbackSwitch
    var retryEnabled: bool        // mSnackBarRetry != null
    var observed: Option<int>     // mObservable
    var subscription: Slot        // mSubscription
    var request: Option<nat>      // mRequest
    var built: nat                // calls made by buildRequest so far
    var complete: bool
    var trace: seq<Event>

    ghost function State(): Handle
      reads this
    {
      Handle(notifier, retryEnabled, observed, subscription, request, built, complete)
    }

    ghost predicate Valid()
      reads this
    {
      Inv(State())
    }

    /** RequestObservable(SubscriptionCallback); `present` is false for null. */
    constructor WithCallback(present: bool)
      ensures Valid() && trace == []
      ensures State() == Create(if present then SingleSlot else Silent)
    {
      notifier := if present then SingleSlot else Silent;
      retryEnabled, observed, subscription, request, built, complete := false, None, Null, None, 0, false;
      trace := [];
    }

    /** RequestObservable(SubscriptionCallbackSwitch); `present` is false for null. */
    constructor WithSwitch(present: bool)
      ensures Valid() && trace == []
      ensures State() == Create(if present then KeyedSlot else Silent)
    {
      notifier := if present then KeyedSlot else Silent;
      retryEnabled, observed, subscription, request, built, complete := false, None, Null, None, 0, false;
      trace := [];
    }

    /** Both enableRetry overloads: install the retry snack bar. */
    method EnableRetry()
      requires Valid()
      modifies this
      ensures Valid()
      ensures var o := Lifecycle.EnableRetry(old(State())); State() == o.handle && trace == old(trace) + o.events
    {
      retryEnabled := true;
    }

    method IsUnsubscribed() returns (r: bool)
      ensures r == Lifecycle.IsUnsubscribed(State())
    {
      r := subscription.Null? || subscription.Ended?;
    }

    method IsSubscribed() returns (r: bool)
      ensures r == Lifecycle.IsSubscribed(State())
      ensures r != Lifecycle.IsUnsubscribed(State())
    {
      var u := IsUnsubscribed();
      r := !u;
    }

    method BeforeRequest(code: int)
      modifies this`trace
      ensures trace == old(trace) + BeforeHook(notifier, code)
    {
      match notifier
      case SingleSlot => trace := trace + [SingleBefore];
      case KeyedSlot => trace := trace + [KeyedBefore(code)];
      case Silent =>
    }

    method AfterRequest(code: int)
      modifies this`trace
      ensures trace == old(trace) + AfterHook(notifier, code, complete)
    {
      match notifier
      case SingleSlot => trace := trace + [SingleAfter(complete)];
      case KeyedSlot => trace := trace + [KeyedAfter(code, complete)];
      case Silent =>
    }

    /** The doOnUnsubscribe action of the observable built for `code`. */
    method Teardown(code: int)
      modifies this`trace
      ensures trace == old(trace) + Lifecycle.Teardown(State(), code)
    {
      if request.Some? {
        trace := trace + [Cancel(request.value)];
      }
      AfterRequest(code);
    }

    /** Ending mSubscription; a live subscription runs its teardown once. */
    method EndSubscription()
      requires Valid()
      modifies this
      ensures Valid()
      ensures var o := Lifecycle.EndSubscription(old(State())); State() == o.handle && trace == old(trace) + o.events
    {
      if subscription.Live? {
        var code := subscription.code;
        subscription := Ended(code);
        Teardown(code);
      }
    }

    method ProcessSubscribe(code: int)
      requires Valid()
      modifies this
      ensures Valid()
      ensures var o := Lifecycle.ProcessSubscribe(old(State()), code); State() == o.handle && trace == old(trace) + o.events
    {
      complete := true;
      BeforeRequest(code);
      observed := Some(code);
      // mObservable.subscribe() runs the OnSubscribe body: buildRequest and enqueue
      request := Some(built);
      built := built + 1;
      subscription := Live(code);
    }

    /** proccessSubscribe(callback): request code 0. */
    method ProcessSubscribeDefault()
      requires Valid()
      modifies this
      ensures Valid()
      ensures var o := Lifecycle.ProcessSubscribe(old(State()), 0); State() == o.handle && trace == old(trace) + o.events
    {
      ProcessSubscribe(0);
    }

    method Unsubscribe()
      requires Valid()
      modifies this
      ensures Valid()
      ensures var o := Lifecycle.Unsubscribe(old(State())); State() == o.handle && trace == old(trace) + o.events
    {
      var u := IsUnsubscribed();
      if !u {
        complete := false;
        EndSubscription();
      }
    }

    method Subscribe(code: int, override: bool)
      requires Valid()
      modifies this
      ensures Valid()
      ensures var o := Lifecycle.Subscribe(old(State()), code, override); State() == o.handle && trace == old(trace) + o.events
    {
      if override {
        Unsubscribe();
        ProcessSubscribe(code);
      } else {
        var u := IsUnsubscribed();
        if u {
          ProcessSubscribe(code);
        }
      }
    }

    /** subscribe(code, callback): without override. */
    method SubscribeCode(code: int)
      requires Valid()
      modifies this
      ensures Valid()
      ensures var o := Lifecycle.Subscribe(old(State()), code, false); State() == o.handle && trace == old(trace) + o.events
    {
      Subscribe(code, false);
    }

    /** subscribe(callback): request code 0, without override. */
    method SubscribeDefault()
      requires Valid()
      modifies this
      ensures Valid()
      ensures var o := Lifecycle.Subscribe(old(State()), 0, false); State() == o.handle && trace == old(trace) + o.events
    {
      Subscribe(0, false);
    }

    /** The enqueued call's onResponse. */
    method DeliverResponse()
      requires Valid() && request.Some?
      modifies this
      ensures Valid()
      ensures var o := Lifecycle.DeliverResponse(old(State())); State() == o.handle && trace == old(trace) + o.events
    {
      var subscribed := IsSubscribed();
      trace := trace + [Response(request.value, subscribed)];
      request := None;
      EndSubscription();
    }

    /** The enqueued call's onFailure. */
    method DeliverFailure()
      requires Valid() && request.Some?
      modifies this
      ensures Valid()
      ensures var o := Lifecycle.DeliverFailure(old(State())); State() == o.handle && trace == old(trace) + o.events
    {
      var subscribed := IsSubscribed();
      trace := trace + [Failure(request.value, subscribed)];
      if subscribed && retryEnabled {
        trace := trace + [ShowRetry];
      }
      request := None;
      EndSubscription();
    }

    /** The retry snack bar's click listener. */
    method RetryClick()
      requires Valid() && retryEnabled && observed.Some?
      modifies this
      ensures Valid()
      ensures var o := Lifecycle.RetryClick(old(State())); State() == o.handle && trace == old(trace) + o.events
    {
      request := Some(built);
      built := built + 1;
      subscription := Live(observed.value);
    }
  }
}
