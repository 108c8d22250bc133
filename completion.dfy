/**
 * How a finished attempt becomes listener calls and registry bookkeeping: the
 * `Callback` that `get()` enqueues (`onResponse`, `onFailure`) and the
 * `Subscriber` that `obGet()` subscribes (`onNext`, `onCompleted`, `onError`).
 * Each callback is a function from what it is told to the events it causes.
 */
module Completion {

  import opened Wrappers
  import opened Events

  /** `HttpURLConnection.HTTP_OK` */
  const HTTP_OK: int := 200

  /** The message of the throwable reported when a failed response carries no error text. */
  const NO_CACHE_MESSAGE: string := "There may be no cache data!"

  /** How a Retrofit `Call` finished, as its `Callback` is told. */
  datatype CallOutcome =
    | Responded(code: int, body: Text, errorText: Text)  // `onResponse`; `errorText` is the error body read as a string
    | Failed(canceled: bool, fault: Fault)               // `onFailure`; `canceled` is `call.isCanceled()`

  /** One notification the observable delivers to the subscriber. */
  datatype Signal = Next(result: Text) | Completed | Error(fault: Fault)

  /** The fields of the request that the callbacks read when they run. */
  datatype RequestFields = RequestFields(listener: Option<ListenerRef>, tag: Option<RequestTag>, url: Text)

  /** Every listener call among `es` goes to the request's listener. */
  predicate NotifiesOnly(es: seq<Event>, listener: Option<ListenerRef>)
  {
    forall e <- es :: e.Notify? ==> listener == Some(e.listener)
  }

  /**
   * The shape every callback path has: nothing but listener calls, then one
   * `removeCall(tag, url)` as the last event.
   */
  predicate EndsWithRemoval(es: seq<Event>, cb: RequestFields)
  {
    && |es| > 0
    && (forall e <- es :: e.Notify? || e.RemoveCall?)
    && es[|es| - 1] == RemoveCall(cb.tag, cb.url)
    && Count(es, IsRemoval) == 1
    && Count(es, IsRegistration) == 0
  }

  /** An error reported with a message the request made up itself never has an empty message. */
  predicate NoEmptyMessage(cs: seq<ListenerCall>)
  {
    forall c <- cs :: c.OnError? && c.cause.Raised? ==> c.cause.message != ""
  }

  /** `handleSuccess(listener, result)`: one `onSuccess(result)`, or nothing when the listener is null. */
  function HandleSuccess(listener: Option<ListenerRef>, result: Text): (es: seq<Event>)
    ensures forall e <- es :: e.Notify?
    ensures listener.None? ==> es == []
    ensures NotifiesOnly(es, listener)
    ensures ListenerCalls(es) == if listener.Some? then [OnSuccess(result)] else []
    ensures Count(es, IsRemoval) == 0 && Count(es, IsRegistration) == 0
  {
    if listener.Some? then [Notify(listener.value, OnSuccess(result))] else []
  }

  /** `handleError(listener, t)`: one `onError(t)`, or nothing when the listener is null. */
  function HandleError(listener: Option<ListenerRef>, cause: Cause): (es: seq<Event>)
    ensures forall e <- es :: e.Notify?
    ensures listener.None? ==> es == []
    ensures NotifiesOnly(es, listener)
    ensures ListenerCalls(es) == if listener.Some? then [OnError(cause)] else []
    ensures Count(es, IsRemoval) == 0 && Count(es, IsRegistration) == 0
  {
    if listener.Some? then [Notify(listener.value, OnError(cause))] else []
  }

  /** `delivery` followed by `removeCall(tag, url)`, the ending every callback path shares. */
  function ThenRemove(delivery: seq<Event>, cb: RequestFields): (es: seq<Event>)
    requires forall e <- delivery :: e.Notify?
    requires Count(delivery, IsRemoval) == 0 && Count(delivery, IsRegistration) == 0
    ensures EndsWithRemoval(es, cb)
    ensures ListenerCalls(es) == ListenerCalls(delivery)
    ensures NotifiesOnly(delivery, cb.listener) ==> NotifiesOnly(es, cb.listener)
    ensures delivery == [] ==> es == [RemoveCall(cb.tag, cb.url)]
  {
    var es := delivery + [RemoveCall(cb.tag, cb.url)];
    CountAppend(delivery, [RemoveCall(cb.tag, cb.url)], IsRemoval);
    CountAppend(delivery, [RemoveCall(cb.tag, cb.url)], IsRegistration);
    ListenerCallsAppend(delivery, [RemoveCall(cb.tag, cb.url)]);
    es
  }

  /**
   * `onResponse`: status 200 delivers the body to `onSuccess`; any other
   * status delivers an error, carrying the error text when there is some and
   * the fixed no-cache message when it is null or empty; then the call is
   * removed from the registry.
   */
  function CallbackOnResponse(cb: RequestFields, code: int, body: Text, errorText: Text): (es: seq<Event>)
    ensures EndsWithRemoval(es, cb)
    ensures NotifiesOnly(es, cb.listener)
    ensures cb.listener.None? ==> es == [RemoveCall(cb.tag, cb.url)]
    ensures cb.listener.Some? && code == HTTP_OK ==> ListenerCalls(es) == [OnSuccess(body)]
    ensures cb.listener.Some? && code != HTTP_OK && !IsEmpty(errorText) ==>
              ListenerCalls(es) == [OnError(Raised(errorText.value))]
    ensures cb.listener.Some? && code != HTTP_OK && IsEmpty(errorText) ==>
              ListenerCalls(es) == [OnError(Raised(NO_CACHE_MESSAGE))]
    ensures NoEmptyMessage(ListenerCalls(es))
  {
    if code == HTTP_OK then
      ThenRemove(HandleSuccess(cb.listener, body), cb)
    else if !IsEmpty(errorText) then
      ThenRemove(HandleError(cb.listener, Raised(errorText.value)), cb)
    else
      ThenRemove(HandleError(cb.listener, Raised(NO_CACHE_MESSAGE)), cb)
  }

  /**
   * `onFailure`: a call that was cancelled reports nothing; any other
   * transport failure is passed to `onError` as it is; then the call is
   * removed from the registry in both cases.
   */
  function CallbackOnFailure(cb: RequestFields, canceled: bool, fault: Fault): (es: seq<Event>)
    ensures EndsWithRemoval(es, cb)
    ensures NotifiesOnly(es, cb.listener)
    ensures canceled || cb.listener.None? ==> es == [RemoveCall(cb.tag, cb.url)]
    ensures !canceled ==> ListenerCalls(es) == if cb.listener.Some? then [OnError(Propagated(fault))] else []
  {
    if !canceled then
      ThenRemove(HandleError(cb.listener, Propagated(fault)), cb)
    else
      ThenRemove([], cb)
  }

  /** The events of the `Callback` that `get()` enqueues, for the way the call finished. */
  function OnCallCompleted(cb: RequestFields, outcome: CallOutcome): (es: seq<Event>)
    ensures EndsWithRemoval(es, cb)
    ensures NotifiesOnly(es, cb.listener)
    ensures |ListenerCalls(es)| <= 1
    ensures NoEmptyMessage(ListenerCalls(es))
  {
    match outcome
    case Responded(code, body, errorText) => CallbackOnResponse(cb, code, body, errorText)
    case Failed(canceled, fault) => CallbackOnFailure(cb, canceled, fault)
  }

  /** `onNext(result)`: the result goes to `onSuccess`, then the call is removed. */
  function SubscriberOnNext(cb: RequestFields, result: Text): (es: seq<Event>)
    ensures EndsWithRemoval(es, cb)
    ensures NotifiesOnly(es, cb.listener)
    ensures ListenerCalls(es) == if cb.listener.Some? then [OnSuccess(result)] else []
    ensures cb.listener.None? ==> es == [RemoveCall(cb.tag, cb.url)]
  {
    ThenRemove(HandleSuccess(cb.listener, result), cb)
  }

  /** `onError(e)`: the throwable goes to the listener's `onError` as it is, then the call is removed. */
  function SubscriberOnError(cb: RequestFields, fault: Fault): (es: seq<Event>)
    ensures EndsWithRemoval(es, cb)
    ensures NotifiesOnly(es, cb.listener)
    ensures ListenerCalls(es) == if cb.listener.Some? then [OnError(Propagated(fault))] else []
    ensures cb.listener.None? ==> es == [RemoveCall(cb.tag, cb.url)]
  {
    ThenRemove(HandleError(cb.listener, Propagated(fault)), cb)
  }

  /** The events one signal causes; `onCompleted` does nothing. */
  function OnSignal(cb: RequestFields, s: Signal): seq<Event>
  {
    match s
    case Next(result) => SubscriberOnNext(cb, result)
    case Completed => []
    case Error(fault) => SubscriberOnError(cb, fault)
  }

  /** The events of the subscriber of `obGet()` for the signals it receives, in order. */
  function OnSignals(cb: RequestFields, signals: seq<Signal>): seq<Event>
    decreases |signals|
  {
    if signals == [] then [] else OnSignal(cb, signals[0]) + OnSignals(cb, signals[1..])
  }

  /** How many of `signals` reach the listener: the `Next` and `Error` signals. */
  function Handled(signals: seq<Signal>): nat
    decreases |signals|
  {
    if signals == [] then 0 else (if signals[0].Completed? then 0 else 1) + Handled(signals[1..])
  }

  /**
   * Reference definition: the listener call each signal is meant to cause, in
   * order; `Next(r)` is `onSuccess(r)`, `Error(e)` is `onError(e)`, and
   * `Completed` causes none.
   */
  function Delivered(signals: seq<Signal>): seq<ListenerCall>
    decreases |signals|
  {
    if signals == [] then []
    else
      match signals[0]
      case Next(r) => [OnSuccess(r)] + Delivered(signals[1..])
      case Completed => Delivered(signals[1..])
      case Error(f) => [OnError(Propagated(f))] + Delivered(signals[1..])
  }

  /** Every removal in `es` is `removeCall(tag, url)` for this request's tag and url. */
  predicate RemovesOnlyOwnKey(es: seq<Event>, cb: RequestFields)
  {
    forall e <- es :: e.RemoveCall? ==> e == RemoveCall(cb.tag, cb.url)
  }

  /**
   * Over any sequence of signals the subscriber removes the call under its
   * own (tag, url) once per `Next` or `Error`, never registers it, makes no
   * service call, notifies only its listener, and calls the listener (when
   * there is one) exactly as `Delivered` says, in order; with no listener it
   * makes no listener call.
   */
  lemma {:induction false} SignalsBookkeeping(cb: RequestFields, signals: seq<Signal>)
    ensures Count(OnSignals(cb, signals), IsRemoval) == Handled(signals)
    ensures Count(OnSignals(cb, signals), IsRegistration) == 0
    ensures NotifiesOnly(OnSignals(cb, signals), cb.listener)
    ensures RemovesOnlyOwnKey(OnSignals(cb, signals), cb)
    ensures forall e <- OnSignals(cb, signals) :: e.Notify? || e.RemoveCall?
    ensures ListenerCalls(OnSignals(cb, signals)) == if cb.listener.Some? then Delivered(signals) else []
    decreases |signals|
  {
    if signals != [] {
      var head, rest := OnSignal(cb, signals[0]), OnSignals(cb, signals[1..]);
      SignalsBookkeeping(cb, signals[1..]);
      CountAppend(head, rest, IsRemoval);
      CountAppend(head, rest, IsRegistration);
      ListenerCallsAppend(head, rest);
    }
  }

  /**
   * The streams a Retrofit observable produces: one result then completion,
   * or a single error. Each yields its one delivery and exactly one removal at
   * the end; a subscription cancelled before any signal yields nothing at all.
   */
  lemma RetrofitStreams(cb: RequestFields, result: Text, fault: Fault)
    ensures OnSignals(cb, [Next(result), Completed]) == SubscriberOnNext(cb, result)
    ensures OnSignals(cb, [Error(fault)]) == SubscriberOnError(cb, fault)
    ensures OnSignals(cb, []) == []
  {
    assert [Next(result), Completed][1..] == [Completed];
    assert [Completed][1..] == [];
    assert [Error(fault)][1..] == [];
  }
}
