/**
 * What a request does that can be observed from outside: the calls it makes on
 * the Retrofit service, the registry bookkeeping on the client (`addCall`,
 * `removeCall`) and the calls it makes on its listener, recorded in order.
 */
module Events {

  import opened Wrappers

  /** A Java `String` reference: `None` is `null`. */
  type Text = Option<string>

  /** `TextUtils.isEmpty`: null or of length zero. */
  predicate IsEmpty(s: Text)
  {
    s.None? || |s.value| == 0
  }

  /** The object a request is tagged with, known only by its identity. */
  datatype RequestTag = RequestTag(id: nat)

  /** An `IListener` object, known only by its identity. */
  datatype ListenerRef = ListenerRef(id: nat)

  /** A `Throwable` produced by the transport or by the observable, known only by its identity. */
  datatype Fault = Fault(id: nat)

  /** The `Throwable` handed to `onError`. */
  datatype Cause =
    | Raised(message: string)   // `new Throwable(message)`, made by the request itself
    | Propagated(fault: Fault)  // a throwable received from the transport, passed on as it is

  /** A call on `IListener`. */
  datatype ListenerCall = OnSuccess(result: Text) | OnError(cause: Cause)

  datatype Event =
    | IssueGet(url: Text, params: map<string, string>, headers: map<string, string>)
    | IssueObGet(url: Text, params: map<string, string>, headers: map<string, string>)
    | AddCall(tag: Option<RequestTag>, url: Text)
    | RemoveCall(tag: Option<RequestTag>, url: Text)
    | Notify(listener: ListenerRef, call: ListenerCall)

  predicate IsRegistration(e: Event)
  {
    e.AddCall?
  }

  predicate IsRemoval(e: Event)
  {
    e.RemoveCall?
  }

  /** How many events of `es` satisfy `p`. */
  function Count(es: seq<Event>, p: Event -> bool): nat
  {
    if es == [] then 0 else (if p(es[0]) then 1 else 0) + Count(es[1..], p)
  }

  /** The listener calls among `es`, in order. */
  function ListenerCalls(es: seq<Event>): seq<ListenerCall>
  {
    if es == [] then []
    else if es[0].Notify? then [es[0].call] + ListenerCalls(es[1..])
    else ListenerCalls(es[1..])
  }

  lemma {:induction false} CountAppend(a: seq<Event>, b: seq<Event>, p: Event -> bool)
    ensures Count(a + b, p) == Count(a, p) + Count(b, p)
    decreases |a|
  {
    if a == [] {
      assert a + b == b;
    } else {
      assert (a + b)[0] == a[0];
      assert (a + b)[1..] == a[1..] + b;
      CountAppend(a[1..], b, p);
    }
  }

  lemma {:induction false} ListenerCallsAppend(a: seq<Event>, b: seq<Event>)
    ensures ListenerCalls(a + b) == ListenerCalls(a) + ListenerCalls(b)
    decreases |a|
  {
    if a == [] {
      assert a + b == b;
    } else {
      assert (a + b)[0] == a[0];
      assert (a + b)[1..] == a[1..] + b;
      ListenerCallsAppend(a[1..], b);
    }
  }
}
