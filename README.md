# HttpRequest of RetrofitUtils, modelled in Dafny

RetrofitUtils is a thin layer over Retrofit, OkHttp and RxJava for Android. Its
`HttpRequest` class is the part with logic of its own:

- `HttpRequest.Builder` collects a tag, a url, headers, query parameters and a
  listener. Headers and parameters go into `HashMap`s with `put` and `putAll`,
  so the last write to a key wins.
- `addRequestInfo()` takes copies of the client-wide default headers and
  parameters, lays the request's own maps over them (the request wins on a
  clash), and makes the copies the request's maps.
- `get()` sends the request through a Retrofit `Call` and registers the call
  with the client under (tag, url). Its callback turns the way the call
  finished into listener calls: status 200 goes to `onSuccess`. Any other
  status goes to `onError` with the error text, or with the fixed message
  "There may be no cache data!" when that text is null or empty. A transport
  failure goes to `onError`, unless the call was cancelled, and then nothing is
  reported. Every path ends with `removeCall(tag, url)`.
- `obGet()` sends the request through an RxJava observable and registers the
  subscription under (tag, url) after subscribing. Its subscriber is simpler
  than the callback of `get()`. Each `onNext` result goes to `onSuccess` and
  each `onError` throwable goes to `onError` unchanged, each followed by
  `removeCall(tag, url)`. There is no status test, no error-text or
  fixed-message branch and no `isCanceled()` test. `onCompleted` does
  nothing, so a subscription that only completes, or is unsubscribed before
  any signal, never calls `removeCall`.

The model has five modules:

- `Wrappers`: `Option`, with `None` standing for a Java `null`.
- `StringMaps`: `Overlay` is `putAll` as a value. `MapWrite`, `Replay` and
  `LastWrite` describe a history of `put`/`putAll` writes. Class `HashMap` is
  a mutable map object that is shared by reference.
- `Events`: the trace of what a request does. This covers service calls,
  `addCall`/`removeCall` and listener calls, plus counting functions over it.
- `Completion`: each callback of `get()` and `obGet()` as a pure function from
  what it is told to the events it causes. `RequestFields` holds the three
  fields of the request the callbacks read: listener, tag and url.
- `Requests`: classes `Builder`, `HttpRequest` and `Client`, the stand-in for
  `RetrofitClient`. Their methods update fields and maps in place and append
  to the client's trace.

The builder and the built request share the same two `HashMap` objects. The
constructor copies the references, not the maps. The model keeps this: writes
made through the builder after `build()` are seen by the request until its
`addRequestInfo()` swaps in fresh copies. The builder also keeps ghost histories
of its writes. Its invariant ties each map to the replay of its history, so
`ReplayLastWriteWins` gives last-write-wins over the builder's whole life.

What is an input to the model:

- The defaults returned by `RetrofitClient.getHeaders()` and `getParams()` are
  fields of `Client`.
- The singleton from `RetrofitClient.getInstance()` is passed to `Get` and
  `ObGet` as a parameter.
- The way a call finished (`CallOutcome`) and the signals an observable
  delivers (`Signal`) are parameters. They stand for the transport.
- The error body comes as an already-read string (`errorText`). `IsEmpty` is
  `TextUtils.isEmpty`: null or of length zero.

## Notes on the code

- The message used for a failed response without error text is "There may be
  no cache data!" (line 175).
- The status test is exactly `response.code() == HTTP_OK`, that is 200
  (line 163). Every other status, including other 2xx codes, takes the error
  branch.
- `onFailure` calls `removeCall` for a cancelled call too (line 188).
- A built request shares the builder's two map objects (lines 49-50) until
  its first `get()`/`obGet()` replaces them with merged copies (lines 234-235).
- `obGet()` calls `addCall` after `subscribe` (lines 200-222), while `get()`
  calls it before `enqueue` (lines 157-158).

## Model

| member | source | states |
|---|---|---|
| StringMaps.Overlay | retrofit/src/main/java/com/excellence/retrofit/HttpRequest.java:230-235 | the merged map's keys are exactly the default keys plus the request's keys; every key the request sets has the request's value; every default key the request does not set keeps the default value |
| StringMaps.OverlayIdempotent | retrofit/src/main/java/com/excellence/retrofit/HttpRequest.java:228-236 | merging the same defaults into an already merged map gives the same map, so a second `get()` sends what the first sent |
| StringMaps.OverlayDisjoint | retrofit/src/main/java/com/excellence/retrofit/HttpRequest.java:228-236 | when defaults and request keys are disjoint the merge is their plain union, whichever side is laid on top |
| StringMaps.Apply | retrofit/src/main/java/com/excellence/retrofit/HttpRequest.java:95-136 | a `put`/`putAll` gives every key it writes the written value and leaves every other key's value, or its absence, as it was |
| StringMaps.ReplayAppend | retrofit/src/main/java/com/excellence/retrofit/HttpRequest.java:95-136 | replaying a history with one more write is applying that write to what the earlier history left |
| StringMaps.ReplayLastWriteWins | retrofit/src/main/java/com/excellence/retrofit/HttpRequest.java:95-136 | after any sequence of `put`/`putAll` writes a key holds the value of the latest write to it, and a key never written keeps its initial value or stays absent |
| StringMaps.HashMap.constructor | retrofit/src/main/java/com/excellence/retrofit/HttpRequest.java:60-61 | a new map is empty |
| StringMaps.HashMap.Copy | retrofit/src/main/java/com/excellence/retrofit/HttpRequest.java:230-231 | a copy-constructed map holds exactly the source's entries |
| StringMaps.HashMap.Put | retrofit/src/main/java/com/excellence/retrofit/HttpRequest.java:97 | the new entries are the old ones after the write `Put(key, value)` |
| StringMaps.HashMap.PutAll | retrofit/src/main/java/com/excellence/retrofit/HttpRequest.java:109 | the new entries are the old ones after the write `PutAll(source)` |
| Completion.HandleSuccess | retrofit/src/main/java/com/excellence/retrofit/HttpRequest.java:238-242 | nothing but listener calls: exactly one `onSuccess(result)` to the listener, or no event at all for a null listener |
| Completion.HandleError | retrofit/src/main/java/com/excellence/retrofit/HttpRequest.java:244-248 | nothing but listener calls: exactly one `onError(cause)` to the listener, or no event at all for a null listener |
| Completion.ThenRemove | retrofit/src/main/java/com/excellence/retrofit/HttpRequest.java:178 | appending `removeCall(tag, url)` to a delivery of listener calls leaves the listener calls as they were, makes the removal the last event and the only other event, and gives just the removal for an empty delivery |
| Completion.CallbackOnResponse | retrofit/src/main/java/com/excellence/retrofit/HttpRequest.java:161-179 | status 200 gives exactly `onSuccess(body)`; another status with non-empty error text gives exactly `onError` with that text; with null or empty text it gives exactly `onError` with "There may be no cache data!", never an empty message; nothing but listener calls and `removeCall(tag, url)` once, last; for a null listener exactly `[removeCall(tag, url)]` |
| Completion.CallbackOnFailure | retrofit/src/main/java/com/excellence/retrofit/HttpRequest.java:182-189 | a cancelled call, or any failure with a null listener, yields exactly `[removeCall(tag, url)]`; any other failure yields exactly `onError(t)` with the received throwable and otherwise only `removeCall(tag, url)` once, last |
| Completion.OnCallCompleted | retrofit/src/main/java/com/excellence/retrofit/HttpRequest.java:158-190 | whatever the outcome, nothing but listener calls and one `removeCall(tag, url)` as the last event; at most one listener call, only to the request's listener, with no made-up empty message |
| Completion.SubscriberOnNext | retrofit/src/main/java/com/excellence/retrofit/HttpRequest.java:203-207 | exactly `onSuccess(result)` and otherwise only `removeCall(tag, url)` once, last; for a null listener exactly `[removeCall(tag, url)]` |
| Completion.SubscriberOnError | retrofit/src/main/java/com/excellence/retrofit/HttpRequest.java:216-220 | exactly `onError(e)` with the received throwable and otherwise only `removeCall(tag, url)` once, last; for a null listener exactly `[removeCall(tag, url)]` |
| Completion.SignalsBookkeeping | retrofit/src/main/java/com/excellence/retrofit/HttpRequest.java:200-221 | over any sequence of delivered signals: one `removeCall(tag, url)`, always under the request's own key, per `onNext` or `onError`; only listener calls and removals; with a listener the listener calls are exactly `Delivered(signals)` in order (`onSuccess(r)` per `Next(r)`, `onError(e)` per `Error(e)`, none for `Completed`), and none without one |
| Completion.RetrofitStreams | retrofit/src/main/java/com/excellence/retrofit/HttpRequest.java:200-221 | a result followed by completion is exactly the `onNext` path, a single error is exactly the `onError` path, and a subscription that delivers nothing causes no event |
| Requests.Builder.constructor | retrofit/src/main/java/com/excellence/retrofit/HttpRequest.java:56-62 | a new builder has null tag, url and listener and two distinct, empty, fresh maps with empty histories |
| Requests.Builder.Tag | retrofit/src/main/java/com/excellence/retrofit/HttpRequest.java:70-74 | sets the tag (last write wins), changes nothing else and returns the builder |
| Requests.Builder.Url | retrofit/src/main/java/com/excellence/retrofit/HttpRequest.java:82-86 | sets the url (last write wins), changes nothing else and returns the builder |
| Requests.Builder.Listener | retrofit/src/main/java/com/excellence/retrofit/HttpRequest.java:138-142 | sets the listener (last write wins), changes nothing else and returns the builder |
| Requests.Builder.Header | retrofit/src/main/java/com/excellence/retrofit/HttpRequest.java:95-99 | `put`s into the header map, records the write in the header history, keeps the invariant and leaves the parameter map unchanged |
| Requests.Builder.Headers | retrofit/src/main/java/com/excellence/retrofit/HttpRequest.java:107-111 | `putAll`s into the header map, records the write in the header history, keeps the invariant and leaves the parameter map unchanged |
| Requests.Builder.Param | retrofit/src/main/java/com/excellence/retrofit/HttpRequest.java:120-124 | `put`s into the parameter map, records the write in the parameter history, keeps the invariant and leaves the header map unchanged |
| Requests.Builder.Params | retrofit/src/main/java/com/excellence/retrofit/HttpRequest.java:132-136 | `putAll`s into the parameter map, records the write in the parameter history, keeps the invariant and leaves the header map unchanged |
| Requests.Builder.Build | retrofit/src/main/java/com/excellence/retrofit/HttpRequest.java:144-147 | a fresh request with the builder's tag, url and listener that shares (does not copy) the builder's two maps |
| Requests.HttpRequest.constructor | retrofit/src/main/java/com/excellence/retrofit/HttpRequest.java:45-54 | the request's fields are the builder's, with the maps shared by reference |
| Requests.HttpRequest.AddRequestInfo | retrofit/src/main/java/com/excellence/retrofit/HttpRequest.java:228-236 | the request's maps become fresh, distinct maps holding the client defaults overlaid with the request's previous entries; the earlier map objects are not written |
| Requests.HttpRequest.Get | retrofit/src/main/java/com/excellence/retrofit/HttpRequest.java:153-191 | the maps are merged as by `addRequestInfo`, and the trace grows by exactly the `get()` trace: the service call with the merged maps, `addCall(tag, url)`, then the callback's events for the outcome |
| Requests.HttpRequest.ObGet | retrofit/src/main/java/com/excellence/retrofit/HttpRequest.java:196-223 | the maps are merged as by `addRequestInfo`, and the trace grows by exactly the `obGet()` trace: the subscription with the merged maps, `addCall(tag, url)`, then the subscriber's events for the delivered signals |
| Requests.GetBookkeeping | retrofit/src/main/java/com/excellence/retrofit/HttpRequest.java:155-190 | a `get()` trace starts with the service call and `addCall(tag, url)`, registers exactly once, has only listener calls and removals after that, removes exactly once under the same key as its last event, and calls only its listener, at most once |
| Requests.ObGetBookkeeping | retrofit/src/main/java/com/excellence/retrofit/HttpRequest.java:198-222 | an `obGet()` trace starts with the subscription and `addCall(tag, url)`, registers exactly once, removes under the same (tag, url) once per handled result or error, and calls its listener exactly as `Delivered(signals)` says |
| Requests.SentValues | retrofit/src/main/java/com/excellence/retrofit/HttpRequest.java:95-136 | for every key, the merged map a request sends holds the builder's last write to that key, or the client default when the builder never wrote it |

## Left out

- Threads and scheduling are not modelled: `Schedulers.io()`, delivery on the main thread, `enqueue`'s worker threads. The model records only which events happen and in what order. For `obGet()` it assumes the call is made on the main thread. Then the subscriber's events, which are posted to the main thread, come after `addCall`. Called from another thread, a result could be handled before `addCall` runs; the model does not capture that race.
- The internals of `RetrofitClient.addCall`/`removeCall` are not modelled, because `RetrofitClient` is not part of this model. Registering, removing and cancelling by tag appear only as trace events. Cancellation is represented only by its effect: the `canceled` flag of a failed call, or signals that never arrive.
- `RetrofitClient.getInstance()` is a process-wide singleton. It is passed to `Get`/`ObGet` as a parameter instead.
- `Utils.checkURL`, `checkParams` and `checkHeaders` are not part of this model. The service-call events record the url and maps handed to them, before any checking.
- The transport (`getService().get`/`obGet`, `call.enqueue`, OkHttp, its disk cache) is not modelled. Its result is a parameter.
- `Utils.inputStream2String` is stream I/O. The error body is given as text that has already been read.
- Retrofit gives no error body object for a 2xx response other than 200, and there the Java code would dereference null at line 169. The model does not capture that exception. It treats such a response like any other non-200 response, with the error text it is given.
- Java `null` keys or values in the maps are not modelled: keys and values are non-null strings. A null map passed to `headers`/`params`, which makes `putAll` throw, is not modelled either: map arguments are values.
- Listener callbacks are assumed to return normally. The source has no try/finally around them. If `onSuccess` or `onError` throws inside `get()`'s callback (lines 165, 171, 175, 186), the `removeCall` at line 178 or 188 never runs. If `onSuccess` throws in `obGet()`'s `onNext` (line 205), line 206 is skipped, and RxJava's safe subscriber passes the exception to `onError` (lines 218-219), which calls the listener's `onError` and then removes the call. The "one `removeCall` as the last event" contracts (`EndsWithRemoval`, `OnCallCompleted`, `SignalsBookkeeping`) hold only under this assumption.
- The model does not check that the observable keeps RxJava's rules, such as nothing after a terminal signal. The signals are taken as the subscriber receives them, and `RetrofitStreams` covers the shapes a Retrofit observable produces.
- `OkHttpProvider` (client configuration, lazy singleton, logging interceptor) is outside the modelled core.
- `GetActivity` is UI code outside the modelled core. It calls a `get(listener)` overload that `HttpRequest.java` does not have, and the model follows `HttpRequest.java`.
