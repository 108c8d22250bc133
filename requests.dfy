/**
 * `HttpRequest` and its `Builder`: collecting a request's tag, url, headers,
 * parameters and listener, overlaying them on the client's defaults, and the
 * two ways of sending it (`get()` with a callback, `obGet()` with a subscriber).
 */
module Requests {

  import opened Wrappers
  import opened StringMaps
  import opened Events
  import opened Completion

  /**
   * The view this model has of `RetrofitClient`: the defaults that
   * `getHeaders()` and `getParams()` return, and the trace of what requests do
   * (service calls, `addCall`/`removeCall`, listener calls), in order.
   */
  class Client {

    var defaultHeaders: map<string, string>
    var defaultParams: map<string, string>
    var trace: seq<Event>

    constructor (headers: map<string, string>, params: map<string, string>)
      ensures defaultHeaders == headers && defaultParams == params && trace == []
    {
      defaultHeaders, defaultParams, trace := headers, params, [];
    }
  }

  /** `HttpRequest.Builder`. Every setter changes one field (or one map) and returns the builder itself. */
  class Builder {

    var tag: Option<RequestTag>
    var url: Text
    const headers: HashMap
    const params: HashMap
    var listener: Option<ListenerRef>

    /** Every write made to `headers` and to `params`, in order. */
    ghost var headerWrites: seq<MapWrite>
    ghost var paramWrites: seq<MapWrite>

    /** Each map holds what its writes leave in an initially empty map. */
    ghost predicate Valid()
      reads this, headers, params
    {
      && headers != params
      && headers.entries == Replay(map[], headerWrites)
      && params.entries == Replay(map[], paramWrites)
    }

    constructor ()
      ensures Valid() && fresh(headers) && fresh(params)
      ensures tag == None && url == None && listener == None
      ensures headerWrites == [] && paramWrites == []
      ensures headers.entries == map[] && params.entries == map[]
    {
      tag, url, listener := None, None, None;
      headers := new HashMap();
      params := new HashMap();
      headerWrites, paramWrites := [], [];
    }

    /** `tag(tag)` */
    method Tag(t: Option<RequestTag>) returns (self: Builder)
      modifies this`tag
      ensures self == this && tag == t
    {
      tag := t;
      self := this;
    }

    /** `url(url)` */
    method Url(u: Text) returns (self: Builder)
      modifies this`url
      ensures self == this && url == u
    {
      url := u;
      self := this;
    }

    /** `listener(listener)` */
    method Listener(l: Option<ListenerRef>) returns (self: Builder)
      modifies this`listener
      ensures self == this && listener == l
    {
      listener := l;
      self := this;
    }

    /** `header(key, value)`: `put` into the header map. */
    method Header(key: string, value: string) returns (self: Builder)
      requires Valid()
      modifies headers, this`headerWrites
      ensures Valid() && self == this
      ensures headerWrites == old(headerWrites) + [MapWrite.Put(key, value)]
      ensures headers.entries == Apply(old(headers.entries), MapWrite.Put(key, value))
      ensures params.entries == old(params.entries)
    {
      ReplayAppend(map[], headerWrites, MapWrite.Put(key, value));
      headers.Put(key, value);
      headerWrites := headerWrites + [MapWrite.Put(key, value)];
      self := this;
    }

    /** `headers(entries)`: `putAll` into the header map. */
    method Headers(entries: map<string, string>) returns (self: Builder)
      requires Valid()
      modifies headers, this`headerWrites
      ensures Valid() && self == this
      ensures headerWrites == old(headerWrites) + [MapWrite.PutAll(entries)]
      ensures headers.entries == Apply(old(headers.entries), MapWrite.PutAll(entries))
      ensures params.entries == old(params.entries)
    {
      ReplayAppend(map[], headerWrites, MapWrite.PutAll(entries));
      headers.PutAll(entries);
      headerWrites := headerWrites + [MapWrite.PutAll(entries)];
      self := this;
    }

    /** `param(key, value)`: `put` into the parameter map. */
    method Param(key: string, value: string) returns (self: Builder)
      requires Valid()
      modifies params, this`paramWrites
      ensures Valid() && self == this
      ensures paramWrites == old(paramWrites) + [MapWrite.Put(key, value)]
      ensures params.entries == Apply(old(params.entries), MapWrite.Put(key, value))
      ensures headers.entries == old(headers.entries)
    {
      ReplayAppend(map[], paramWrites, MapWrite.Put(key, value));
      params.Put(key, value);
      paramWrites := paramWrites + [MapWrite.Put(key, value)];
      self := this;
    }

    /** `params(entries)`: `putAll` into the parameter map. */
    method Params(entries: map<string, string>) returns (self: Builder)
      requires Valid()
      modifies params, this`paramWrites
      ensures Valid() && self == this
      ensures paramWrites == old(paramWrites) + [MapWrite.PutAll(entries)]
      ensures params.entries == Apply(old(params.entries), MapWrite.PutAll(entries))
      ensures headers.entries == old(headers.entries)
    {
      ReplayAppend(map[], paramWrites, MapWrite.PutAll(entries));
      params.PutAll(entries);
      paramWrites := paramWrites + [MapWrite.PutAll(entries)];
      self := this;
    }

    /** `build()`: the request takes the builder's fields, and shares its two maps rather than copying them. */
    method Build() returns (r: HttpRequest)
      ensures fresh(r)
      ensures r.tag == tag && r.url == url && r.listener == listener
      ensures r.headers == headers && r.params == params
    {
      r := new HttpRequest(this);
    }
  }

  /** `HttpRequest` */
  class HttpRequest {

    var tag: Option<RequestTag>
    var url: Text
    var headers: HashMap
    var params: HashMap
    var listener: Option<ListenerRef>

    constructor (b: Builder)
      ensures tag == b.tag && url == b.url && listener == b.listener
      ensures headers == b.headers && params == b.params
    {
      tag, url, listener := b.tag, b.url, b.listener;
      headers, params := b.headers, b.params;
    }

    /** The fields the completion callbacks read when they run. */
    function Fields(): (cb: RequestFields)
      reads this
      ensures cb.listener == listener && cb.tag == tag && cb.url == url
    {
      RequestFields(listener, tag, url)
    }

    /**
     * `addRequestInfo()`: fresh copies of the client's default headers and
     * parameters with this request's own laid over them replace this
     * request's maps; the maps it had before (the builder's) are not written.
     */
    method AddRequestInfo(client: Client)
      modifies this`headers, this`params
      ensures fresh(headers) && fresh(params) && headers != params
      ensures headers.entries == Overlay(client.defaultHeaders, old(headers.entries))
      ensures params.entries == Overlay(client.defaultParams, old(params.entries))
    {
      var h := new HashMap.Copy(client.defaultHeaders);
      var p := new HashMap.Copy(client.defaultParams);
      h.PutAll(headers.entries);
      p.PutAll(params.entries);
      headers := h;
      params := p;
    }

    /**
     * `get()`: merge in the defaults, issue the call with the merged maps,
     * register it under (tag, url) and, once `outcome` is known, run the
     * callback. `outcome` stands for whatever the transport reports.
     */
    method Get(client: Client, outcome: CallOutcome)
      modifies this`headers, this`params, client`trace
      ensures fresh(headers) && fresh(params) && headers != params
      ensures headers.entries == Overlay(client.defaultHeaders, old(headers.entries))
      ensures params.entries == Overlay(client.defaultParams, old(params.entries))
      ensures client.trace == old(client.trace) + GetTrace(Fields(), params.entries, headers.entries, outcome)
    {
      AddRequestInfo(client);
      client.trace := client.trace + [IssueGet(url, params.entries, headers.entries), AddCall(tag, url)];
      client.trace := client.trace + OnCallCompleted(Fields(), outcome);
    }

    /**
     * `obGet()`: merge in the defaults, subscribe to the observable issued
     * with the merged maps, register the subscription under (tag, url), and
     * then handle the `signals` it delivers on the main thread.
     */
    method ObGet(client: Client, signals: seq<Signal>)
      modifies this`headers, this`params, client`trace
      ensures fresh(headers) && fresh(params) && headers != params
      ensures headers.entries == Overlay(client.defaultHeaders, old(headers.entries))
      ensures params.entries == Overlay(client.defaultParams, old(params.entries))
      ensures client.trace == old(client.trace) + ObGetTrace(Fields(), params.entries, headers.entries, signals)
    {
      AddRequestInfo(client);
      client.trace := client.trace + [IssueObGet(url, params.entries, headers.entries), AddCall(tag, url)];
      client.trace := client.trace + OnSignals(Fields(), signals);
    }
  }

  /** What one `get()` adds to the trace. */
  function GetTrace(cb: RequestFields, params: map<string, string>, headers: map<string, string>, outcome: CallOutcome): seq<Event>
  {
    [IssueGet(cb.url, params, headers), AddCall(cb.tag, cb.url)] + OnCallCompleted(cb, outcome)
  }

  /** What one `obGet()` adds to the trace. */
  function ObGetTrace(cb: RequestFields, params: map<string, string>, headers: map<string, string>, signals: seq<Signal>): seq<Event>
  {
    [IssueObGet(cb.url, params, headers), AddCall(cb.tag, cb.url)] + OnSignals(cb, signals)
  }

  /**
   * One `get()` issues the call with the merged maps, registers it once
   * under (tag, url) before anything else happens to it, calls the listener
   * at most once, and ends by removing it once under the same key.
   */
  lemma GetBookkeeping(cb: RequestFields, params: map<string, string>, headers: map<string, string>, outcome: CallOutcome)
    ensures var t := GetTrace(cb, params, headers, outcome);
      && t[0] == IssueGet(cb.url, params, headers)
      && t[1] == AddCall(cb.tag, cb.url)
      && Count(t, IsRegistration) == 1
      && Count(t, IsRemoval) == 1
      && t[|t| - 1] == RemoveCall(cb.tag, cb.url)
      && RemovesOnlyOwnKey(t, cb)
      && (forall i :: 2 <= i < |t| ==> t[i].Notify? || t[i].RemoveCall?)
      && |ListenerCalls(t)| <= 1
      && NotifiesOnly(t, cb.listener)
  {
  }

  /**
   * One `obGet()` registers the subscription once, right after issuing it,
   * and then removes it under the same (tag, url) once for every result or
   * error it handles, calling its listener once per signal as `Delivered` says.
   */
  lemma ObGetBookkeeping(cb: RequestFields, params: map<string, string>, headers: map<string, string>, signals: seq<Signal>)
    ensures var t := ObGetTrace(cb, params, headers, signals);
      && t[0] == IssueObGet(cb.url, params, headers)
      && t[1] == AddCall(cb.tag, cb.url)
      && Count(t, IsRegistration) == 1
      && Count(t, IsRemoval) == Handled(signals)
      && RemovesOnlyOwnKey(t, cb)
      && NotifiesOnly(t, cb.listener)
      && ListenerCalls(t) == if cb.listener.Some? then Delivered(signals) else []
  {
    var prefix := [IssueObGet(cb.url, params, headers), AddCall(cb.tag, cb.url)];
    var rest := OnSignals(cb, signals);
    SignalsBookkeeping(cb, signals);
    CountAppend(prefix, rest, IsRegistration);
    CountAppend(prefix, rest, IsRemoval);
    ListenerCallsAppend(prefix, rest);
  }

  /**
   * A request built from a builder sends, for every header and parameter key,
   * the value of the builder's last write to that key, or the client's
   * default when the builder never wrote it.
   */
  lemma SentValues(defaults: map<string, string>, writes: seq<MapWrite>, k: string)
    ensures Find(Overlay(defaults, Replay(map[], writes)), k) ==
              if LastWrite(writes, k).Some? then LastWrite(writes, k) else Find(defaults, k)
  {
    ReplayLastWriteWins(map[], writes, k);
  }
}
