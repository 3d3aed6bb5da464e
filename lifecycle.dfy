/**
 * The connection lifecycle of the `useSSE` hook as a state machine on values.
 *
 * The hook keeps a `readyState` (0, 1, 2) and a reference to the AbortController
 * of its current attempt. Every call of `connect` creates a controller and hands a
 * request to the transport; here each such attempt is recorded in `attempts`, and
 * `current` is the index of the controller held by the reference. Aborting a
 * controller sets its attempt's `aborted` flag.
 */
module Lifecycle {
  import opened Optional

  /** The `readyState` values, numbered as the `readyState` attribute of the
      EventSource interface (WHATWG HTML Living Standard, section 9.2). */
  datatype ReadyState = Connecting | Open | Closed

  function Code(r: ReadyState): (n: nat)
    ensures n < 3
    ensures n == 0 <==> r == Connecting
    ensures n == 1 <==> r == Open
    ensures n == 2 <==> r == Closed
  {
    match r
    case Connecting => 0
    case Open => 1
    case Closed => 2
  }

  /** Identity of a JavaScript object the hook only passes on or compares:
      a handler function, a FormData object, a fetch override. */
  type ObjectRef = nat

  datatype Body = Text(text: string) | Form(form: ObjectRef)

  /** The options the caller renders the hook with; absent members are `None`. */
  datatype Options = Options(
    url: string,
    headers: Option<map<string, string>>,
    httpMethod: Option<string>,
    body: Option<Body>,
    onMessage: Option<ObjectRef>,
    onOpen: Option<ObjectRef>,
    onError: Option<ObjectRef>,
    fetch: Option<ObjectRef>,
    openWhenHidden: Option<bool>)

  /** `method || 'GET'`: an absent or empty method (both falsy) becomes GET. */
  function ResolveMethod(httpMethod: Option<string>): (r: string)
    ensures r != ""
    ensures r == "GET" <==> httpMethod in {None, Some(""), Some("GET")}
    ensures httpMethod.Some? && httpMethod.value != "" ==> r == httpMethod.value
  {
    if httpMethod.None? || httpMethod.value == "" then "GET" else httpMethod.value
  }

  /** `openWhenHidden ?? true`: only an absent value defaults; an explicit false is kept. */
  function ResolveOpenWhenHidden(openWhenHidden: Option<bool>): (r: bool)
    ensures !r <==> openWhenHidden == Some(false)
  {
    match openWhenHidden
    case None => true
    case Some(b) => b
  }

  /** The arguments of one `fetchEventSource` call; `signal` identifies the
      attempt whose controller's signal is passed. */
  datatype Request = Request(
    url: string,
    httpMethod: string,
    headers: Option<map<string, string>>,
    body: Option<Body>,
    signal: nat,
    fetch: Option<ObjectRef>,
    openWhenHidden: bool)

  /** The arguments `connect` passes to the transport: url, headers, body and
      `fetch` as given, the defaulted method and `openWhenHidden`, and the
      signal of the new controller. */
  function RequestFor(o: Options, signal: nat): (r: Request)
    ensures r.url == o.url && r.headers == o.headers && r.body == o.body && r.fetch == o.fetch
    ensures r.signal == signal
    ensures r.httpMethod == ResolveMethod(o.httpMethod)
    ensures r.openWhenHidden == ResolveOpenWhenHidden(o.openWhenHidden)
  {
    Request(o.url, ResolveMethod(o.httpMethod), o.headers, o.body, signal, o.fetch,
            ResolveOpenWhenHidden(o.openWhenHidden))
  }

  /** The caller's handlers that an attempt's `onopen`, `onmessage` and `onerror`
      closures forward to: those of the options the attempt was created with. */
  datatype Handlers = Handlers(onMessage: Option<ObjectRef>, onOpen: Option<ObjectRef>, onError: Option<ObjectRef>)

  function HandlersOf(o: Options): (r: Handlers)
  {
    Handlers(o.onMessage, o.onOpen, o.onError)
  }

  /** One attempt: the request given to the transport, the handlers its callbacks
      forward to, and whether its AbortController has been aborted. */
  datatype Attempt = Attempt(request: Request, forwardsTo: Handlers, aborted: bool)

  /** One call of a caller's handler, with the handler's identity and its argument. */
  datatype Forward<R, M, E> =
    | Opened(handler: ObjectRef, response: R)
    | Received(handler: ObjectRef, message: M)
    | Failed(handler: ObjectRef, error: E)

  /** The hook's state: the options of the latest render, `readyState`,
      `controllerRef.current` (as an index into `attempts`), every attempt made so
      far, and every call made to the caller's handlers so far. */
  datatype HookState<R, M, E> = HookState(
    options: Options,
    readyState: ReadyState,
    current: Option<nat>,
    attempts: seq<Attempt>,
    forwarded: seq<Forward<R, M, E>>)

  /** The state after the first render: `useState(0)` and `useRef(null)`. */
  function Initial<R, M, E>(o: Options): (s: HookState<R, M, E>)
    ensures s.options == o && Code(s.readyState) == 0 && s.current.None? && s.attempts == [] && s.forwarded == []
  {
    HookState(o, Connecting, None, [], [])
  }

  /** `controllerRef.current` refers to a controller that was created. */
  predicate WellFormed<R, M, E>(s: HookState<R, M, E>)
  {
    s.current.Some? ==> s.current.value < |s.attempts|
  }

  /** The central invariant: every controller that is not aborted is the one
      `controllerRef.current` holds, so at most one is live. */
  predicate OneLiveController<R, M, E>(s: HookState<R, M, E>)
  {
    forall i :: 0 <= i < |s.attempts| && !s.attempts[i].aborted ==> s.current == Some(i)
  }

  /** The invariant every reachable state keeps: the reference is null exactly
      until the first attempt, then holds the newest controller; each
      request's signal is its own attempt's; at most one controller is live. */
  predicate Inv<R, M, E>(s: HookState<R, M, E>)
  {
    && (s.current.None? <==> s.attempts == [])
    && (s.current.Some? ==> s.current.value == |s.attempts| - 1)
    && (forall i :: 0 <= i < |s.attempts| ==> s.attempts[i].request.signal == i)
    && OneLiveController(s)
  }

  /** `controller.abort()` on the controller of attempt `k`. */
  function Abort(attempts: seq<Attempt>, k: nat): (r: seq<Attempt>)
    requires k < |attempts|
    ensures |r| == |attempts| && r[k].aborted
    ensures r[k].request == attempts[k].request && r[k].forwardsTo == attempts[k].forwardsTo
    ensures forall i :: 0 <= i < |attempts| && i != k ==> r[i] == attempts[i]
  {
    attempts[k := attempts[k].(aborted := true)]
  }

  /** `connect`: abort the controller the reference holds, if any; create a new
      controller and store it; set readyState to 0; call the transport with the
      options `o` and the new controller's signal. Every render builds its own
      `connect` closure, so `o` is the options of the render that built the
      closure being called, which need not be the latest one. */
  function Connect<R, M, E>(s: HookState<R, M, E>, o: Options): (r: HookState<R, M, E>)
    requires WellFormed(s)
    ensures WellFormed(r)
    ensures r.readyState == Connecting
    ensures |r.attempts| == |s.attempts| + 1 && r.current == Some(|s.attempts|)
    ensures r.attempts[|s.attempts|] == Attempt(RequestFor(o, |s.attempts|), HandlersOf(o), false)
    ensures s.current.Some? ==> r.attempts[s.current.value].aborted
    ensures forall i :: 0 <= i < |s.attempts| ==>
              r.attempts[i].request == s.attempts[i].request && r.attempts[i].forwardsTo == s.attempts[i].forwardsTo
    ensures forall i :: 0 <= i < |s.attempts| && s.current != Some(i) ==> r.attempts[i] == s.attempts[i]
    ensures r.options == s.options && r.forwarded == s.forwarded
  {
    var attempts := if s.current.Some? then Abort(s.attempts, s.current.value) else s.attempts;
    var id := |attempts|;
    s.(attempts := attempts + [Attempt(RequestFor(o, id), HandlersOf(o), false)],
       current := Some(id),
       readyState := Connecting)
  }

  /** `close`: with a controller in the reference, abort it and set readyState
      to 2; the reference is not cleared. Without one, nothing happens. */
  function Close<R, M, E>(s: HookState<R, M, E>): (r: HookState<R, M, E>)
    requires WellFormed(s)
    ensures WellFormed(r)
    ensures r.current == s.current && |r.attempts| == |s.attempts|
    ensures s.current.None? ==> r == s
    ensures s.current.Some? ==> r.readyState == Closed && r.attempts[s.current.value].aborted
    ensures forall i :: 0 <= i < |s.attempts| ==>
              r.attempts[i].request == s.attempts[i].request && r.attempts[i].forwardsTo == s.attempts[i].forwardsTo
    ensures forall i :: 0 <= i < |s.attempts| && s.current != Some(i) ==> r.attempts[i] == s.attempts[i]
    ensures r.options == s.options && r.forwarded == s.forwarded
  {
    if s.current.Some? then
      s.(attempts := Abort(s.attempts, s.current.value), readyState := Closed)
    else
      s
  }

  /** The `onopen` callback of attempt `attempt`: readyState becomes 1 and the
      response goes to that attempt's `onOpen`, if present. */
  function OnOpen<R, M, E>(s: HookState<R, M, E>, attempt: nat, response: R): (r: HookState<R, M, E>)
    requires attempt < |s.attempts|
    ensures r.readyState == Open
    ensures r.attempts == s.attempts && r.current == s.current && r.options == s.options
    ensures s.forwarded <= r.forwarded
    ensures |r.forwarded| == |s.forwarded| + (if s.attempts[attempt].forwardsTo.onOpen.Some? then 1 else 0)
    ensures s.attempts[attempt].forwardsTo.onOpen.Some? ==>
              r.forwarded[|s.forwarded|] == Opened(s.attempts[attempt].forwardsTo.onOpen.value, response)
  {
    var handler := s.attempts[attempt].forwardsTo.onOpen;
    s.(readyState := Open,
       forwarded := s.forwarded + (if handler.Some? then [Opened(handler.value, response)] else []))
  }

  /** The `onmessage` callback: the message goes verbatim to `onMessage`, if
      present; readyState is left as it is. */
  function OnMessage<R, M, E>(s: HookState<R, M, E>, attempt: nat, message: M): (r: HookState<R, M, E>)
    requires attempt < |s.attempts|
    ensures r.readyState == s.readyState
    ensures r.attempts == s.attempts && r.current == s.current && r.options == s.options
    ensures s.forwarded <= r.forwarded
    ensures |r.forwarded| == |s.forwarded| + (if s.attempts[attempt].forwardsTo.onMessage.Some? then 1 else 0)
    ensures s.attempts[attempt].forwardsTo.onMessage.Some? ==>
              r.forwarded[|s.forwarded|] == Received(s.attempts[attempt].forwardsTo.onMessage.value, message)
  {
    var handler := s.attempts[attempt].forwardsTo.onMessage;
    s.(forwarded := s.forwarded + (if handler.Some? then [Received(handler.value, message)] else []))
  }

  /** The `onerror` callback: readyState becomes 2 and the error goes to
      `onError`, if present. It neither aborts nor creates an attempt. */
  function OnError<R, M, E>(s: HookState<R, M, E>, attempt: nat, error: E): (r: HookState<R, M, E>)
    requires attempt < |s.attempts|
    ensures r.readyState == Closed
    ensures r.attempts == s.attempts && r.current == s.current && r.options == s.options
    ensures s.forwarded <= r.forwarded
    ensures |r.forwarded| == |s.forwarded| + (if s.attempts[attempt].forwardsTo.onError.Some? then 1 else 0)
    ensures s.attempts[attempt].forwardsTo.onError.Some? ==>
              r.forwarded[|s.forwarded|] == Failed(s.attempts[attempt].forwardsTo.onError.value, error)
  {
    var handler := s.attempts[attempt].forwardsTo.onError;
    s.(readyState := Closed,
       forwarded := s.forwarded + (if handler.Some? then [Failed(handler.value, error)] else []))
  }

  /** The effect's dependency list: `fetch` and `openWhenHidden` are not in it. */
  datatype Dependencies = Dependencies(
    url: string,
    headers: Option<map<string, string>>,
    httpMethod: Option<string>,
    body: Option<Body>,
    onMessage: Option<ObjectRef>,
    onOpen: Option<ObjectRef>,
    onError: Option<ObjectRef>)

  function DependenciesOf(o: Options): (d: Dependencies)
  {
    Dependencies(o.url, o.headers, o.httpMethod, o.body, o.onMessage, o.onOpen, o.onError)
  }

  /** Two renders' dependency lists agree exactly when their options differ
      at most in `fetch` and `openWhenHidden`. */
  lemma DependenciesIgnoreFetchAndVisibility(a: Options, b: Options)
    ensures DependenciesOf(a) == DependenciesOf(b) <==> a.(fetch := b.fetch, openWhenHidden := b.openWhenHidden) == b
  {
  }

  /** A render with new options. When a dependency changed, the previous
      effect's cleanup runs `close` and the new effect runs `connect`. */
  function Rerender<R, M, E>(s: HookState<R, M, E>, o: Options): (r: HookState<R, M, E>)
    requires WellFormed(s)
    ensures WellFormed(r) && r.options == o
    ensures DependenciesOf(o) == DependenciesOf(s.options) ==> r == s.(options := o)
    ensures DependenciesOf(o) != DependenciesOf(s.options) ==> r == Connect(s.(options := o), o)
  {
    if DependenciesOf(o) == DependenciesOf(s.options) then
      s.(options := o)
    else
      var t := s.(options := o);
      CleanupThenConnect(t, o);
      Connect(Close(t), o)
  }

  /** Aborting a controller twice is aborting it once. */
  lemma AbortTwice(attempts: seq<Attempt>, k: nat)
    requires k < |attempts|
    ensures Abort(Abort(attempts, k), k) == Abort(attempts, k)
  {
  }

  /** The effect's cleanup-then-connect has the net effect of a single
      `connect`: the old attempt is aborted, one new attempt is made, and
      readyState is 0. */
  lemma CleanupThenConnect<R, M, E>(s: HookState<R, M, E>, o: Options)
    requires WellFormed(s)
    ensures Connect(Close(s), o) == Connect(s, o)
  {
    if s.current.Some? {
      AbortTwice(s.attempts, s.current.value);
    }
  }

  /** `close` is idempotent: a second call leaves the same state. */
  lemma CloseIdempotent<R, M, E>(s: HookState<R, M, E>)
    requires WellFormed(s)
    ensures Close(Close(s)) == Close(s)
  {
    if s.current.Some? {
      AbortTwice(s.attempts, s.current.value);
    }
  }

  /** At most one controller is live, and it is the one the reference holds. */
  lemma AtMostOneLive<R, M, E>(s: HookState<R, M, E>, i: nat, j: nat)
    requires OneLiveController(s)
    requires i < |s.attempts| && j < |s.attempts|
    requires !s.attempts[i].aborted && !s.attempts[j].aborted
    ensures i == j && s.current == Some(i)
  {
  }

  lemma ConnectKeepsInv<R, M, E>(s: HookState<R, M, E>, o: Options)
    requires Inv(s)
    ensures Inv(Connect(s, o))
    ensures OneLiveController(Connect(s, o)) && !Connect(s, o).attempts[|s.attempts|].aborted
  {
  }

  lemma CloseKeepsInv<R, M, E>(s: HookState<R, M, E>)
    requires Inv(s)
    ensures Inv(Close(s))
    ensures forall i :: 0 <= i < |s.attempts| ==> Close(s).attempts[i].aborted
  {
  }

  lemma RerenderKeepsInv<R, M, E>(s: HookState<R, M, E>, o: Options)
    requires Inv(s)
    ensures Inv(Rerender(s, o))
  {
    if DependenciesOf(o) != DependenciesOf(s.options) {
      ConnectKeepsInv(s.(options := o), o);
    }
  }

  lemma CallbacksKeepInv<R, M, E>(s: HookState<R, M, E>, attempt: nat, response: R, message: M, error: E)
    requires Inv(s) && attempt < |s.attempts|
    ensures Inv(OnOpen(s, attempt, response))
    ensures Inv(OnMessage(s, attempt, message))
    ensures Inv(OnError(s, attempt, error))
  {
  }
}
