# useSSE connection lifecycle in Dafny

This project models the connection lifecycle of the `useSSE` React hook of
react-eventsource (`src/use-sse.ts`). The hook holds one Server-Sent-Events
stream. It opens the stream through `fetchEventSource` and keeps a
`readyState`: 0 is CONNECTING, 1 is OPEN and 2 is CLOSED, the numbering of
the `readyState` attribute of the EventSource interface in the WHATWG HTML
Living Standard, section 9.2. It also keeps the AbortController of the
current attempt in `controllerRef`.

Layout:

- `optional.dfy` (module `Optional`): `Option`, which stands for a JavaScript
  value that may be `undefined` or `null`.
- `lifecycle.dfy` (module `Lifecycle`): the hook as a state machine on values.
  - `HookState` holds the options of the latest render, `readyState` and
    `current`. `current` stands for `controllerRef.current`, as an index into
    `attempts`.
  - Each `Attempt` records the request handed to the transport. It also records
    the caller handlers that this attempt's callbacks forward to, and whether
    its controller is aborted.
  - `forwarded` logs every call made to the caller's `onOpen`, `onMessage` and
    `onError`.
  - Each operation is a function with its contract. The invariant
    `OneLiveController` says that every controller that is not aborted is the
    current one.
- `traces.dfy` (module `Traces`): runs of any length.
  - A run mixes mount, `reconnect`, `close`, renders, unmount and transport
    callbacks in any order.
  - Proved for every run: the invariant holds, and history is never rewritten.
  - Under the transport's contract (it honours the abort signal), proved: an
    aborted attempt never delivers again, so after `close` or a dependency
    change no callback of an old attempt reaches the caller.
- `use_sse.dfy` (module `UseSse`): the hook as a class `Hook`.
  - Its methods update `readyState`, `current`, `attempts` and `forwarded` in
    place, step by step as the source does.
  - Each method is proved against the `Lifecycle` function of the same
    operation and keeps the invariant.
  - Five client methods play concrete scenarios through the class.

Payloads are opaque. `Response`, `EventSourceMessage` and the error value
are the type parameters `R`, `M` and `E`. Handler functions, `FormData`
objects and the `fetch` override are identities (`ObjectRef`).

Four points where the hook behaves differently from what one might expect;
the model follows the code:

- The hook does not discard stale callbacks. It relies on
  `fetchEventSource` honouring the abort signal. `Traces.StaleCallbackIsNotFiltered`
  shows that an `onerror` delivered for a superseded attempt still closes the
  hook and reaches the caller. The suppression results are therefore stated
  under the transport's contract (`Traces.Honours`).
- Only the dependency list `[url, headers, method, body, onMessage, onOpen, onError]`
  restarts the stream. A render that changes only `fetch` or `openWhenHidden`
  does not restart it. The new values are used by a `reconnect` obtained
  from that render or a later one.
- Every render builds its own `connect` and `reconnect` closures over that
  render's options. A `reconnect` kept from an earlier render, in a timer
  say, still sends that render's url, headers, method, body, `fetch` and
  `openWhenHidden`. Its attempt also forwards to that render's handlers. So
  `Connect`, `Hook.Reconnect` and the event `CallReconnect` take the
  options of the render the closure came from.
- Before the first effect runs, `readyState` is already 0, not a separate
  "no connection" state. A `close` at that point leaves it at 0.

## Model

| member | source | states |
|---|---|---|
| Lifecycle.Code | src/use-sse.ts:24-64 | the three states have the distinct codes 0 (CONNECTING, set at 24 and 35), 1 (OPEN, 46) and 2 (CLOSED, 55 and 64), and no other code occurs |
| Lifecycle.ResolveMethod | src/use-sse.ts:38 | the method sent is never empty; it is GET exactly when the option is absent, empty or "GET"; any other non-empty method passes through unchanged |
| Lifecycle.ResolveOpenWhenHidden | src/use-sse.ts:43 | `openWhenHidden` is false exactly when the option is an explicit false; absent means true |
| Lifecycle.RequestFor | src/use-sse.ts:37-43 | the transport gets url, headers, body and `fetch` as given and the new controller's signal; the method is the option's own method when that is non-empty and GET otherwise (`ResolveMethod`); `openWhenHidden` is the option's value, true when absent (`ResolveOpenWhenHidden`) |
| Lifecycle.DependenciesIgnoreFetchAndVisibility | src/use-sse.ts:77 | two renders have the same dependency list exactly when their options differ at most in `fetch` and `openWhenHidden` |
| Lifecycle.Initial | src/use-sse.ts:24-25 | before any effect, readyState is 0, no controller is held, no attempt or handler call exists, and the options are those of the first render |
| Lifecycle.Abort | src/use-sse.ts:28-29 | `abort()` marks exactly attempt k's controller aborted, keeps its request and handlers, and leaves every other attempt unchanged |
| Lifecycle.AbortTwice | src/use-sse.ts:62-63 | aborting an already aborted controller again changes nothing |
| Lifecycle.Connect | src/use-sse.ts:27-59 | the previously held controller is aborted; exactly one new attempt is added with the request resolved from the options of the render that built this `connect` and a fresh, non-aborted controller, which becomes current; it forwards to that render's handlers; readyState is CONNECTING; every older attempt's request and handlers are unchanged; no handler is called |
| Lifecycle.Close | src/use-sse.ts:61-66 | with no controller ever created the state is unchanged; otherwise the current controller is aborted and readyState is CLOSED; the reference is not cleared and no other attempt changes |
| Lifecycle.OnOpen | src/use-sse.ts:45-48 | readyState becomes OPEN; the response is appended to the handler log exactly once if that attempt's `onOpen` is present, not at all otherwise; attempts and the reference are unchanged |
| Lifecycle.OnMessage | src/use-sse.ts:50-52 | readyState is unchanged; the message is forwarded verbatim once to that attempt's `onMessage` if present; attempts and the reference are unchanged |
| Lifecycle.OnError | src/use-sse.ts:54-57 | readyState becomes CLOSED; the error is forwarded once to that attempt's `onError` if present; no attempt is created or aborted |
| Lifecycle.Rerender | src/use-sse.ts:72-77 | a render whose dependencies are unchanged only records the new options; one that changes a dependency has the net effect of one `connect` with the new options |
| Lifecycle.CleanupThenConnect | src/use-sse.ts:72-77 | the effect's cleanup `close` followed by `connect` yields exactly the state of a single `connect` |
| Lifecycle.CloseIdempotent | src/use-sse.ts:61-66 | a second `close` leaves the same state as the first |
| Lifecycle.AtMostOneLive | src/use-sse.ts:27-33 | under the invariant, two non-aborted controllers are the same one, and it is the one the reference holds |
| Lifecycle.ConnectKeepsInv | src/use-sse.ts:27-35 | `connect` preserves the invariant, and the new controller is the live one |
| Lifecycle.CloseKeepsInv | src/use-sse.ts:61-66 | `close` preserves the invariant and leaves every controller aborted |
| Lifecycle.RerenderKeepsInv | src/use-sse.ts:72-77 | a render, with or without restart, preserves the invariant |
| Lifecycle.CallbacksKeepInv | src/use-sse.ts:45-57 | the three callbacks preserve the invariant |
| Traces.Step | src/use-sse.ts:68-76 | an effect run (`Mount`) is exactly `Connect` over the options of the latest render, and `reconnect` is exactly `Connect` over the options of its own render, so each aborts the held controller and makes one new attempt with those options' request and handlers; `close` and unmount are `close`; a callback for an attempt never made changes nothing |
| Traces.StepKeepsInv | src/use-sse.ts:27-77 | every single event (mount, reconnect, close, render, unmount, callback) preserves the invariant |
| Traces.RunKeepsInv | src/use-sse.ts:27-77 | after any sequence of events, at most one controller is non-aborted and it is `controllerRef.current` |
| Traces.StepExtends | src/use-sse.ts:27-77 | no single event drops or changes an attempt's request or handlers, revives an aborted controller or retracts a handler call |
| Traces.RunExtends | src/use-sse.ts:27-77 | the same holds across any sequence of events |
| Traces.HonouredDeliveryIsCurrent | src/use-sse.ts:41-57 | if the transport honours the abort signal, every callback delivered belongs to the current, newest attempt |
| Traces.AbortedAttemptStaysSilent | src/use-sse.ts:41-57 | once an attempt's controller is aborted, no later callback of that attempt occurs in any run that honours the abort signal |
| Traces.CloseSilencesEarlierAttempts | src/use-sse.ts:61-66 | after `close`, no attempt made before it delivers any callback in a run that honours the abort signal |
| Traces.ConfigChangeRestarts | src/use-sse.ts:72-77 | a dependency change aborts every old attempt and makes exactly one new attempt with the new options, readyState CONNECTING; afterwards no old attempt delivers in a run that honours the abort signal |
| Traces.StaleCallbackIsNotFiltered | src/use-sse.ts:54-57 | the hook does not filter by attempt: an `onerror` of a superseded attempt closes the hook although the current controller is live, and reaches the superseded attempt's own `onError` (from its render's options), not the current attempt's |
| UseSse.Hook.constructor | src/use-sse.ts:24-25 | the object starts in the initial state and satisfies the invariant |
| UseSse.Hook.Connect | src/use-sse.ts:27-59 | updates the fields in place to the state `Lifecycle.Connect` gives and keeps the invariant |
| UseSse.Hook.Close | src/use-sse.ts:61-66 | updates the fields in place to the state `Lifecycle.Close` gives and keeps the invariant |
| UseSse.Hook.Reconnect | src/use-sse.ts:68-70 | has exactly the effect of `connect` over the options of the render the `reconnect` came from |
| UseSse.Hook.Mount | src/use-sse.ts:72-73 | the first effect run has exactly the effect of `connect` over the options of the current render |
| UseSse.Hook.Rerender | src/use-sse.ts:72-77 | a later render updates the fields to the state `Lifecycle.Rerender` gives and keeps the invariant |
| UseSse.Hook.Unmount | src/use-sse.ts:74-76 | the last cleanup has exactly the effect of `close` |
| UseSse.Hook.OnOpen | src/use-sse.ts:45-48 | updates the fields to the state `Lifecycle.OnOpen` gives and keeps the invariant |
| UseSse.Hook.OnMessage | src/use-sse.ts:50-52 | updates the fields to the state `Lifecycle.OnMessage` gives and keeps the invariant |
| UseSse.Hook.OnError | src/use-sse.ts:54-57 | updates the fields to the state `Lifecycle.OnError` gives and keeps the invariant |
| UseSse.OpenThenTwoMessages | src/use-sse.ts:27-52 | mount, open, two messages: the transport is asked for "/events" with the first controller's signal; readyState reads CONNECTING, then OPEN three times; `onOpen` and then both messages are forwarded, in order |
| UseSse.CloseBeforeOpen | src/use-sse.ts:61-66 | `close` before open aborts the controller at once, readyState is CLOSED and nothing has been forwarded |
| UseSse.ErrorAfterOpen | src/use-sse.ts:54-57 | an error on an open stream leaves readyState CLOSED and makes no new attempt; the handler log is `onOpen` (if present) followed by exactly one `onError` call |
| UseSse.StaleReconnectKeepsItsOptions | src/use-sse.ts:23-43 | after a render that changes only `fetch` or `openWhenHidden`, no restart happens; a `reconnect` kept from the first render sends the first options and the latest one sends the new options |
| UseSse.CloseBeforeMount | src/use-sse.ts:61-66 | `close` before any controller exists leaves readyState at 0 and creates nothing |

## Left out

- React machinery is left out: `useState`, `useRef`, the scheduling of `useEffect`, and render batching of `setReadyState`. The model sets `readyState` at once, where React shows the new value on the next render.
- React compares the dependency list by reference identity; the model compares by value. A freshly built `headers` object with the same contents restarts the stream in React but not in the model.
- The order of effects is not enforced: `Hook.Mount` and the event `Traces.Mount` are meant to happen once, after the first render and before any `Rerender` or `Render`. A run may place `Traces.Mount` anywhere and more than once; the lemmas about runs hold for all such runs, and the first effect run connects with the first render's options only in runs that keep React's order. React's development double-invocation of effects is not modelled.
- `fetchEventSource` is not part of this model. HTTP, the wire framing of SSE and the library's own retry after `onerror` are a foreign library. The library's retry reuses the same signal, so it appears only as the environment delivering further callbacks for the same non-aborted attempt.
- `CallReconnect` and `Hook.Reconnect` accept any options. The model does not check that they came from a render that actually happened. This only widens the runs the lemmas cover.
- Callbacks are left unguarded, as in the source. The transport's obligation to stop after abort is stated separately, as `Traces.Honours`.
- Traces.Step: a callback for an attempt that was never made cannot be delivered by a transport that only holds the callbacks it was given. Step treats it as no event.
- Payload contents are opaque: `Response`, `EventSourceMessage`, error values, `FormData` and the custom `fetch`. Only identity and pass-through are modelled. Headers are modelled as a map from strings to strings and compared by value.
- The `async` nature of `onopen` is not modelled, nor the visibility and backgrounding behaviour controlled by `openWhenHidden`. Only the resolved flag is recorded.
