/**
 * The `useSSE` hook as an object whose fields its operations update in place:
 * `readyState`, `controllerRef.current`, the controllers (attempts) made so far,
 * and the calls made to the caller's handlers. Each method is proved against
 * the state-machine function of the same operation in module Lifecycle.
 */
module UseSse {
  import opened Optional
  import opened Lifecycle

  class Hook<R, M, E> {
    /** The options of the latest render. */
    var options: Options
    var readyState: ReadyState
    /** `controllerRef.current`, as the index of its attempt. */
    var current: Option<nat>
    /** Every controller created, with the request it was handed to the transport in. */
    var attempts: seq<Attempt>
    /** Every call made to `onOpen`, `onMessage` or `onError`. */
    var forwarded: seq<Forward<R, M, E>>

    function State(): (s: HookState<R, M, E>)
      reads this
    {
      HookState(options, readyState, current, attempts, forwarded)
    }

    ghost predicate Valid()
      reads this
    {
      Inv(State())
    }

    /** The first render: `useState(0)`, `useRef(null)`; no effect has run yet. */
    constructor (o: Options)
      ensures Valid() && State() == Initial(o)
    {
      options := o;
      readyState := Connecting;
      current := None;
      attempts := [];
      forwarded := [];
    }

    /** A render's `connect` closure; `o` is the options of that render. */
    method Connect(o: Options)
      requires Valid()
      modifies this
      ensures Valid()
      ensures State() == Lifecycle.Connect(old(State()), o)
    {
      ConnectKeepsInv(State(), o);
      if current.Some? {
        var k := current.value;
        attempts := attempts[k := attempts[k].(aborted := true)];
      }
      var id := |attempts|;
      attempts := attempts + [Attempt(RequestFor(o, id), HandlersOf(o), false)];
      current := Some(id);
      readyState := Connecting;
    }

    method Close()
      requires Valid()
      modifies this
      ensures Valid()
      ensures State() == Lifecycle.Close(old(State()))
    {
      CloseKeepsInv(State());
      if current.Some? {
        var k := current.value;
        attempts := attempts[k := attempts[k].(aborted := true)];
        readyState := Closed;
      }
    }

    /** A render's `reconnect` calls that render's `connect` and nothing else;
        `o` is the options of the render the caller took it from. */
    method Reconnect(o: Options)
      requires Valid()
      modifies this
      ensures Valid()
      ensures State() == Lifecycle.Connect(old(State()), o)
    {
      Connect(o);
    }

    /** The effect's first run, after the first render. */
    method Mount()
      requires Valid()
      modifies this
      ensures Valid()
      ensures State() == Lifecycle.Connect(old(State()), old(options))
    {
      Connect(options);
    }

    /** A later render: when a dependency changed, the previous effect's
        cleanup (`close`) runs, then the new effect (`connect`). */
    method Rerender(o: Options)
      requires Valid()
      modifies this
      ensures Valid()
      ensures State() == Lifecycle.Rerender(old(State()), o)
    {
      var changed := DependenciesOf(o) != DependenciesOf(options);
      options := o;
      if changed {
        Close();
        Connect(o);
      }
    }

    /** The owning component unmounts: the last effect's cleanup, `close`. */
    method Unmount()
      requires Valid()
      modifies this
      ensures Valid()
      ensures State() == Lifecycle.Close(old(State()))
    {
      Close();
    }

    /** The transport calls `onopen` of attempt `attempt`. */
    method OnOpen(attempt: nat, response: R)
      requires Valid() && attempt < |attempts|
      modifies this
      ensures Valid()
      ensures State() == Lifecycle.OnOpen(old(State()), attempt, response)
    {
      readyState := Open;
      var handler := attempts[attempt].forwardsTo.onOpen;
      if handler.Some? {
        forwarded := forwarded + [Opened(handler.value, response)];
      }
    }

    /** The transport calls `onmessage` of attempt `attempt`. */
    method OnMessage(attempt: nat, message: M)
      requires Valid() && attempt < |attempts|
      modifies this
      ensures Valid()
      ensures State() == Lifecycle.OnMessage(old(State()), attempt, message)
    {
      var handler := attempts[attempt].forwardsTo.onMessage;
      if handler.Some? {
        forwarded := forwarded + [Received(handler.value, message)];
      }
    }

    /** The transport calls `onerror` of attempt `attempt`. */
    method OnError(attempt: nat, error: E)
      requires Valid() && attempt < |attempts|
      modifies this
      ensures Valid()
      ensures State() == Lifecycle.OnError(old(State()), attempt, error)
    {
      readyState := Closed;
      var handler := attempts[attempt].forwardsTo.onError;
      if handler.Some? {
        forwarded := forwarded + [Failed(handler.value, error)];
      }
    }
  }

  /** Mounting at "/events"; the transport is asked for "/events" with the
      first controller's signal and reports open, then two messages.
      The caller sees Connecting, then Open with `onOpen` called, then the two
      messages in order. */
  method OpenThenTwoMessages<R, M, E>(o: Options, response: R, first: M, second: M)
    returns (request: Request, states: seq<ReadyState>, calls: seq<Forward<R, M, E>>)
    requires o.url == "/events" && o.onOpen.Some? && o.onMessage.Some?
    ensures request.url == "/events" && request.signal == 0
    ensures states == [Connecting, Open, Open, Open]
    ensures calls == [Opened(o.onOpen.value, response), Received(o.onMessage.value, first), Received(o.onMessage.value, second)]
  {
    var hook := new Hook<R, M, E>(o);
    hook.Mount();
    states := [hook.readyState];
    request := hook.attempts[0].request;
    hook.OnOpen(0, response);
    states := states + [hook.readyState];
    hook.OnMessage(0, first);
    states := states + [hook.readyState];
    hook.OnMessage(0, second);
    states := states + [hook.readyState];
    calls := hook.forwarded;
  }

  /** Mounting, then `close` before the transport reports open: the controller
      is aborted at once and readyState is 2; nothing was forwarded. */
  method CloseBeforeOpen<R, M, E>(o: Options)
    returns (state: ReadyState, aborted: bool, calls: seq<Forward<R, M, E>>)
    ensures state == Closed && aborted && calls == []
  {
    var hook := new Hook<R, M, E>(o);
    hook.Mount();
    hook.Close();
    state := hook.readyState;
    aborted := hook.attempts[0].aborted;
    calls := hook.forwarded;
  }

  /** An open stream receives a terminal error: readyState is 2, `onError` is
      called once after `onOpen` (if present), and no new attempt is made. */
  method ErrorAfterOpen<R, M, E>(o: Options, response: R, error: E)
    returns (state: ReadyState, attemptsMade: nat, calls: seq<Forward<R, M, E>>)
    requires o.onError.Some?
    ensures state == Closed && attemptsMade == 1
    ensures calls == (if o.onOpen.Some? then [Opened(o.onOpen.value, response)] else []) + [Failed(o.onError.value, error)]
  {
    var hook := new Hook<R, M, E>(o);
    hook.Mount();
    hook.OnOpen(0, response);
    hook.OnError(0, error);
    state := hook.readyState;
    attemptsMade := |hook.attempts|;
    calls := hook.forwarded;
  }

  /** `close` with no controller ever created changes nothing: readyState
      stays at its initial 0. */
  method CloseBeforeMount<R, M, E>(o: Options) returns (code: nat, attemptsMade: nat)
    ensures code == 0 && attemptsMade == 0
  {
    var hook := new Hook<R, M, E>(o);
    hook.Close();
    code := Code(hook.readyState);
    attemptsMade := |hook.attempts|;
  }

  /** A render that changes only `openWhenHidden` or `fetch` does not restart
      the stream. A `reconnect` kept from the first render still sends the
      first render's options; the one from the later render sends the new ones. */
  method StaleReconnectKeepsItsOptions<R, M, E>(first: Options, later: Options)
    returns (fromKept: Request, fromLatest: Request, restarted: bool)
    requires DependenciesOf(later) == DependenciesOf(first)
    ensures !restarted
    ensures fromKept == RequestFor(first, 1) && fromLatest == RequestFor(later, 2)
  {
    var hook := new Hook<R, M, E>(first);
    hook.Mount();
    hook.Rerender(later);
    restarted := |hook.attempts| != 1;
    hook.Reconnect(first);
    fromKept := hook.attempts[1].request;
    hook.Reconnect(later);
    fromLatest := hook.attempts[2].request;
  }
}
