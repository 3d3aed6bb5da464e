/**
 * Runs of the hook: any interleaving of the caller's operations, renders and
 * the transport's callbacks, and what holds after every such run.
 */
module Traces {
  import opened Optional
  import opened Lifecycle

  /** What can happen to the hook: the first effect run, the caller's
      `reconnect` and `close`, a render with (possibly) new options, the last
      effect cleanup, and a callback the transport delivers for an attempt.
      Each render returns its own `reconnect` closure, and a caller may keep
      an old one: `CallReconnect` carries the options of the render whose
      closure is called. */
  datatype Event<R, M, E> =
    | Mount
    | CallReconnect(options: Options)
    | CallClose
    | Render(options: Options)
    | Unmount
    | DeliverOpen(attempt: nat, response: R)
    | DeliverMessage(attempt: nat, message: M)
    | DeliverError(attempt: nat, error: E)

  predicate IsDelivery<R, M, E>(ev: Event<R, M, E>)
  {
    ev.DeliverOpen? || ev.DeliverMessage? || ev.DeliverError?
  }

  /** One event. The first effect run is `connect` over the options of the
      first render; `reconnect` is exactly `connect` over the options of its
      own render; unmounting runs the last cleanup, `close`. The transport only
      holds callbacks of attempts that were made, so a delivery for any other
      attempt is no event at all. */
  function Step<R, M, E>(s: HookState<R, M, E>, ev: Event<R, M, E>): (r: HookState<R, M, E>)
    requires WellFormed(s)
    ensures WellFormed(r)
    ensures ev.Mount? ==> r == Connect(s, s.options)
    ensures ev.CallReconnect? ==> r == Connect(s, ev.options)
    ensures ev.Mount? ==> r.readyState == Connecting && r.current == Some(|s.attempts|)
                          && r.attempts[|s.attempts|].request == RequestFor(s.options, |s.attempts|)
    ensures ev.CallReconnect? ==> r.readyState == Connecting && r.current == Some(|s.attempts|)
                                  && r.attempts[|s.attempts|].request == RequestFor(ev.options, |s.attempts|)
    ensures ev.Unmount? || ev.CallClose? ==> r == Close(s)
    ensures IsDelivery(ev) && ev.attempt >= |s.attempts| ==> r == s
  {
    match ev
    case Mount => Connect(s, s.options)
    case CallReconnect(o) => Connect(s, o)
    case CallClose => Close(s)
    case Render(o) => Rerender(s, o)
    case Unmount => Close(s)
    case DeliverOpen(i, response) => if i < |s.attempts| then OnOpen(s, i, response) else s
    case DeliverMessage(i, message) => if i < |s.attempts| then OnMessage(s, i, message) else s
    case DeliverError(i, error) => if i < |s.attempts| then OnError(s, i, error) else s
  }

  function Run<R, M, E>(s: HookState<R, M, E>, evs: seq<Event<R, M, E>>): (r: HookState<R, M, E>)
    requires WellFormed(s)
    ensures WellFormed(r)
    decreases |evs|
  {
    if evs == [] then s else Run(Step(s, evs[0]), evs[1..])
  }

  lemma StepKeepsInv<R, M, E>(s: HookState<R, M, E>, ev: Event<R, M, E>)
    requires Inv(s)
    ensures Inv(Step(s, ev))
  {
    match ev
    case Mount => ConnectKeepsInv(s, s.options);
    case CallReconnect(o) => ConnectKeepsInv(s, o);
    case CallClose => CloseKeepsInv(s);
    case Render(o) => RerenderKeepsInv(s, o);
    case Unmount => CloseKeepsInv(s);
    case DeliverOpen(i, response) =>
    case DeliverMessage(i, message) =>
    case DeliverError(i, error) =>
  }

  /** After any run, at most one controller is live and it is the one
      `controllerRef.current` holds. */
  lemma {:induction false} RunKeepsInv<R, M, E>(s: HookState<R, M, E>, evs: seq<Event<R, M, E>>)
    requires Inv(s)
    ensures Inv(Run(s, evs))
    decreases |evs|
  {
    if evs != [] {
      StepKeepsInv(s, evs[0]);
      RunKeepsInv(Step(s, evs[0]), evs[1..]);
    }
  }

  /** `t` continues the history of `s`: no attempt is dropped or changed, an
      aborted controller stays aborted, and no handler call is taken back. */
  ghost predicate Extends<R, M, E>(s: HookState<R, M, E>, t: HookState<R, M, E>)
  {
    && |s.attempts| <= |t.attempts|
    && (forall i :: 0 <= i < |s.attempts| ==>
          && t.attempts[i].request == s.attempts[i].request
          && t.attempts[i].forwardsTo == s.attempts[i].forwardsTo
          && (s.attempts[i].aborted ==> t.attempts[i].aborted))
    && s.forwarded <= t.forwarded
  }

  lemma ExtendsTransitive<R, M, E>(s: HookState<R, M, E>, t: HookState<R, M, E>, u: HookState<R, M, E>)
    requires Extends(s, t) && Extends(t, u)
    ensures Extends(s, u)
  {
  }

  lemma StepExtends<R, M, E>(s: HookState<R, M, E>, ev: Event<R, M, E>)
    requires WellFormed(s)
    ensures Extends(s, Step(s, ev))
  {
  }

  /** No run rewrites history: an aborted controller is never revived. */
  lemma {:induction false} RunExtends<R, M, E>(s: HookState<R, M, E>, evs: seq<Event<R, M, E>>)
    requires WellFormed(s)
    ensures Extends(s, Run(s, evs))
    decreases |evs|
  {
    if evs != [] {
      StepExtends(s, evs[0]);
      RunExtends(Step(s, evs[0]), evs[1..]);
      ExtendsTransitive(s, Step(s, evs[0]), Run(s, evs));
    }
  }

  /** The transport's side of the contract, on which the hook relies instead
      of filtering callbacks itself: callbacks arrive only for an attempt that
      was made and whose controller is not aborted. */
  predicate Honours<R, M, E>(s: HookState<R, M, E>, ev: Event<R, M, E>)
  {
    IsDelivery(ev) ==> ev.attempt < |s.attempts| && !s.attempts[ev.attempt].aborted
  }

  predicate HonouredRun<R, M, E>(s: HookState<R, M, E>, evs: seq<Event<R, M, E>>)
    requires WellFormed(s)
    decreases |evs|
  {
    evs == [] || (Honours(s, evs[0]) && HonouredRun(Step(s, evs[0]), evs[1..]))
  }

  /** Under the transport's contract every callback is one of the current attempt. */
  lemma HonouredDeliveryIsCurrent<R, M, E>(s: HookState<R, M, E>, ev: Event<R, M, E>)
    requires Inv(s) && IsDelivery(ev) && Honours(s, ev)
    ensures s.current == Some(ev.attempt) && ev.attempt == |s.attempts| - 1
  {
  }

  /** Once an attempt's controller is aborted, no callback of that attempt
      occurs in any later run that honours the transport's contract. */
  lemma {:induction false} AbortedAttemptStaysSilent<R, M, E>(s: HookState<R, M, E>, evs: seq<Event<R, M, E>>, k: nat)
    requires WellFormed(s) && k < |s.attempts| && s.attempts[k].aborted
    requires HonouredRun(s, evs)
    ensures forall n :: 0 <= n < |evs| && IsDelivery(evs[n]) ==> evs[n].attempt != k
    decreases |evs|
  {
    if evs != [] {
      var t := Step(s, evs[0]);
      StepExtends(s, evs[0]);
      AbortedAttemptStaysSilent(t, evs[1..], k);
      forall n | 1 <= n < |evs| && IsDelivery(evs[n])
        ensures evs[n].attempt != k
      {
        assert evs[n] == evs[1..][n - 1];
      }
    }
  }

  /** After `close`, an honouring transport delivers nothing of any attempt
      made before it: no `onOpen`, `onMessage` or `onError` is forwarded for
      them, whatever is attempted. */
  lemma CloseSilencesEarlierAttempts<R, M, E>(s: HookState<R, M, E>, evs: seq<Event<R, M, E>>)
    requires Inv(s)
    requires HonouredRun(Close(s), evs)
    ensures forall n :: 0 <= n < |evs| && IsDelivery(evs[n]) ==> evs[n].attempt >= |s.attempts|
  {
    CloseKeepsInv(s);
    forall n | 0 <= n < |evs| && IsDelivery(evs[n])
      ensures evs[n].attempt >= |s.attempts|
    {
      if evs[n].attempt < |s.attempts| {
        AbortedAttemptStaysSilent(Close(s), evs, evs[n].attempt);
      }
    }
  }

  /** A render that changes a dependency tears the old attempt down and makes
      exactly one new attempt with the new options; afterwards an honouring
      transport delivers nothing of the old attempts. */
  lemma ConfigChangeRestarts<R, M, E>(s: HookState<R, M, E>, o: Options, evs: seq<Event<R, M, E>>)
    requires Inv(s) && DependenciesOf(o) != DependenciesOf(s.options)
    requires HonouredRun(Rerender(s, o), evs)
    ensures var r := Rerender(s, o);
      && r.readyState == Connecting
      && |r.attempts| == |s.attempts| + 1
      && r.current == Some(|s.attempts|)
      && r.attempts[|s.attempts|].request == RequestFor(o, |s.attempts|)
      && (forall k :: 0 <= k < |s.attempts| ==> r.attempts[k].aborted)
    ensures forall n :: 0 <= n < |evs| && IsDelivery(evs[n]) ==> evs[n].attempt >= |s.attempts|
  {
    var r := Rerender(s, o);
    forall k | 0 <= k < |s.attempts|
      ensures r.attempts[k].aborted
    {
      if s.attempts[k].aborted {
      } else {
        assert s.current == Some(k);
      }
    }
    forall n | 0 <= n < |evs| && IsDelivery(evs[n])
      ensures evs[n].attempt >= |s.attempts|
    {
      if evs[n].attempt < |s.attempts| {
        AbortedAttemptStaysSilent(r, evs, evs[n].attempt);
      }
    }
  }

  /** The hook itself does not filter stale callbacks: an `onerror` delivered
      for a superseded attempt closes the hook although the current attempt
      is live, and is forwarded to the superseded attempt's own handler, not
      to the current one's. Suppression rests
      entirely on the transport honouring the aborted signal. */
  lemma StaleCallbackIsNotFiltered<R, M, E>(first: Options, second: Options, error: E)
    requires first.onError.Some?
    ensures var s := Connect(Connect(Initial<R, M, E>(first), first), second);
      && s.attempts[0].aborted && !s.attempts[1].aborted && s.current == Some(1)
      && OnError(s, 0, error).readyState == Closed
      && OnError(s, 0, error).forwarded == [Failed(first.onError.value, error)]
  {
  }
}
