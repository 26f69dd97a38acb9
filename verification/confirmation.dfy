/** The order-confirmation flow of the page.

    On mount the page reads its three parameters from the URL.  If one is
    missing or empty it shows an error and does nothing else.  Otherwise it
    arms a 15-second timer and posts the parameters to the confirmation
    endpoint; from then on the timer and the request race, and whichever
    settles first decides the status and message shown.

    The race is modelled as a sequence of discrete events on a state value:
    `Enabled` says which events the environment can still deliver, `Step`
    says what each does, and the class `ConfirmationFlow` performs the same
    updates field by field.
 */
module Confirmation {
  import opened Query

  datatype Status = Processing | Success | Rejected | Error

  const ProcessingMessage: string := "Processing your request..."
  const MissingParamsMessage: string := "Invalid request. Missing parameters."
  const TimeoutMessage: string := "Request timed out. Please try again."
  const RejectedMessage: string := "Order update was not successful."
  const FailureMessage: string := "Error processing request. Please try again."
  /** The route passed to `navigate` after a confirmed order. */
  const HomeRoute: string := "/"

  /** What can happen to the page, in the order the event loop delivers it. */
  datatype Event =
    | Mount(query: Query)
      /** the 15-second timer callback runs */
    | TimerFires
      /** the POST resolves with a body `{ success, message? }` */
    | ResponseArrives(success: bool, message: Option<string>)
      /** the POST rejects; `isCancel` when the abort caused it, `serverMessage` is `err.response.data.message` */
    | RequestFails(isCancel: bool, serverMessage: Option<string>)

  /** The page's state: the three pieces of UI state, plus what the flow has armed and sent,
      and the routes passed to the `navigate` prop (`navigations`).
      `message` is optional because a successful body without a message is stored as it is. */
  datatype State = State(
    status: Status,
    message: Option<string>,
    showFallback: bool,
    mounted: bool,
    timerArmed: bool,
    inFlight: bool,
    aborted: bool,
    requests: seq<Params>,
    navigations: seq<string>)

  /** The state of a freshly rendered page. */
  function Init(): State {
    State(Processing, Some(ProcessingMessage), false, false, false, false, false, [], [])
  }

  /** JavaScript's `m || default` on an optional string: the result is the message or the
      default, and it is never empty when the default is not. */
  function OrDefault(m: Option<string>, default: string): (r: string)
    ensures r == default || m == Some(r)
    ensures default != "" ==> r != ""
  {
    if Truthy(m) then m.value else default
  }

  /** Which events can still arrive.  The flow runs once per mount; the timer callback
      only runs while the timer is armed; the request settles once, and after the abort
      it can only settle with a cancellation error, which nothing but the abort produces. */
  predicate Enabled(s: State, e: Event) {
    match e
    case Mount(_) => !s.mounted
    case TimerFires => s.timerArmed
    case ResponseArrives(_, _) => s.inFlight && !s.aborted
    case RequestFails(isCancel, _) => s.inFlight && isCancel == s.aborted
  }

  /** The effect of one event. */
  function Step(s: State, e: Event): State
    requires Enabled(s, e)
  {
    match e
    case Mount(query) =>
      var p := ExtractParams(query);
      if !IsComplete(p) then
        s.(mounted := true, message := Some(MissingParamsMessage), status := Error)
      else
        s.(mounted := true, timerArmed := true, inFlight := true, requests := s.requests + [p])
    case TimerFires =>
      s.(timerArmed := false, aborted := true, showFallback := true,
         message := Some(TimeoutMessage), status := Error)
    case ResponseArrives(success, message) =>
      if success then
        s.(timerArmed := false, inFlight := false, message := message, status := Success,
           navigations := s.navigations + [HomeRoute])
      else
        s.(timerArmed := false, inFlight := false,
           message := Some(OrDefault(message, RejectedMessage)), status := Rejected)
    case RequestFails(isCancel, serverMessage) =>
      var text := if isCancel then TimeoutMessage else OrDefault(serverMessage, FailureMessage);
      s.(timerArmed := false, inFlight := false, message := Some(text), status := Error)
  }

  /** Applies `es` one by one; None as soon as one of them cannot arrive. */
  function Run(s: State, es: seq<Event>): Option<State>
    decreases |es|
  {
    if es == [] then Some(s)
    else if Enabled(s, es[0]) then Run(Step(s, es[0]), es[1..])
    else None
  }

  /** Nothing is armed or pending any more: the flow has finished for this page load. */
  predicate Settled(s: State) {
    s.mounted && !s.timerArmed && !s.inFlight
  }

  /** What holds of every state the flow reaches. */
  ghost predicate Inv(s: State) {
    (!s.mounted ==> s == Init()) &&
    (s.timerArmed ==> s.inFlight && !s.aborted && s.status == Processing) &&
    (s.inFlight && !s.aborted ==> s.timerArmed) &&
    (s.showFallback <==> s.aborted) &&
    (s.aborted ==> s.status == Error && s.message == Some(TimeoutMessage)) &&
    (s.status == Processing <==> !s.mounted || s.timerArmed) &&
    (s.inFlight ==> |s.requests| == 1) &&
    |s.requests| <= 1 &&
    (s.mounted && s.requests == [] ==> s.status == Error && s.message == Some(MissingParamsMessage)) &&
    (forall p :: p in s.requests ==> IsComplete(p)) &&
    s.navigations == (if s.status == Success then [HomeRoute] else []) &&
    (s.status == Error || s.status == Rejected ==> s.message.Some? && s.message.value != "")
  }

  /** The number of events that can still arrive, at most. */
  function Budget(s: State): nat {
    if !s.mounted then 3 else (if s.timerArmed then 1 else 0) + (if s.inFlight then 1 else 0)
  }

  lemma InitialState()
    ensures Inv(Init()) && Budget(Init()) == 3
    ensures Init().status == Processing && Init().message == Some(ProcessingMessage) && !Init().showFallback
  {
  }

  lemma StepKeepsInv(s: State, e: Event)
    requires Inv(s) && Enabled(s, e)
    ensures Inv(Step(s, e))
    ensures Budget(Step(s, e)) < Budget(s)
  {
  }

  /** Every state reached from an invariant state by events that can arrive keeps the invariant. */
  lemma {:induction false} RunKeepsInv(s: State, es: seq<Event>)
    requires Inv(s) && Run(s, es).Some?
    ensures Inv(Run(s, es).value)
    decreases |es|
  {
    if es != [] {
      StepKeepsInv(s, es[0]);
      RunKeepsInv(Step(s, es[0]), es[1..]);
    }
  }

  /** The flow is finite: at most three events (mount, timer, settlement) ever arrive. */
  lemma {:induction false} RunIsBounded(s: State, es: seq<Event>)
    requires Inv(s) && Run(s, es).Some?
    ensures |es| <= Budget(s)
    decreases |es|
  {
    if es != [] {
      StepKeepsInv(s, es[0]);
      RunIsBounded(Step(s, es[0]), es[1..]);
    }
  }

  /** Once the status has left `processing`, no later event changes the status or the message. */
  lemma {:induction false} TerminalPairIsStable(s: State, es: seq<Event>)
    requires Inv(s) && s.status != Processing && Run(s, es).Some?
    ensures Run(s, es).value.status == s.status
    ensures Run(s, es).value.message == s.message
    decreases |es|
  {
    if es != [] {
      StepKeepsInv(s, es[0]);
      TerminalPairIsStable(Step(s, es[0]), es[1..]);
    }
  }

  /** The fallback flag is set only by the timer and never reset. */
  lemma {:induction false} FallbackIsNeverReset(s: State, es: seq<Event>)
    requires Run(s, es).Some?
    ensures s.showFallback ==> Run(s, es).value.showFallback
    ensures Run(s, es).value.showFallback && !s.showFallback ==> TimerFires in es
    decreases |es|
  {
    if es != [] {
      FallbackIsNeverReset(Step(s, es[0]), es[1..]);
      assert es == [es[0]] + es[1..];
    }
  }

  /** Every failure is explained: in every state a fresh page reaches, an `error` or `rejected`
      status comes with a message that is present and not empty. */
  lemma FailuresCarryMessage(es: seq<Event>)
    requires Run(Init(), es).Some?
    ensures var t := Run(Init(), es).value;
      t.status == Error || t.status == Rejected ==> t.message.Some? && t.message.value != ""
  {
    InitialState();
    RunKeepsInv(Init(), es);
  }

  /** Over a whole page load at most one request is sent, with the parameters read from the URL,
      and `navigate('/')` is called at most once, exactly when the order was confirmed. */
  lemma AtMostOneRequest(q: Query, es: seq<Event>)
    requires Run(Init(), [Mount(q)] + es).Some?
    ensures var t := Run(Init(), [Mount(q)] + es).value;
      t.requests == (if IsComplete(ExtractParams(q)) then [ExtractParams(q)] else []) &&
      t.navigations == (if t.status == Success then [HomeRoute] else [])
  {
    var s := Step(Init(), Mount(q));
    assert ([Mount(q)] + es)[1..] == es;
    StepKeepsInv(Init(), Mount(q));
    RunKeepsInv(s, es);
    RequestsAreKept(s, es);
  }

  lemma {:induction false} RequestsAreKept(s: State, es: seq<Event>)
    requires s.mounted && Run(s, es).Some?
    ensures Run(s, es).value.requests == s.requests
    decreases |es|
  {
    if es != [] {
      RequestsAreKept(Step(s, es[0]), es[1..]);
    }
  }

  /** Missing or empty parameters end the flow at once: an error, no timer, no request, nothing left to happen. */
  lemma InvalidParamsPath(q: Query)
    requires !IsComplete(ExtractParams(q))
    ensures var t := Step(Init(), Mount(q));
      t.status == Error && t.message == Some(MissingParamsMessage) &&
      !t.timerArmed && t.requests == [] && !t.showFallback && Settled(t) &&
      forall e :: !Enabled(t, e)
  {
  }

  /** A valid URL arms the timer and sends exactly one request carrying the parameters. */
  lemma ValidParamsStartRequest(q: Query)
    requires IsComplete(ExtractParams(q))
    ensures var t := Step(Init(), Mount(q));
      t.status == Processing && t.message == Some(ProcessingMessage) &&
      t.timerArmed && t.inFlight && t.requests == [ExtractParams(q)]
  {
  }

  /** A body with `success` true: the server's message is shown verbatim, the timer is disarmed
      and `navigate('/')` is called once; nothing further can happen. */
  lemma SuccessPath(s: State, m: Option<string>)
    requires Inv(s) && Enabled(s, ResponseArrives(true, m))
    ensures var t := Step(s, ResponseArrives(true, m));
      t.status == Success && t.message == m && !t.timerArmed && !t.showFallback &&
      t.navigations == [HomeRoute] && Settled(t) && forall e :: !Enabled(t, e)
  {
  }

  /** A body with `success` false: rejected, with the server's message or the default. */
  lemma RejectedPath(s: State, m: Option<string>)
    requires Inv(s) && Enabled(s, ResponseArrives(false, m))
    ensures var t := Step(s, ResponseArrives(false, m));
      t.status == Rejected && t.message == Some(if Truthy(m) then m.value else RejectedMessage) &&
      t.navigations == [] && Settled(t) && forall e :: !Enabled(t, e)
  {
  }

  /** The timer fires first: fallback shown, timeout error, request aborted; the only event left
      is the cancellation error, and it leaves status and message as they are. */
  lemma TimeoutPath(s: State, m: Option<string>)
    requires Inv(s) && Enabled(s, TimerFires)
    ensures var t := Step(s, TimerFires);
      t.showFallback && t.status == Error && t.message == Some(TimeoutMessage) && t.aborted &&
      (forall e :: Enabled(t, e) <==> e.RequestFails? && e.isCancel) &&
      var u := Step(t, RequestFails(true, m));
      u.status == t.status && u.message == t.message && u.showFallback && Settled(u)
  {
  }

  /** Any other transport error before the timer: error with the server's detail or the generic
      text; the timer is disarmed so no timeout can overwrite it. */
  lemma TransportErrorPath(s: State, m: Option<string>)
    requires Inv(s) && Enabled(s, RequestFails(false, m))
    ensures var t := Step(s, RequestFails(false, m));
      t.status == Error && t.message == Some(if Truthy(m) then m.value else FailureMessage) &&
      !t.showFallback && !Enabled(t, TimerFires) && Settled(t) && forall e :: !Enabled(t, e)
  {
  }

  /** Once the status is terminal the timer can no longer fire, and a settled flow accepts no event. */
  lemma NoTimeoutAfterSettlement(s: State)
    requires Inv(s) && s.status != Processing
    ensures !Enabled(s, TimerFires)
    ensures Settled(s) <==> s.mounted && forall e :: !Enabled(s, e)
  {
    if !Settled(s) && s.mounted {
      assert Enabled(s, RequestFails(s.aborted, None));
    }
  }

  /** A mounted flow that is still processing can always settle, and a settled one is terminal. */
  lemma Progress(s: State)
    requires Inv(s) && s.mounted
    ensures s.status == Processing ==> Enabled(s, TimerFires)
    ensures !Settled(s) ==> Enabled(s, RequestFails(s.aborted, None))
    ensures Settled(s) ==> s.status != Processing
  {
  }

  /** The page component's state, updated in place by the event handlers. */
  class ConfirmationFlow {
    var status: Status
    var message: Option<string>
    var showFallback: bool
    var mounted: bool
    var timerArmed: bool
    var inFlight: bool
    var aborted: bool
    var requests: seq<Params>
    var navigations: seq<string>

    ghost function Snapshot(): State
      reads this
    {
      State(status, message, showFallback, mounted, timerArmed, inFlight, aborted, requests, navigations)
    }

    ghost predicate Valid()
      reads this
    {
      Inv(Snapshot())
    }

    constructor ()
      ensures Snapshot() == Init() && Valid()
      ensures status == Processing && message == Some(ProcessingMessage) && !showFallback
    {
      status := Processing;
      message := Some(ProcessingMessage);
      showFallback := false;
      mounted, timerArmed, inFlight, aborted := false, false, false, false;
      requests, navigations := [], [];
    }

    /** Reads the parameters, validates them and, when they are complete, arms the timer and sends the request. */
    method Mount(query: Query)
      requires Valid() && !mounted
      modifies this
      ensures Valid()
      ensures Snapshot() == Step(old(Snapshot()), Event.Mount(query))
    {
      var p := ExtractParams(query);
      mounted := true;
      if !Truthy(p.orderId) || !Truthy(p.itemId) || !Truthy(p.action) {
        message := Some(MissingParamsMessage);
        status := Error;
        return;
      }
      timerArmed := true;
      inFlight := true;
      requests := requests + [p];
    }

    /** The timer callback: abort the request, show the fallback, report the timeout. */
    method OnTimeout()
      requires Valid() && timerArmed
      modifies this
      ensures Valid()
      ensures Snapshot() == Step(old(Snapshot()), TimerFires)
      ensures showFallback && status == Error && message == Some(TimeoutMessage)
    {
      timerArmed := false;
      aborted := true;
      showFallback := true;
      message := Some(TimeoutMessage);
      status := Error;
    }

    /** The request resolved: disarm the timer, then report success (and call `navigate('/')`) or rejection. */
    method OnResponse(success: bool, serverMessage: Option<string>)
      requires Valid() && inFlight && !aborted
      modifies this
      ensures Valid()
      ensures Snapshot() == Step(old(Snapshot()), ResponseArrives(success, serverMessage))
      ensures success ==> status == Success && message == serverMessage && navigations == [HomeRoute]
      ensures !success ==> status == Rejected && message == Some(OrDefault(serverMessage, RejectedMessage))
    {
      timerArmed := false;
      inFlight := false;
      if success {
        message := serverMessage;
        status := Success;
        navigations := navigations + [HomeRoute];
      } else {
        message := Some(if Truthy(serverMessage) then serverMessage.value else RejectedMessage);
        status := Rejected;
      }
    }

    /** The request rejected: disarm the timer, then report the timeout (when the abort caused it)
        or the server's detail, and end in `error`. */
    method OnError(isCancel: bool, serverMessage: Option<string>)
      requires Valid() && inFlight && isCancel == aborted
      modifies this
      ensures Valid()
      ensures Snapshot() == Step(old(Snapshot()), RequestFails(isCancel, serverMessage))
      ensures status == Error && showFallback == old(showFallback)
      ensures message == Some(if isCancel then TimeoutMessage else OrDefault(serverMessage, FailureMessage))
    {
      timerArmed := false;
      inFlight := false;
      if isCancel {
        message := Some(TimeoutMessage);
      } else {
        message := Some(if Truthy(serverMessage) then serverMessage.value else FailureMessage);
      }
      status := Error;
    }
  }
}
