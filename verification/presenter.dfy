/** What the page shows for a given (showFallback, status, message).

    With the fallback flag set the page shows the Connection Delay screen,
    whatever the status.  Otherwise it shows one status card: an icon and a
    heading chosen by the status, the current message, and the Retry and Home
    buttons when the flow ended in an error or a rejection.
 */
module Presenter {
  import opened Query
  import opened Confirmation

  datatype Icon = Spinner | CheckMark | Cross | Warning
  datatype Screen = ConnectionDelay | StatusCard
  /** Retry reloads the page (the buttons read "Retry" or "Try Again"); Home goes to the root route. */
  datatype Action = Retry | Home

  datatype View = View(screen: Screen, icon: Icon, heading: string, body: Option<string>, actions: seq<Action>)

  const DelayHeading: string := "Connection Delay"
  const DelayText: string :=
    "Your request is taking longer than expected. Please check your internet connection or try again."

  /** The status a heading announces, if it is one of the card headings. */
  function StatusOfHeading(h: string): Option<Status> {
    if h == "Processing" then Some(Processing)
    else if h == "Order Confirmed" then Some(Success)
    else if h == "Order Rejected" then Some(Rejected)
    else if h == "Processing Failed" then Some(Error)
    else None
  }

  /** The status an icon stands for on the status card. */
  function StatusOfIcon(i: Icon): Status {
    match i
    case Spinner => Processing
    case CheckMark => Success
    case Cross => Rejected
    case Warning => Error
  }

  /** The card heading: one per status, and each announces its own status. */
  function Heading(st: Status): (h: string)
    ensures StatusOfHeading(h) == Some(st)
    ensures h != DelayHeading
  {
    match st
    case Processing => "Processing"
    case Success => "Order Confirmed"
    case Rejected => "Order Rejected"
    case Error => "Processing Failed"
  }

  /** The card icon: one per status. */
  function StatusIcon(st: Status): (i: Icon)
    ensures StatusOfIcon(i) == st
  {
    match st
    case Processing => Spinner
    case Success => CheckMark
    case Rejected => Cross
    case Error => Warning
  }

  /** The card offers Retry and Home exactly when the flow is over and did not succeed. */
  predicate OffersActions(st: Status) {
    st == Error || st == Rejected
  }

  /** The whole page for the given UI state. */
  function Render(showFallback: bool, st: Status, message: Option<string>): (v: View)
    ensures showFallback ==> v == View(ConnectionDelay, Warning, DelayHeading, Some(DelayText), [Retry, Home])
    ensures !showFallback ==>
      v.screen == StatusCard && v.body == message &&
      StatusOfIcon(v.icon) == st && StatusOfHeading(v.heading) == Some(st)
    ensures (Retry in v.actions) == (Home in v.actions)
    ensures (Retry in v.actions) <==> showFallback || st == Error || st == Rejected
  {
    if showFallback then
      View(ConnectionDelay, Warning, DelayHeading, Some(DelayText), [Retry, Home])
    else
      View(StatusCard, StatusIcon(st), Heading(st), message, if OffersActions(st) then [Retry, Home] else [])
  }

  /** The screen kind tells whether the fallback flag is set, and the heading of a status card tells its status. */
  lemma ViewDeterminesState(f1: bool, st1: Status, m1: Option<string>, f2: bool, st2: Status, m2: Option<string>)
    requires Render(f1, st1, m1) == Render(f2, st2, m2)
    ensures f1 == f2
    ensures !f1 ==> st1 == st2 && m1 == m2
  {
    var v := Render(f1, st1, m1);
    assert v.screen == ConnectionDelay <==> f1;
    assert v.screen == ConnectionDelay <==> f2;
  }

  /** The page of a state the flow reaches. */
  function PageOf(s: State): View {
    Render(s.showFallback, s.status, s.message)
  }

  /** In every state reached from a fresh page: Retry and Home are offered exactly when the flow
      ended in an error or a rejection; a confirmed order is never hidden behind the Connection
      Delay screen; and the Connection Delay screen appears exactly after the timer fired. */
  lemma ReachablePages(es: seq<Event>)
    requires Run(Init(), es).Some?
    ensures var t := Run(Init(), es).value;
      ((Retry in PageOf(t).actions) <==> t.status == Error || t.status == Rejected) &&
      (t.status == Success ==> PageOf(t).screen == StatusCard && PageOf(t).icon == CheckMark &&
                               PageOf(t).heading == "Order Confirmed" && PageOf(t).actions == []) &&
      (t.status == Processing ==> PageOf(t).icon == Spinner && PageOf(t).actions == []) &&
      (PageOf(t).screen == ConnectionDelay <==> t.aborted)
  {
    InitialState();
    RunKeepsInv(Init(), es);
  }

  /** Once the Connection Delay screen is up, no later event takes it down. */
  lemma DelayScreenStays(s: State, es: seq<Event>)
    requires Run(s, es).Some? && PageOf(s).screen == ConnectionDelay
    ensures PageOf(Run(s, es).value).screen == ConnectionDelay
  {
    FallbackIsNeverReset(s, es);
  }
}
