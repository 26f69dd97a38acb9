# Order-confirmation page: a Dafny model

The page (`src/App.jsx`) confirms an order change from a link. It reads `orderId`,
`itemId` and `action` from its URL. If one is missing or empty it shows an error and
does nothing else. Otherwise it arms a 15-second timer and POSTs the three values to
the confirmation endpoint. The timer and the request then race, and whichever settles
first decides the status (`processing`, `success`, `rejected`, `error`) and the message.
A timer expiry also raises a "Connection Delay" screen that stays up for the rest of
the page load.

The project has three modules:

- `Query` (`query.dfy`): looking the three parameters up in the decoded query string,
  where the first occurrence of a name wins. It also holds the truthiness test the page
  applies before it sends anything.
- `Confirmation` (`confirmation.dfy`): the request flow.
  - The race is a sequence of discrete events: `Mount`, `TimerFires`, `ResponseArrives`
    and `RequestFails`.
  - `Enabled` says which events can still arrive. `Step` is their effect on a `State`
    value, and `Run` applies a sequence of events.
  - `Inv` is the invariant every reachable state keeps.
  - The class `ConfirmationFlow` holds the same fields and updates them in place, one
    method per event handler. Each method's `ensures` ties the new fields to `Step`
    applied to the old ones.
  - The state adds four things to the page's `status`, `message` and `showFallback`:
    whether the timer is armed, whether the request is still pending, whether it was
    aborted, and the record of requests sent and `navigate` calls made.
- `Presenter` (`presenter.dfy`): the pure mapping from `(showFallback, status, message)`
  to a view descriptor. The descriptor holds the screen kind, icon, heading, body text
  and the Retry/Home actions. Lemmas tie this mapping to the states the flow can reach.

Event enabling encodes the event loop's guarantees:

- the flow runs once per mount;
- the timer callback only runs while the timer is armed, so clearing it disables it;
- the request settles once;
- after the abort the request can only settle with a cancellation error, and nothing
  else produces one.

Axios' own `timeout: 15000` option fails the request with an error that is not a
cancellation. In the model that is a `RequestFails(false, None)` arriving before
`TimerFires`: the page ends in `error` with the generic text and without the fallback
screen.

## Model

| member | source | states |
|---|---|---|
| Query.Get | src/App.jsx:22-26 | the lookup is None exactly when the name does not occur; otherwise it is the value of the first pair with that name |
| Query.ExtractParams | src/App.jsx:21-28 | each of `orderId`, `itemId` and `action` is absent exactly when the query does not mention it |
| Query.MissingNameIsIncomplete | src/App.jsx:33 | a query without one of the three names fails validation |
| Query.EmptyFirstValueIsIncomplete | src/App.jsx:33 | a query whose first value for one of the names is the empty string fails validation, since `''` is falsy |
| Confirmation.OrDefault | src/App.jsx:72 | the or-default idiom yields either the server's message or the default, and never an empty text when the default is not empty |
| Confirmation.InitialState | src/App.jsx:16-18 | a fresh page is `processing`, shows 'Processing your request...', has no fallback, satisfies the invariant and can see at most three events |
| Confirmation.StepKeepsInv | src/App.jsx:31-96 | every event that can arrive keeps the invariant and strictly lowers the count of events still possible |
| Confirmation.RunKeepsInv | src/App.jsx:31-96 | every state reached by any sequence of possible events satisfies the invariant |
| Confirmation.RunIsBounded | src/App.jsx:31-101 | the flow is finite: at most mount, timer and settlement, three events in all |
| Confirmation.TerminalPairIsStable | src/App.jsx:41-94 | once the status leaves `processing`, no later event changes the status or the message, including the cancellation error after a timeout |
| Confirmation.FallbackIsNeverReset | src/App.jsx:41-46 | `showFallback` is never reset, and it only becomes true in a sequence that contains the timer event |
| Confirmation.FailuresCarryMessage | src/App.jsx:72-94 | in every reachable state an `error` or `rejected` status comes with a present, non-empty message, so every failure is explained to the user |
| Confirmation.AtMostOneRequest | src/App.jsx:33-69 | over a page load exactly one request is sent, carrying the URL's parameters, when they are complete, and none otherwise; `navigate('/')` is called once exactly when the status is `success` |
| Confirmation.InvalidParamsPath | src/App.jsx:33-37 | missing or empty parameters give `error` with 'Invalid request. Missing parameters.'; no timer is armed, no request is sent, no further event can arrive |
| Confirmation.ValidParamsStartRequest | src/App.jsx:40-61 | complete parameters arm the timer and send one request with those parameters; the status stays `processing` |
| Confirmation.SuccessPath | src/App.jsx:63-70 | a body with `success` true gives `success` with the server's message unchanged (possibly absent); the timer is disarmed, `navigate('/')` is called once and nothing further can arrive |
| Confirmation.RejectedPath | src/App.jsx:71-74 | a body with `success` false gives `rejected` with the server's message, or 'Order update was not successful.' when it is absent or empty |
| Confirmation.TimeoutPath | src/App.jsx:41-46 | the timer sets the fallback, `error` and 'Request timed out. Please try again.' and aborts the request; afterwards only the cancellation error can arrive, and it leaves the status and message as they were |
| Confirmation.TransportErrorPath | src/App.jsx:82-94 | a non-cancel failure gives `error` with `err.response.data.message` or the generic text; no fallback, and the timer can no longer fire |
| Confirmation.NoTimeoutAfterSettlement | src/App.jsx:63-83 | once the status is terminal the timer cannot fire; a state is settled exactly when it is mounted and no event can arrive |
| Confirmation.Progress | src/App.jsx:40-46 | a mounted flow still `processing` has an armed timer; an unsettled flow can still settle; a settled flow is never `processing` |
| Confirmation.ConfirmationFlow.constructor | src/App.jsx:16-18 | the component starts in the initial state |
| Confirmation.ConfirmationFlow.Mount | src/App.jsx:21-61 | reads and validates the parameters, then either reports the missing parameters or arms the timer and sends the request, as `Step` does for `Mount` |
| Confirmation.ConfirmationFlow.OnTimeout | src/App.jsx:41-46 | the timer callback aborts the request and sets the fallback, `error` and the timeout message |
| Confirmation.ConfirmationFlow.OnResponse | src/App.jsx:63-74 | clears the timer, then gives `success` with the server's message and one `navigate('/')` call, or `rejected` with the message or its default |
| Confirmation.ConfirmationFlow.OnError | src/App.jsx:82-95 | clears the timer; the cancellation error reports the timeout and any other error reports the server's detail or the generic text; the status is `error` and the fallback flag is untouched |
| Presenter.Heading | src/App.jsx:170-173 | each status has its own heading, which announces that status and differs from 'Connection Delay' |
| Presenter.StatusIcon | src/App.jsx:104-117 | each status has its own icon (spinner, check, cross, warning) |
| Presenter.Render | src/App.jsx:128-193 | with the fallback flag set the page is the Connection Delay screen with Retry and Home, whatever the status; otherwise it is the status card with that status's icon and heading and the current message; Retry and Home appear together, exactly when the fallback is set or the status is `error` or `rejected` |
| Presenter.ViewDeterminesState | src/App.jsx:128-176 | two UI states that render the same page agree on the fallback flag, and without the fallback also on the status and message |
| Presenter.ReachablePages | src/App.jsx:128-193 | in every reachable state Retry and Home show exactly when the status is `error` or `rejected`; a confirmed order always shows its status card without actions; processing shows the spinner without actions; Connection Delay shows exactly after the timer aborted the request |
| Presenter.DelayScreenStays | src/App.jsx:128-154 | once the Connection Delay screen shows, no later event removes it |

## Left out

- The POST itself is left out: the URL from the build environment, the headers, the credentials and the timeout option (src/App.jsx:49-61). Only its outcome enters the model, as an event. The request record keeps only the body sent.
- Real timing is left out: the 15-second `setTimeout`, the `AbortController` and the event loop. The race is an ordering of discrete events.
- Query.Get: `URLSearchParams` parsing of the raw query string (splitting on `&` and `=`, `+` and percent decoding) is a browser API and is not modelled. The query enters as its list of decoded pairs.
- React hook mechanics are left out: `useMemo`, `useCallback` and `useEffect`. The effect re-runs whenever `location.search` changes (src/App.jsx:15, 21-28, 96-101). The model assumes the query string stays the same for the page's lifetime, so the flow runs once: the `Mount` event is enabled only once. StrictMode's double invocation in development (src/main.jsx) is not modelled.
- The Retry and Home handlers are browser side effects and are not modelled: `window.location.reload()` and `window.location.href = '/'`. They appear only as the actions a view offers. The button labels ("Retry" and "Try Again") are not kept.
- `navigate('/')` is recorded as a call. `navigate` is a prop that defaults to a no-op (src/App.jsx:15), and src/main.jsx mounts the component without it, so in this repository the call changes nothing. A `navigate` that did change the URL would empty the query string, re-run the effect and overwrite `success` with the missing-parameters error; the model does not capture that.
- Presentation is left out: markup, Tailwind classes, heading colours (src/App.jsx:165-169) and the lucide components. Icons are an enum. The `default: return null` of `renderStatusIcon` cannot be reached, because the status is always one of the four values the component sets.
- The `console.log` of the response body (src/App.jsx:65) is left out.
- The cleanup closure returned after a response, on both the success and the rejection branch (src/App.jsx:78-81), is left out. It refers to an undefined `timer`, but nothing ever calls it, because the effect ignores the promise `processConfirmation` returns.
- A response body is taken to be `{ success: bool, message?: string }`. Non-boolean `success` values and non-string messages are not modelled.
- src/main.jsx is not part of this model. It only mounts the component under a router and an error boundary.
