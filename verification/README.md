# AI Text Summarizer: the session state machine of `App`

This project models the one component with logic in the AI Text
Summarizer front end: the `App` component in `front-end/src/App.jsx`.
It holds five pieces of state: `text`, `summaryLength`, `summary`,
`loading` and `error`. Its handlers update them:

- `summarize` ignores blank text. Otherwise it turns the spinner on and
  posts one user message to the summarization worker. On an ok response
  it stores the returned summary (or a placeholder). A non-ok response or
  a thrown failure leaves the summary alone and only captures the error's
  message. Once the response has settled it waits 5000 ms and turns the
  spinner off. If the captured message is non-empty, it also shows one
  fixed message.
- `copyToClipboard` hands the summary to the clipboard.
- `clearAll` empties the input and the summary and dismisses the error.
- Three render conditions choose between the output, spinner and error
  panels.

The model is a reducer over immutable values. `Session` holds the five
state slots. `World` adds the suspended `summarize` calls, in order. Each
call is either waiting for its response or waiting for its timer. It
holds the message it sent and the `errorMessage` its `catch` captured.

User actions and asynchronous completions are events: `EditText`,
`SetLength`, `Submit`, `Respond(id, outcome)`, `TimerFired(id)`, `Clear`
and `Copy`. A request's id only names its suspended call. The handlers
never compare it with the session. A response can only arrive for a
request that is waiting for one. A timer can only fire after that
request's response. The Clear button (in the output panel) and the
Dismiss Error button (in the error panel) both send `Clear`, so `Clear`
is enabled only while one of those panels is rendered; `Copy` only while
the output panel is. `Run` applies a sequence of events and returns
`None` when an event arrives that is not enabled.

The code has no re-entrancy guard, no generation tag, no delay that
runs alongside the network call, and no clearing of the old summary:

- Nothing stops a second Summarize while one request is in flight. The
  button is never disabled.
- Nothing discards a response that arrives after Clear. Requests carry no
  generation tag.
- The 5000 ms delay starts after the response. It does not run alongside
  the network call.
- A new submission does not clear the old summary. A failure does not
  clear it either.

The lemmas in `lifecycle.dfy` show what follows from this:

- A second request is sent.
- A late response writes its summary into a cleared session.
- A late failure brings the error panel back after Clear.
- Both late completions are reached from the mounted state: submit twice,
  let the second request finish first, then clear.
- The first request's timer hides the spinner while a second request is
  still in flight.

Modules, one per file:

- `Js` (`js.dfy`): null/undefined as `Option`, string truthiness, and
  `String.prototype.trim`.
- `Decimal` (`decimal.dfy`): how the template literal writes
  `summaryLength`, and how a numeral is read back.
- `SummaryRequest` (`request.dfy`): the posted `messages`, the three ways
  a `fetch` can settle, and how each maps to `summary` and `errorMessage`.
- `App` (`app.dfy`): the session, panels, handlers, events and the `Step`
  and `Run` reducer.
- `SessionInvariants` (`invariants.dfy`): the invariant every event
  preserves, and its consequences for reachable states.
- `Lifecycle` (`lifecycle.dfy`): one request from response to timer, and
  the overlap and late-completion traces.

## Model

| member | source | states |
|---|---|---|
| Js.TrimStart | front-end/src/App.jsx:19 | the result is the suffix of the input left after removing a prefix made only of whitespace, and it does not start with whitespace |
| Js.TrimEnd | front-end/src/App.jsx:19 | the result is the prefix of the input left after removing a suffix made only of whitespace, and it does not end with whitespace |
| Js.Trim | front-end/src/App.jsx:19 | the trimmed text is the slice of the input left once a whitespace prefix and a whitespace suffix are removed: everything outside it is whitespace, and it neither starts nor ends with whitespace |
| Js.IsBlank | front-end/src/App.jsx:19 | `!text.trim()` holds exactly when every character of the text is whitespace |
| Decimal.Show | front-end/src/App.jsx:37 | the numeral written for the length is non-empty, all digits, and has no leading zero unless it is zero |
| Decimal.ValueOfShow | front-end/src/App.jsx:37 | reading the numeral back gives the number it was written from |
| Decimal.ShowInjective | front-end/src/App.jsx:37 | different lengths are written as different numerals |
| Decimal.SpanDigits | front-end/src/App.jsx:37 | the reader paired with `Show`, not a model of the template literal: the length of the longest run of digits at the start of a string |
| Decimal.SpanOfShow | front-end/src/App.jsx:37 | a numeral followed by a non-digit is read back whole, so the text after it is not taken as part of it |
| SummaryRequest.Messages | front-end/src/App.jsx:31-41 | exactly one message, with role "user" and exactly one part of type "text" holding the instruction |
| SummaryRequest.PromptRoundTrip | front-end/src/App.jsx:37 | the instruction text can be parsed back into the length and the input text it was built from |
| SummaryRequest.PromptInjective | front-end/src/App.jsx:37 | two submissions send the same instruction only when their lengths and texts are the same |
| SummaryRequest.SummaryText | front-end/src/App.jsx:57 | the stored text is never empty: it is the returned summary when that is a non-empty string, and "No summary available." otherwise |
| SummaryRequest.SummaryAfter | front-end/src/App.jsx:53-58 | an ok response sets the summary to `data.summary || "No summary available."`, which is never empty; a non-ok response or an exception leaves the summary as it was |
| SummaryRequest.CaughtMessage | front-end/src/App.jsx:53-64 | the captured `errorMessage` is null exactly for an ok response; it is "Worker error: " plus the body's error field for a non-ok status, and the exception's own message for a thrown failure |
| SummaryRequest.Failed | front-end/src/App.jsx:71 | the timer reports a failure exactly when the captured message is truthy: for every non-ok status, and for an exception with a non-empty message |
| App.ClearAll | front-end/src/App.jsx:95-99 | text and summary become empty and the error null; the length and the spinner stay as they were; the error panel is hidden afterwards |
| App.ClearAllIdempotent | front-end/src/App.jsx:95-99 | clearing twice is the same as clearing once, and a cleared session is the mounted one except for length and spinner |
| App.ClearShowsOutputUnlessLoading | front-end/src/App.jsx:95-99 | after Clear or Dismiss Error the output panel is shown exactly when the spinner is off, and the spinner is unaffected |
| App.ClipboardWrite | front-end/src/App.jsx:79-92 | the clipboard is written only when the summary is non-empty and the output textarea is mounted, and then with the summary itself |
| App.Find | front-end/src/App.jsx:67-75 | the position of the first in-flight request with a given id, or none exactly when no in-flight request has that id |
| App.Summarize | front-end/src/App.jsx:16-41 | blank text leaves the whole world unchanged and sends nothing; otherwise the spinner is on, the error is null, the other three fields are unchanged, and one request awaiting its response is appended, carrying the messages built from the length and text at submit time |
| App.OnResponse | front-end/src/App.jsx:43-64 | an ok response sets the summary to the returned one or the placeholder; a failure leaves it alone; no other field changes; only that request changes; its timer is now armed, holding the captured message |
| App.OnTimer | front-end/src/App.jsx:66-75 | the spinner goes off; the error becomes the fixed user message if the captured message is truthy and is otherwise unchanged; text, length and summary are unchanged; the request leaves the in-flight sequence |
| App.Step | front-end/src/App.jsx:117-147 | Copy changes nothing; edits, Clear and Copy leave the in-flight requests alone; edits change only their own field; only Submit adds a request; a timer removes exactly its own request and keeps the others in order; surviving requests keep the message captured at submit time |
| SessionInvariants.AppendPreservesOrder | front-end/src/App.jsx:22-41 | appending a request named with the next id keeps the request ids increasing and all below the new next id |
| SessionInvariants.RemovePreservesOrder | front-end/src/App.jsx:66-75 | removing a finished request keeps the request ids increasing |
| SessionInvariants.SummarizePreservesInv | front-end/src/App.jsx:19-24 | a submission keeps the spinner and the error from being set together, and keeps the newest request in flight while the spinner is on |
| SessionInvariants.OnResponsePreservesInv | front-end/src/App.jsx:43-64 | a response keeps the invariant |
| SessionInvariants.OnTimerPreservesInv | front-end/src/App.jsx:66-75 | a timer keeps the invariant: the spinner goes off whenever the error is set, and the only error is the fixed message |
| SessionInvariants.StepPreservesInv | front-end/src/App.jsx:16-99 | every enabled event preserves the invariant: the spinner and a non-null error are never both set, the error is only ever the fixed user message, and while the spinner is on the newest request is still in flight |
| SessionInvariants.RunPreservesInv | front-end/src/App.jsx:16-99 | every run of enabled events from a state satisfying the invariant ends in such a state |
| SessionInvariants.RunAppend | front-end/src/App.jsx:16-99 | running two event sequences one after the other is running their concatenation |
| SessionInvariants.ReachableInv | front-end/src/App.jsx:6-10 | every state reachable from the mounted one satisfies the invariant |
| SessionInvariants.ExactlyOnePanel | front-end/src/App.jsx:151-198 | in every reachable state exactly one of the output, spinner and error panels is rendered |
| SessionInvariants.ErrorIsAlwaysUserMessage | front-end/src/App.jsx:62-75 | in every reachable state the error is null or the fixed user message, never the raw diagnostic, and it is null while the spinner is on |
| SessionInvariants.LoadingNeedsRequest | front-end/src/App.jsx:22-23 | the spinner is on only while some request is in flight |
| SessionInvariants.Drain | front-end/src/App.jsx:43-75 | whatever the network returns for each request, delivering the pending responses and timers empties the in-flight sequence and turns the spinner off |
| Lifecycle.ResponseThenTimer | front-end/src/App.jsx:43-75 | after a request's response and then its timer: the spinner is off; the error is the fixed message when the request failed and unchanged otherwise; the summary follows the response; text and length are unchanged |
| Lifecycle.TimerOnlyAfterResponse | front-end/src/App.jsx:43-67 | no timer fires for a request whose response has not arrived |
| Lifecycle.SecondSubmitIsNotIgnored | front-end/src/App.jsx:142-147 | two Summarize clicks on non-blank text leave two requests in flight, both carrying the same messages |
| Lifecycle.ResponseAfterClearWritesSummary | front-end/src/App.jsx:57-58 | whenever Clear is clickable, a successful response that arrives after Clear still writes its summary into the cleared session |
| Lifecycle.TimerAfterClearShowsError | front-end/src/App.jsx:66-75 | whenever Clear is clickable, a failed request whose timer fires after Clear shows the error panel again |
| Lifecycle.SecondFinishesFirstShowsOutput | front-end/src/App.jsx:142-181 | from mount, two submits where the second request finishes first leave the output panel shown, Clear clickable, and the first request still awaiting its response |
| Lifecycle.LateResponseAfterClearFromMount | front-end/src/App.jsx:57-58 | from mount, the first request's ok response arriving after Clear writes its summary into the cleared session |
| Lifecycle.LateFailureAfterClearFromMount | front-end/src/App.jsx:66-75 | from mount, the first request's failure followed by Clear and then its timer shows the error panel again |
| Lifecycle.TimerHidesSpinnerWhileOthersPending | front-end/src/App.jsx:66-69 | one request's success and timer turn the spinner off and show the output panel while another request is still in flight |
| Lifecycle.FirstTimerHidesSpinnerEarly | front-end/src/App.jsx:66-69 | after two quick submits, the first request's response and timer leave the spinner off with a request still in flight |
| Lifecycle.CopyAfterSuccess | front-end/src/App.jsx:57-92 | after a request's ok response and its timer, with no error showing, Copy hands exactly the returned summary to the clipboard |
| Lifecycle.EmptyThrownMessageIsSilent | front-end/src/App.jsx:62-74 | an exception with an empty message is caught but never reported: the error stays null |

## Left out

- `fetch`, the worker URL, the request headers, `JSON.stringify` and `response.json()` (front-end/src/App.jsx:29, 43-51) are network I/O. Their result is an `Outcome`: ok with an optional summary, not ok with an optional error field, or a thrown message. A body that fails to parse is a thrown message.
- A `summary` or `error` field in the response body that is not a string. The model treats both fields as optional strings.
- `navigator.clipboard.writeText` and its result, `alert`, and `console.log` (front-end/src/App.jsx:72, 86-89) are foreign side effects. `ClipboardWrite` returns only the text that would be written.
- `App.ClipboardWrite`: `summaryOutputRef.current` is treated as set exactly when the output panel is rendered, since the textarea it points to lives only in that panel.
- Real time and `setTimeout`. The 5000 ms delay is the `TimerFired` event, which is enabled only after that request's response. Milliseconds are not modelled. Armed timers may fire in any order; the source fires them in the order their responses arrived, because every delay is the same 5000 ms. Every invariant holds over this larger set of runs.
- React hooks, batching and re-rendering, and the JSX layout apart from the three panel conditions.
- The slider yields a string (front-end/src/App.jsx:136). `summaryLength` is an integer in 1..100. The text the template literal writes for it is the same either way.
- `Js.IsWhitespace` is a fixed list of the ECMAScript whitespace and line-terminator code points. No Unicode database is consulted.
