/**
  The `App` component's session state and its handlers
  (front-end/src/App.jsx:6-99), with the asynchronous parts of
  `summarize` turned into discrete events.

  `summarize` runs in three steps separated by suspensions: the
  synchronous prefix (guard, `setLoading(true)`, `setError(null)`, building
  the request), the continuation after the `fetch` settles (`Respond`), and
  the `setTimeout` callback armed only after that (`TimerFired`). Nothing
  stops a second `summarize` while one is in flight, so the model keeps a
  sequence of in-flight requests. A request's `id` only names its pending
  closure for the events that resume it; the handlers never compare it
  with anything in the session.
 */
module App {
  import opened Js
  import opened SummaryRequest

  /** The five `useState` slots of `App`. */
  datatype Session = Session(
    text: string,
    summaryLength: Length,
    summary: string,
    loading: bool,
    error: Option<string>
  )

  /** The state at mount. */
  const InitialSession := Session("", 10, "", false, None)

  // ----- Which panel is rendered -----

  /** `{!loading && !error && ...}`: the summary output with its Copy and Clear buttons. */
  predicate OutputPanelVisible(s: Session) {
    !s.loading && !TruthyOpt(s.error)
  }

  /** `{loading && ...}`: the spinner. */
  predicate LoadingPanelVisible(s: Session) {
    s.loading
  }

  /** `{error && ...}`: the error message with its Dismiss button. */
  predicate ErrorPanelVisible(s: Session) {
    TruthyOpt(s.error)
  }

  // ----- Synchronous handlers -----

  /** `clearAll`: empties the input and the summary and dismisses the error. */
  function ClearAll(s: Session): (r: Session)
    ensures r.text == "" && r.summary == "" && r.error == None
    ensures r.summaryLength == s.summaryLength && r.loading == s.loading
    ensures !ErrorPanelVisible(r)
  {
    s.(text := "", summary := "", error := None)
  }

  /** Clearing twice is clearing once, and a clear returns the mounted values except length and spinner. */
  lemma ClearAllIdempotent(s: Session)
    ensures ClearAll(ClearAll(s)) == ClearAll(s)
    ensures ClearAll(s) == InitialSession.(summaryLength := s.summaryLength, loading := s.loading)
  {
  }

  /** After Clear or Dismiss Error the output panel is back unless a request still holds the spinner. */
  lemma ClearShowsOutputUnlessLoading(s: Session)
    ensures OutputPanelVisible(ClearAll(s)) <==> !s.loading
    ensures LoadingPanelVisible(ClearAll(s)) == LoadingPanelVisible(s)
  {
  }

  /**
    `copyToClipboard`: the text it hands to the clipboard, if any. The
    output textarea behind `summaryOutputRef` is mounted exactly when the
    output panel is rendered, and its value is `summary`.
   */
  function ClipboardWrite(s: Session): (r: Option<string>)
    ensures r.Some? <==> s.summary != "" && OutputPanelVisible(s)
    ensures r.Some? ==> r.value == s.summary
  {
    if !Truthy(s.summary) then None
    else if OutputPanelVisible(s) then Some(s.summary)
    else None
  }

  // ----- In-flight requests -----

  datatype Stage =
    | AwaitingResponse
      /** The timer is armed; `errorMessage` is the closure's local captured after the try/catch. */
    | AwaitingTimer(errorMessage: Option<string>)

  datatype Request = Request(id: nat, messages: seq<Message>, stage: Stage)

  /** The session together with the suspended `summarize` calls. */
  datatype World = World(session: Session, inFlight: seq<Request>, nextId: nat)

  const Init := World(InitialSession, [], 0)

  ghost predicate HasId(rs: seq<Request>, id: nat) {
    exists i :: 0 <= i < |rs| && rs[i].id == id
  }

  /** The position of the first in-flight request named `id`. */
  function Find(rs: seq<Request>, id: nat): (r: Option<nat>)
    ensures r.Some? ==> r.value < |rs| && rs[r.value].id == id
    ensures r.Some? ==> forall j :: 0 <= j < r.value ==> rs[j].id != id
    ensures r.None? <==> !HasId(rs, id)
  {
    if rs == [] then None
    else if rs[0].id == id then Some(0)
    else match Find(rs[1..], id)
      case None => None
      case Some(i) => Some(i + 1)
  }

  /** Request `id` is in flight and its `fetch` has not settled yet. */
  predicate ResponsePending(w: World, id: nat) {
    var k := Find(w.inFlight, id);
    k.Some? && w.inFlight[k.value].stage.AwaitingResponse?
  }

  /** Request `id` has had its response and its 5000 ms timer is running. */
  predicate TimerArmed(w: World, id: nat) {
    var k := Find(w.inFlight, id);
    k.Some? && w.inFlight[k.value].stage.AwaitingTimer?
  }

  // ----- The three steps of `summarize` -----

  /**
    Clicking Summarize. A blank text returns at once; otherwise the spinner
    is shown, the error dismissed, and a request carrying the current
    length and text is sent, whatever else is already in flight.
   */
  function Summarize(w: World): (r: World)
    ensures IsBlank(w.session.text) ==> r == w
    ensures !IsBlank(w.session.text) ==>
      && r.session.loading && r.session.error == None
      && r.session.(loading := w.session.loading, error := w.session.error) == w.session
      && |r.inFlight| == |w.inFlight| + 1
      && r.inFlight[..|w.inFlight|] == w.inFlight
      && r.inFlight[|w.inFlight|].id == w.nextId
      && r.inFlight[|w.inFlight|].stage == AwaitingResponse
      && Messages(w.session.summaryLength, w.session.text) == r.inFlight[|w.inFlight|].messages
      && r.nextId > w.nextId
  {
    if IsBlank(w.session.text) then w
    else
      var s := w.session;
      var req := Request(w.nextId, Messages(s.summaryLength, s.text), AwaitingResponse);
      World(s.(loading := true, error := None), w.inFlight + [req], w.nextId + 1)
  }

  /**
    The `fetch` of request `id` settles. A success stores the returned
    summary (or the placeholder); a failure leaves the summary alone and
    only records the message the timer will see. Either way the timer is
    armed now, after the response.
   */
  function OnResponse(w: World, id: nat, o: Outcome): (r: World)
    requires ResponsePending(w, id)
    ensures o.Ok? ==> r.session.summary == SummaryText(o.summary)
    ensures !o.Ok? ==> r.session.summary == w.session.summary
    ensures r.session.(summary := w.session.summary) == w.session
    ensures r.nextId == w.nextId && |r.inFlight| == |w.inFlight|
    ensures forall j :: 0 <= j < |w.inFlight| ==>
      r.inFlight[j].id == w.inFlight[j].id && r.inFlight[j].messages == w.inFlight[j].messages
    ensures forall j :: 0 <= j < |w.inFlight| && w.inFlight[j].id != id ==> r.inFlight[j] == w.inFlight[j]
    ensures TimerArmed(r, id)
    ensures r.inFlight[Find(w.inFlight, id).value].stage.errorMessage == CaughtMessage(o)
  {
    var k := Find(w.inFlight, id).value;
    var req := w.inFlight[k];
    var rs := w.inFlight[k := req.(stage := AwaitingTimer(CaughtMessage(o)))];
    FindSameIds(w.inFlight, rs, id);
    World(w.session.(summary := SummaryAfter(w.session.summary, o)), rs, w.nextId)
  }

  /**
    The 5000 ms timer of request `id` fires: the spinner goes away, and the
    fixed user-facing message is shown exactly when the request failed.
    The closure then ends, so the request leaves the in-flight sequence.
   */
  function OnTimer(w: World, id: nat): (r: World)
    requires TimerArmed(w, id)
    ensures !r.session.loading
    ensures
      var k := Find(w.inFlight, id).value;
      && (TruthyOpt(w.inFlight[k].stage.errorMessage) ==> r.session.error == Some(UserError))
      && (!TruthyOpt(w.inFlight[k].stage.errorMessage) ==> r.session.error == w.session.error)
      && r.inFlight == w.inFlight[..k] + w.inFlight[k + 1..]
    ensures r.session.(loading := w.session.loading, error := w.session.error) == w.session
    ensures r.nextId == w.nextId
  {
    var k := Find(w.inFlight, id).value;
    var failed := TruthyOpt(w.inFlight[k].stage.errorMessage);
    var s := w.session.(loading := false);
    var s' := if failed then s.(error := Some(UserError)) else s;
    World(s', w.inFlight[..k] + w.inFlight[k + 1..], w.nextId)
  }

  /** Updating a request in place keeps every request's name where it was. */
  lemma FindSameIds(rs: seq<Request>, rs': seq<Request>, id: nat)
    requires |rs| == |rs'|
    requires forall j :: 0 <= j < |rs| ==> rs[j].id == rs'[j].id
    ensures Find(rs, id) == Find(rs', id)
    decreases |rs|
  {
    if rs != [] {
      FindSameIds(rs[1..], rs'[1..], id);
    }
  }

  // ----- Events -----

  datatype Event =
    | EditText(text: string)       // the input textarea's onChange
    | SetLength(length: Length)    // the slider's onChange
    | Submit                       // the Summarize button
    | Respond(id: nat, outcome: Outcome)
    | TimerFired(id: nat)
    | Clear                        // the Clear and Dismiss Error buttons
    | Copy                         // the Copy button

  /**
    Responses and timer callbacks arrive only for a request in the matching
    stage, so a timer never fires before its request's response. A button
    is clicked only while the panel holding it is rendered: Copy and Clear
    sit in the output panel, Dismiss Error in the error panel.
   */
  predicate Enabled(w: World, e: Event) {
    match e
    case Respond(id, _) => ResponsePending(w, id)
    case TimerFired(id) => TimerArmed(w, id)
    case Clear => OutputPanelVisible(w.session) || ErrorPanelVisible(w.session)
    case Copy => OutputPanelVisible(w.session)
    case _ => true
  }

  function Step(w: World, e: Event): (r: World)
    requires Enabled(w, e)
    ensures e.Copy? ==> r == w
    ensures !e.Submit? ==> r.nextId == w.nextId
    ensures e.EditText? || e.SetLength? || e.Clear? || e.Copy? ==> r.inFlight == w.inFlight
    ensures e.EditText? ==> r.session == w.session.(text := e.text)
    ensures e.SetLength? ==> r.session == w.session.(summaryLength := e.length)
    ensures e.Respond? ==> |r.inFlight| == |w.inFlight|
    ensures e.TimerFired? ==> |r.inFlight| == |w.inFlight| - 1
    ensures e.TimerFired? ==> var k := Find(w.inFlight, e.id).value;
      r.inFlight == w.inFlight[..k] + w.inFlight[k + 1..]
    ensures !e.TimerFired? ==> |r.inFlight| >= |w.inFlight|
    ensures !e.TimerFired? ==> forall j :: 0 <= j < |w.inFlight| ==>
      r.inFlight[j].id == w.inFlight[j].id && r.inFlight[j].messages == w.inFlight[j].messages
  {
    match e
    case EditText(t) => w.(session := w.session.(text := t))
    case SetLength(n) => w.(session := w.session.(summaryLength := n))
    case Submit => Summarize(w)
    case Respond(id, o) => OnResponse(w, id, o)
    case TimerFired(id) => OnTimer(w, id)
    case Clear => w.(session := ClearAll(w.session))
    case Copy => w
  }

  /** The world after `es`, or `None` if some event arrives while it is not enabled. */
  function Run(w: World, es: seq<Event>): Option<World>
    decreases |es|
  {
    if es == [] then Some(w)
    else if !Enabled(w, es[0]) then None
    else Run(Step(w, es[0]), es[1..])
  }
}
