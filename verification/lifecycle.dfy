/**
  One request's life from response to timer, and concrete event traces
  showing what the handlers do when requests overlap or outlive a Clear:
  there is no re-entrancy guard and no stale-completion guard.
 */
module Lifecycle {
  import opened Js
  import opened SummaryRequest
  import opened App
  import opened SessionInvariants

  /**
    A request's response followed by its timer: the spinner goes away, the
    summary is the returned one (or the placeholder) on success and kept
    on failure, and the fixed message is shown exactly when the request
    failed; text and length are untouched and the request is gone.
   */
  lemma ResponseThenTimer(w: World, id: nat, o: Outcome)
    requires ResponsePending(w, id)
    ensures TimerArmed(OnResponse(w, id, o), id)
    ensures var w2 := OnTimer(OnResponse(w, id, o), id);
      && !w2.session.loading
      && (Failed(o) ==> w2.session.error == Some(UserError))
      && (!Failed(o) ==> w2.session.error == w.session.error)
      && (o.Ok? ==> w2.session.summary == SummaryText(o.summary))
      && (!o.Ok? ==> w2.session.summary == w.session.summary)
      && w2.session.text == w.session.text
      && w2.session.summaryLength == w.session.summaryLength
      && |w2.inFlight| == |w.inFlight| - 1
  {
    var w1 := OnResponse(w, id, o);
    var k := Find(w.inFlight, id).value;
    FindSameIds(w.inFlight, w1.inFlight, id);
    assert w1.inFlight[k].stage.errorMessage == CaughtMessage(o);
  }

  /** The timer never fires for a request whose response has not arrived. */
  lemma TimerOnlyAfterResponse(w: World, id: nat)
    requires ResponsePending(w, id)
    ensures !Enabled(w, TimerFired(id))
  {
  }

  /** A second Summarize while the first is in flight sends a second request. */
  lemma SecondSubmitIsNotIgnored(t: string)
    requires !IsBlank(t)
    ensures Run(Init, [EditText(t), Submit, Submit]).Some?
    ensures var w := Run(Init, [EditText(t), Submit, Submit]).value;
      && |w.inFlight| == 2 && w.session.loading && w.session.error == None
      && w.inFlight[0].stage == AwaitingResponse && w.inFlight[1].stage == AwaitingResponse
      && w.inFlight[0].id == 0 && w.inFlight[1].id == 1
      && w.inFlight[0].messages == w.inFlight[1].messages == Messages(10, t)
  {
    var w0 := Step(Init, EditText(t));
    var w1 := Summarize(w0);
    RunCons(w1, Submit, []);
    RunCons(w0, Submit, [Submit]);
    RunCons(Init, EditText(t), [Submit, Submit]);
  }

  /**
    A response that arrives after Clear still writes its summary into the
    cleared session. Clear is clickable only while the output or error
    panel is rendered, i.e. while the spinner is off.
   */
  lemma ResponseAfterClearWritesSummary(w: World, id: nat, summary: string)
    requires ResponsePending(w, id) && summary != ""
    requires OutputPanelVisible(w.session) || ErrorPanelVisible(w.session)
    ensures Run(w, [Clear, Respond(id, Ok(Some(summary)))]).Some?
    ensures var r := Run(w, [Clear, Respond(id, Ok(Some(summary)))]).value;
      r.session.summary == summary && r.session.text == ""
  {
    var w1 := Step(w, Clear);
    RunCons(w1, Respond(id, Ok(Some(summary))), []);
    RunCons(w, Clear, [Respond(id, Ok(Some(summary)))]);
  }

  /** A failed request's timer that fires after Clear brings the error panel back. */
  lemma TimerAfterClearShowsError(w: World, id: nat, o: Outcome)
    requires ResponsePending(w, id) && Failed(o)
    requires OutputPanelVisible(w.session) || ErrorPanelVisible(w.session)
    ensures Run(w, [Respond(id, o), Clear, TimerFired(id)]).Some?
    ensures var r := Run(w, [Respond(id, o), Clear, TimerFired(id)]).value;
      r.session.error == Some(UserError) && ErrorPanelVisible(r.session)
  {
    var w1 := OnResponse(w, id, o);
    var w2 := Step(w1, Clear);
    ResponseThenTimer(w, id, o);
    RunCons(w2, TimerFired(id), []);
    RunCons(w1, Clear, [TimerFired(id)]);
    RunCons(w, Respond(id, o), [Clear, TimerFired(id)]);
  }

  /**
    When another request is still in flight, one request's successful
    response and timer hide the spinner and show the output panel anyway.
   */
  lemma TimerHidesSpinnerWhileOthersPending(w: World, id: nat, summary: string)
    requires ResponsePending(w, id) && |w.inFlight| >= 2 && w.session.error == None
    ensures Run(w, [Respond(id, Ok(Some(summary))), TimerFired(id)]).Some?
    ensures var r := Run(w, [Respond(id, Ok(Some(summary))), TimerFired(id)]).value;
      !r.session.loading && OutputPanelVisible(r.session) && |r.inFlight| > 0
  {
    var o := Ok(Some(summary));
    var w1 := OnResponse(w, id, o);
    ResponseThenTimer(w, id, o);
    RunCons(w1, TimerFired(id), []);
    RunCons(w, Respond(id, o), [TimerFired(id)]);
  }

  /** Two quick submits: the first request's timer hides the spinner while the second still awaits its response. */
  lemma FirstTimerHidesSpinnerEarly(t: string, summary: string)
    requires !IsBlank(t)
    ensures var es := [EditText(t), Submit, Submit, Respond(0, Ok(Some(summary))), TimerFired(0)];
      && Run(Init, es).Some?
      && !Run(Init, es).value.session.loading
      && |Run(Init, es).value.inFlight| > 0
  {
    var o := Ok(Some(summary));
    SecondSubmitIsNotIgnored(t);
    var w2 := Run(Init, [EditText(t), Submit, Submit]).value;
    assert Find(w2.inFlight, 0) == Some(0);
    TimerHidesSpinnerWhileOthersPending(w2, 0, summary);
    RunAppend(Init, [EditText(t), Submit, Submit], [Respond(0, o), TimerFired(0)]);
    assert [EditText(t), Submit, Submit] + [Respond(0, o), TimerFired(0)]
      == [EditText(t), Submit, Submit, Respond(0, o), TimerFired(0)];
  }

  /** Once a request has succeeded and its timer fired, Copy writes exactly the summary it returned. */
  lemma CopyAfterSuccess(w: World, id: nat, summary: string)
    requires ResponsePending(w, id) && summary != "" && w.session.error == None
    ensures ClipboardWrite(OnTimer(OnResponse(w, id, Ok(Some(summary))), id).session) == Some(summary)
  {
    ResponseThenTimer(w, id, Ok(Some(summary)));
  }

  /** An exception with an empty message is caught but never reported. */
  lemma EmptyThrownMessageIsSilent(w: World, id: nat)
    requires ResponsePending(w, id) && w.session.error == None
    ensures Run(w, [Respond(id, Threw("")), TimerFired(id)]).Some?
    ensures var r := Run(w, [Respond(id, Threw("")), TimerFired(id)]).value;
      r.session.error == None && !ErrorPanelVisible(r.session)
  {
    var o := Threw("");
    var w1 := OnResponse(w, id, o);
    ResponseThenTimer(w, id, o);
    RunCons(w1, TimerFired(id), []);
    RunCons(w, Respond(id, o), [TimerFired(id)]);
  }

  /** The five events after which request 0 is still awaiting its response but the spinner is off. */
  function SecondFinishesFirst(t: string, s1: string): seq<Event> {
    [EditText(t), Submit, Submit, Respond(1, Ok(Some(s1))), TimerFired(1)]
  }

  /**
    Two quick submits, and the second request finishes first: the output
    panel is back, with Clear clickable, while the first request still
    awaits its response.
   */
  lemma SecondFinishesFirstShowsOutput(t: string, s1: string)
    requires !IsBlank(t)
    ensures Run(Init, SecondFinishesFirst(t, s1)).Some?
    ensures var w := Run(Init, SecondFinishesFirst(t, s1)).value;
      && OutputPanelVisible(w.session) && Enabled(w, Clear)
      && ResponsePending(w, 0) && |w.inFlight| == 1
  {
    var o := Ok(Some(s1));
    SecondSubmitIsNotIgnored(t);
    var w2 := Run(Init, [EditText(t), Submit, Submit]).value;
    assert Find(w2.inFlight, 1) == Some(1);
    var w3 := Step(w2, Respond(1, o));
    assert Find(w3.inFlight, 1) == Some(1);
    var w4 := Step(w3, TimerFired(1));
    assert w4.inFlight == [w2.inFlight[0]];
    assert Find(w4.inFlight, 0) == Some(0);
    RunCons(w3, TimerFired(1), []);
    RunCons(w2, Respond(1, o), [TimerFired(1)]);
    RunAppend(Init, [EditText(t), Submit, Submit], [Respond(1, o), TimerFired(1)]);
    assert [EditText(t), Submit, Submit] + [Respond(1, o), TimerFired(1)] == SecondFinishesFirst(t, s1);
  }

  /** From mount: the first request's late response lands after Clear and fills the cleared session. */
  lemma LateResponseAfterClearFromMount(t: string, s1: string, summary: string)
    requires !IsBlank(t) && summary != ""
    ensures var es := SecondFinishesFirst(t, s1) + [Clear, Respond(0, Ok(Some(summary)))];
      && Run(Init, es).Some?
      && Run(Init, es).value.session.summary == summary
      && Run(Init, es).value.session.text == ""
  {
    SecondFinishesFirstShowsOutput(t, s1);
    var w := Run(Init, SecondFinishesFirst(t, s1)).value;
    ResponseAfterClearWritesSummary(w, 0, summary);
    RunAppend(Init, SecondFinishesFirst(t, s1), [Clear, Respond(0, Ok(Some(summary)))]);
  }

  /** From mount: the first request fails, the user clears, and its timer then brings the error back. */
  lemma LateFailureAfterClearFromMount(t: string, s1: string, o: Outcome)
    requires !IsBlank(t) && Failed(o)
    ensures var es := SecondFinishesFirst(t, s1) + [Respond(0, o), Clear, TimerFired(0)];
      && Run(Init, es).Some?
      && Run(Init, es).value.session.error == Some(UserError)
      && ErrorPanelVisible(Run(Init, es).value.session)
  {
    SecondFinishesFirstShowsOutput(t, s1);
    var w := Run(Init, SecondFinishesFirst(t, s1)).value;
    TimerAfterClearShowsError(w, 0, o);
    RunAppend(Init, SecondFinishesFirst(t, s1), [Respond(0, o), Clear, TimerFired(0)]);
  }
}
