/**
  What every sequence of events from the mounted state keeps true: the
  spinner and the error panel are never both on, the only error ever shown
  is the fixed user-facing message, the spinner is on only while the most
  recent request is still in flight, and whatever the network answers, the
  in-flight requests can all finish and take the spinner with them.
 */
module SessionInvariants {
  import opened Js
  import opened SummaryRequest
  import opened App

  /** In-flight requests are named in increasing order, each below `nextId`. */
  ghost predicate WellFormed(w: World) {
    && (forall i, j :: 0 <= i < j < |w.inFlight| ==> w.inFlight[i].id < w.inFlight[j].id)
    && (forall i :: 0 <= i < |w.inFlight| ==> w.inFlight[i].id < w.nextId)
  }

  ghost predicate Inv(w: World) {
    && WellFormed(w)
    && !(w.session.loading && w.session.error.Some?)
    && (w.session.error.Some? ==> w.session.error.value == UserError)
    && (w.session.loading ==> w.nextId > 0 && HasId(w.inFlight, w.nextId - 1))
  }

  lemma InitInv()
    ensures Inv(Init)
  {
  }

  /** Dropping one request keeps the names in increasing order. */
  lemma RemovePreservesOrder(rs: seq<Request>, k: nat)
    requires k < |rs|
    requires forall i, j :: 0 <= i < j < |rs| ==> rs[i].id < rs[j].id
    ensures var rs' := rs[..k] + rs[k + 1..];
      forall i, j :: 0 <= i < j < |rs'| ==> rs'[i].id < rs'[j].id
  {
    var rs' := rs[..k] + rs[k + 1..];
    forall i, j | 0 <= i < j < |rs'|
      ensures rs'[i].id < rs'[j].id
    {
      var i0 := if i < k then i else i + 1;
      var j0 := if j < k then j else j + 1;
      assert rs'[i] == rs[i0] && rs'[j] == rs[j0];
    }
  }

  /** Appending a request named `nextId` keeps the names increasing and below the next name. */
  lemma AppendPreservesOrder(rs: seq<Request>, req: Request, nextId: nat)
    requires forall i, j :: 0 <= i < j < |rs| ==> rs[i].id < rs[j].id
    requires forall i :: 0 <= i < |rs| ==> rs[i].id < nextId
    requires req.id == nextId
    ensures var rs' := rs + [req];
      && (forall i, j :: 0 <= i < j < |rs'| ==> rs'[i].id < rs'[j].id)
      && (forall i :: 0 <= i < |rs'| ==> rs'[i].id < nextId + 1)
      && HasId(rs', nextId)
  {
    var rs' := rs + [req];
    assert rs'[|rs|] == req;
  }

  lemma SummarizePreservesInv(w: World)
    requires Inv(w)
    ensures Inv(Summarize(w))
  {
    if !IsBlank(w.session.text) {
      var r := Summarize(w);
      var n := |w.inFlight|;
      assert r.inFlight == w.inFlight + [r.inFlight[n]] by {
        assert r.inFlight == r.inFlight[..n] + [r.inFlight[n]];
      }
      AppendPreservesOrder(w.inFlight, r.inFlight[n], w.nextId);
    }
  }

  lemma OnResponsePreservesInv(w: World, id: nat, o: Outcome)
    requires Inv(w) && ResponsePending(w, id)
    ensures Inv(OnResponse(w, id, o))
  {
    var r := OnResponse(w, id, o);
    if w.session.loading {
      var i :| 0 <= i < |w.inFlight| && w.inFlight[i].id == w.nextId - 1;
      assert r.inFlight[i].id == r.nextId - 1;
    }
  }

  lemma OnTimerPreservesInv(w: World, id: nat)
    requires Inv(w) && TimerArmed(w, id)
    ensures Inv(OnTimer(w, id))
  {
    var k := Find(w.inFlight, id).value;
    RemovePreservesOrder(w.inFlight, k);
    var r := OnTimer(w, id);
    forall i | 0 <= i < |r.inFlight|
      ensures r.inFlight[i].id < r.nextId
    {
      assert r.inFlight[i] == w.inFlight[if i < k then i else i + 1];
    }
  }

  /** Every enabled event keeps the invariant. */
  lemma StepPreservesInv(w: World, e: Event)
    requires Inv(w) && Enabled(w, e)
    ensures Inv(Step(w, e))
  {
    match e
    case Submit => SummarizePreservesInv(w);
    case Respond(id, o) => OnResponsePreservesInv(w, id, o);
    case TimerFired(id) => OnTimerPreservesInv(w, id);
    case _ =>
  }

  lemma {:induction false} RunPreservesInv(w: World, es: seq<Event>)
    requires Inv(w) && Run(w, es).Some?
    ensures Inv(Run(w, es).value)
    decreases |es|
  {
    if es != [] {
      StepPreservesInv(w, es[0]);
      RunPreservesInv(Step(w, es[0]), es[1..]);
    }
  }

  /** States some sequence of events leads to from the mounted state. */
  ghost predicate Reachable(w: World) {
    exists es :: Run(Init, es) == Some(w)
  }

  lemma ReachableInv(w: World)
    requires Reachable(w)
    ensures Inv(w)
  {
    var es :| Run(Init, es) == Some(w);
    InitInv();
    RunPreservesInv(Init, es);
  }

  /** In every reachable state exactly one of the output, loading and error panels is rendered. */
  lemma ExactlyOnePanel(w: World)
    requires Reachable(w)
    ensures OutputPanelVisible(w.session) || LoadingPanelVisible(w.session) || ErrorPanelVisible(w.session)
    ensures !(OutputPanelVisible(w.session) && LoadingPanelVisible(w.session))
    ensures !(OutputPanelVisible(w.session) && ErrorPanelVisible(w.session))
    ensures !(LoadingPanelVisible(w.session) && ErrorPanelVisible(w.session))
  {
    ReachableInv(w);
  }

  /** No reachable state shows a diagnostic other than the fixed user-facing message. */
  lemma ErrorIsAlwaysUserMessage(w: World)
    requires Reachable(w)
    ensures w.session.error == None || w.session.error == Some(UserError)
    ensures w.session.loading ==> w.session.error == None
  {
    ReachableInv(w);
  }

  /** The spinner is on only while some request is still in flight. */
  lemma LoadingNeedsRequest(w: World)
    requires Reachable(w)
    ensures w.session.loading ==> |w.inFlight| > 0
  {
    ReachableInv(w);
  }

  /** One enabled event followed by the rest runs as the rest from the next state. */
  lemma RunCons(w: World, e: Event, es: seq<Event>)
    requires Enabled(w, e)
    ensures Run(w, [e] + es) == Run(Step(w, e), es)
  {
    assert ([e] + es)[0] == e;
    assert ([e] + es)[1..] == es;
  }

  /** Running two event sequences one after the other; a run that gets stuck stays stuck. */
  lemma {:induction false} RunAppend(w: World, a: seq<Event>, b: seq<Event>)
    ensures Run(w, a).Some? ==> Run(w, a + b) == Run(Run(w, a).value, b)
    ensures Run(w, a).None? ==> Run(w, a + b).None?
    decreases |a|
  {
    if a != [] {
      assert (a + b)[0] == a[0];
      assert (a + b)[1..] == a[1..] + b;
      if Enabled(w, a[0]) {
        RunAppend(Step(w, a[0]), a[1..], b);
      }
    } else {
      assert a + b == b;
    }
  }

  /**
    Whatever outcome the network gives each request, delivering the pending
    responses and timers empties the in-flight sequence and turns the
    spinner off; only the events of the in-flight requests are used.
   */
  lemma {:induction false} Drain(w: World, answer: nat -> Outcome) returns (es: seq<Event>)
    requires Inv(w)
    ensures Run(w, es).Some?
    ensures Run(w, es).value.inFlight == []
    ensures !Run(w, es).value.session.loading
    ensures forall k :: 0 <= k < |es| ==> es[k].Respond? || es[k].TimerFired?
    ensures forall k :: 0 <= k < |es| && es[k].Respond? ==> es[k].outcome == answer(es[k].id)
    decreases |w.inFlight|
  {
    if w.inFlight == [] {
      es := [];
      return;
    }
    var id := w.inFlight[0].id;
    assert Find(w.inFlight, id) == Some(0);
    if w.inFlight[0].stage.AwaitingResponse? {
      var e1 := Respond(id, answer(id));
      var w1 := Step(w, e1);
      StepPreservesInv(w, e1);
      var e2 := TimerFired(id);
      var w2 := Step(w1, e2);
      StepPreservesInv(w1, e2);
      var rest := Drain(w2, answer);
      RunCons(w1, e2, rest);
      RunCons(w, e1, [e2] + rest);
      es := [e1] + ([e2] + rest);
    } else {
      var e2 := TimerFired(id);
      var w2 := Step(w, e2);
      StepPreservesInv(w, e2);
      var rest := Drain(w2, answer);
      RunCons(w, e2, rest);
      es := [e2] + rest;
    }
  }
}
