/**
 * The dispatcher: fans one rendered notification out to its recipients, in
 * list order, through the registry. A recipient without an emitter is
 * skipped; one with an emitter gets one send; an IOException from that send
 * completes the emitter with the error and is swallowed; any other failure
 * (a send on an emitter that has already ended) propagates and stops the
 * loop. The dispatcher never writes to the registry.
 *
 * The transport's answers are inputs: `transport[i]` says whether the write
 * to the i-th recipient's emitter fails with an IOException.
 */
module EventHandlers {
  import opened Emitters
  import opened NotificationServices

  /** What one call of the per-recipient send did. */
  datatype Step = NoEmitter | Delivered | SendFailed | Rejected

  datatype Stepped = Stepped(step: Step, view: map<string, Conn>)

  /** Whether the loop went over every recipient, or stopped at recipient `at` because an
      exception other than an IOException escaped from the send. */
  datatype Outcome = AllProcessed | Propagated(at: nat)

  /** `calls` lists, in order, what each call of the per-recipient send did. */
  datatype Run = Run(outcome: Outcome, calls: seq<Step>, view: map<string, Conn>)

  /** The per-recipient send, on the registered emitters seen as values. */
  function SendStep(view: map<string, Conn>, username: string, message: string, ioFails: bool): Stepped {
    if username !in view then Stepped(NoEmitter, view)
    else
      var p := Push(view[username], message, ioFails);
      match p.result
      case Sent => Stepped(Delivered, view[username := p.after])
      case IOFailure => Stepped(SendFailed, view[username := Conn(Close(p.after.state, Errored), p.after.events)])
      case IllegalState => Stepped(Rejected, view)
  }

  /** The whole loop over `recipients`, as a function of the registered emitters before it. */
  function Dispatch(view: map<string, Conn>, recipients: seq<string>, message: string, transport: seq<bool>): (r: Run)
    requires |transport| == |recipients|
    ensures r.view.Keys == view.Keys
    ensures r.outcome.Propagated? ==> r.outcome.at < |recipients|
    ensures |r.calls| == if r.outcome.AllProcessed? then |recipients| else r.outcome.at + 1
    decreases |recipients|
  {
    if recipients == [] then Run(AllProcessed, [], view)
    else
      var n := |recipients| - 1;
      Continue(Dispatch(view, recipients[..n], message, transport[..n]), recipients[n], message, transport[n], n)
  }

  /** One iteration of the loop, for recipient number `n`, after the run `prev` of the ones
      before it. */
  function Continue(prev: Run, username: string, message: string, ioFails: bool, n: nat): Run {
    if prev.outcome.Propagated? then prev
    else
      var s := SendStep(prev.view, username, message, ioFails);
      if s.step == Rejected then Run(Propagated(n), prev.calls + [Rejected], prev.view)
      else Run(AllProcessed, prev.calls + [s.step], s.view)
  }

  /** The run over the first `i + 1` recipients extends the run over the first `i`. */
  lemma DispatchExtends(view: map<string, Conn>, recipients: seq<string>, message: string, transport: seq<bool>, i: nat)
    requires |transport| == |recipients| && i < |recipients|
    ensures Dispatch(view, recipients[..i + 1], message, transport[..i + 1]) ==
      Continue(Dispatch(view, recipients[..i], message, transport[..i]), recipients[i], message, transport[i], i)
  {
    assert recipients[..i + 1][..i] == recipients[..i];
    assert transport[..i + 1][..i] == transport[..i];
  }

  // ---------------------------------------------------------------------------
  // Properties of the loop
  // ---------------------------------------------------------------------------

  /** One call per recipient, in list order, up to the one an exception escaped from: a call
      finds no emitter exactly when the recipient had none, and only the last call can be the
      one whose exception escaped. */
  lemma {:induction false} DispatchCalls(view: map<string, Conn>, recipients: seq<string>, message: string,
                                         transport: seq<bool>)
    requires |transport| == |recipients|
    ensures var r := Dispatch(view, recipients, message, transport);
      && (forall i | 0 <= i < |r.calls| :: r.calls[i] == NoEmitter <==> recipients[i] !in view)
      && (forall i | 0 <= i < |r.calls| :: r.calls[i] == Rejected <==> r.outcome == Propagated(i))
    decreases |recipients|
  {
    if recipients != [] {
      var n := |recipients| - 1;
      var prev := Dispatch(view, recipients[..n], message, transport[..n]);
      DispatchCalls(view, recipients[..n], message, transport[..n]);
      assert forall i | 0 <= i < n :: recipients[..n][i] == recipients[i];
    }
  }

  /** Once an exception has escaped, later recipients are not processed: the run over a longer
      list is the run over the prefix. */
  lemma {:induction false} PropagationIsFinal(view: map<string, Conn>, recipients: seq<string>, message: string,
                                              transport: seq<bool>, k: nat)
    requires |transport| == |recipients| && k <= |recipients|
    requires Dispatch(view, recipients[..k], message, transport[..k]).outcome.Propagated?
    ensures Dispatch(view, recipients, message, transport) == Dispatch(view, recipients[..k], message, transport[..k])
    decreases |recipients|
  {
    if k < |recipients| {
      var n := |recipients| - 1;
      assert recipients[..n][..k] == recipients[..k];
      assert transport[..n][..k] == transport[..k];
      PropagationIsFinal(view, recipients[..n], message, transport[..n], k);
    } else {
      assert recipients[..k] == recipients && transport[..k] == transport;
    }
  }

  /** An escaped exception is raised by the recipient it names: the recipients before it were
      all processed, and its registered emitter had already ended. */
  lemma {:induction false} PropagatedAtClosedEmitter(view: map<string, Conn>, recipients: seq<string>, message: string,
                                                     transport: seq<bool>)
    requires |transport| == |recipients|
    requires Dispatch(view, recipients, message, transport).outcome.Propagated?
    ensures
      var k := Dispatch(view, recipients, message, transport).outcome.at;
      var before := Dispatch(view, recipients[..k], message, transport[..k]);
      && before.outcome == AllProcessed
      && Dispatch(view, recipients, message, transport).view == before.view
      && recipients[k] in before.view && before.view[recipients[k]].state != Open
    decreases |recipients|
  {
    var n := |recipients| - 1;
    var prev := Dispatch(view, recipients[..n], message, transport[..n]);
    if prev.outcome.Propagated? {
      PropagatedAtClosedEmitter(view, recipients[..n], message, transport[..n]);
      var k := prev.outcome.at;
      assert recipients[..n][..k] == recipients[..k];
      assert transport[..n][..k] == transport[..k];
      assert recipients[..n][k] == recipients[k];
    }
  }

  /** Recipients that are not in the list, and users with no emitter, are left as they were. */
  lemma {:induction false} DispatchLeavesOthers(view: map<string, Conn>, recipients: seq<string>, message: string,
                                                transport: seq<bool>, username: string)
    requires |transport| == |recipients|
    requires username in view && username !in recipients
    ensures Dispatch(view, recipients, message, transport).view[username] == view[username]
    decreases |recipients|
  {
    if recipients != [] {
      var n := |recipients| - 1;
      assert forall i | 0 <= i < n :: recipients[..n][i] == recipients[i];
      DispatchLeavesOthers(view, recipients[..n], message, transport[..n], username);
    }
  }

  /** When no recipient has an emitter, the loop completes, every call finds no emitter, and
      nothing changes. */
  lemma {:induction false} DispatchToOffline(view: map<string, Conn>, recipients: seq<string>, message: string,
                                             transport: seq<bool>)
    requires |transport| == |recipients|
    requires forall i | 0 <= i < |recipients| :: recipients[i] !in view
    ensures Dispatch(view, recipients, message, transport).outcome == AllProcessed
    ensures Dispatch(view, recipients, message, transport).view == view
    decreases |recipients|
  {
    if recipients != [] {
      var n := |recipients| - 1;
      assert forall i | 0 <= i < n :: recipients[..n][i] == recipients[i];
      DispatchToOffline(view, recipients[..n], message, transport[..n]);
    }
  }

  /** Distinct recipients whose emitters are open: the loop goes over all of them (IOExceptions
      are contained); a recipient without an emitter is skipped, and each one with an emitter
      gets exactly one send of the message, which either appends it to the stream or errors
      the emitter. (Users not among the recipients: DispatchLeavesOthers.) */
  lemma {:induction false} DispatchToOpenDistinct(view: map<string, Conn>, recipients: seq<string>, message: string,
                                                  transport: seq<bool>)
    requires |transport| == |recipients|
    requires forall i, j | 0 <= i < j < |recipients| :: recipients[i] != recipients[j]
    requires forall i | 0 <= i < |recipients| && recipients[i] in view :: view[recipients[i]].state == Open
    ensures Dispatch(view, recipients, message, transport).outcome == AllProcessed
    ensures forall i | 0 <= i < |recipients| ::
      Dispatch(view, recipients, message, transport).calls[i] ==
        if recipients[i] !in view then NoEmitter else if transport[i] then SendFailed else Delivered
    ensures forall i | 0 <= i < |recipients| && recipients[i] in view ::
      Dispatch(view, recipients, message, transport).view[recipients[i]] ==
        if transport[i] then Conn(Errored, view[recipients[i]].events)
        else Conn(Open, view[recipients[i]].events + [message])
    decreases |recipients|
  {
    if recipients != [] {
      var n := |recipients| - 1;
      var rs, ts := recipients[..n], transport[..n];
      assert forall i | 0 <= i < n :: rs[i] == recipients[i] && ts[i] == transport[i];
      DispatchToOpenDistinct(view, rs, message, ts);
      var prev := Dispatch(view, rs, message, ts);
      var last := recipients[n];
      assert last !in rs;
      if last in view {
        DispatchLeavesOthers(view, rs, message, ts, last);
      }
      var st := SendStep(prev.view, last, message, transport[n]);
      assert st.step != Rejected;
      var r := Dispatch(view, recipients, message, transport);
      assert r == Run(AllProcessed, prev.calls + [st.step], st.view);
      forall i | 0 <= i < n && recipients[i] in view
        ensures r.view[recipients[i]] == prev.view[recipients[i]]
      {
        assert recipients[i] != last;
      }
    }
  }

  /** One iteration of the loop in terms of the per-recipient send: either the run goes on
      over one more recipient, or it stops here for good. */
  lemma LoopStep(view: map<string, Conn>, recipients: seq<string>, message: string, transport: seq<bool>,
                 i: nat, calls: seq<Step>, before: map<string, Conn>, step: Step, after: map<string, Conn>)
    requires |transport| == |recipients| && i < |recipients|
    requires Dispatch(view, recipients[..i], message, transport[..i]) == Run(AllProcessed, calls, before)
    requires Stepped(step, after) == SendStep(before, recipients[i], message, transport[i])
    ensures step != Rejected ==>
      Dispatch(view, recipients[..i + 1], message, transport[..i + 1]) == Run(AllProcessed, calls + [step], after)
    ensures step == Rejected ==>
      Dispatch(view, recipients, message, transport) == Run(Propagated(i), calls + [Rejected], before)
  {
    DispatchExtends(view, recipients, message, transport, i);
    if step == Rejected {
      PropagationIsFinal(view, recipients, message, transport, i + 1);
    }
  }

  // ---------------------------------------------------------------------------
  // The handler
  // ---------------------------------------------------------------------------

  class EventHandler {
    const service: NotificationService

    constructor (service: NotificationService)
      ensures this.service == service
    {
      this.service := service;
    }

    /** Looks the user up in the registry; without an emitter nothing happens; otherwise one
        send, and an IOException completes that emitter with the error. */
    method SendNotification(username: string, message: string, ioFails: bool) returns (step: Step)
      requires service.Valid()
      modifies service.emitters.Values
      ensures service.emitters == old(service.emitters) && service.store == old(service.store)
      ensures Stepped(step, service.View()) == SendStep(old(service.View()), username, message, ioFails)
    {
      if username !in service.emitters {
        return NoEmitter;
      }
      var e := service.emitters[username];
      ghost var before := service.View();
      var r := e.Send(message, ioFails);
      if r == IOFailure {
        e.CompleteWithError();
        step := SendFailed;
      } else if r == Sent {
        step := Delivered;
      } else {
        step := Rejected;
      }
      forall u | u in service.emitters && u != username
        ensures service.emitters[u].Snapshot() == before[u]
      {
        assert service.emitters[u].owner == u;
      }
      assert service.View() == before[username := e.Snapshot()];
    }

    /** Sends the rendered notification to each recipient in order. */
    method HandleEvent(recipients: seq<string>, message: string, transport: seq<bool>)
      returns (outcome: Outcome, ghost calls: seq<Step>)
      requires service.Valid() && |transport| == |recipients|
      modifies service.emitters.Values
      ensures service.emitters == old(service.emitters) && service.store == old(service.store)
      ensures Run(outcome, calls, service.View()) == Dispatch(old(service.View()), recipients, message, transport)
    {
      ghost var start := service.View();
      calls := [];
      var i := 0;
      while i < |recipients|
        invariant 0 <= i <= |recipients|
        invariant service.Valid()
        invariant Dispatch(start, recipients[..i], message, transport[..i]) == Run(AllProcessed, calls, service.View())
      {
        ghost var before := service.View();
        var step := SendNotification(recipients[i], message, transport[i]);
        LoopStep(start, recipients, message, transport, i, calls, before, step, service.View());
        calls := calls + [step];
        if step == Rejected {
          return Propagated(i), calls;
        }
        i := i + 1;
      }
      assert recipients[..i] == recipients && transport[..i] == transport;
      outcome := AllProcessed;
    }
  }

  // ---------------------------------------------------------------------------
  // Scenarios
  // ---------------------------------------------------------------------------

  /** Recipients "alice" and "bob", only alice subscribed: alice's stream gets the message
      once, bob is skipped without error, and the record stays listed for bob. */
  method OnlineAndOfflineScenario(message: string, rec: Models.Notification)
    returns (outcome: Outcome, aliceEvents: seq<string>, bobRegistered: bool, listedForBob: bool)
    requires rec.id == Wrappers.Some(0) && rec.recipients == ["alice", "bob"] && !rec.isRead
    ensures outcome == AllProcessed && aliceEvents == [message] && !bobRegistered && listedForBob
  {
    var service := new NotificationService(map[0 := rec]);
    var alice := service.Subscribe("alice");
    var handler := new EventHandler(service);
    ghost var v := service.View();
    assert v == map["alice" := Conn(Open, [])];
    ghost var calls;
    outcome, calls := handler.HandleEvent(["alice", "bob"], message, [false, false]);
    assert ["alice", "bob"][..1] == ["alice"];
    assert [false, false][..1] == [false];
    aliceEvents := alice.events;
    bobRegistered := "bob" in service.emitters;
    listedForBob := rec in service.GetNotificationsByUsername("bob");
  }

  /** A recipient listed twice whose first send fails with an IOException: the second send hits
      an emitter that has already ended, and that failure escapes the loop. */
  method RepeatedRecipientScenario(username: string, message: string, secondFails: bool)
    returns (outcome: Outcome, state: EmitterState)
    ensures outcome == Propagated(1) && state == Errored
  {
    var service := new NotificationService(map[]);
    var e := service.Subscribe(username);
    var handler := new EventHandler(service);
    ghost var v := service.View();
    assert v == map[username := Conn(Open, [])];
    assert [username][..0] == [] && [true][..0] == [];
    assert Dispatch(v, [username], message, [true]) == Run(AllProcessed, [SendFailed], map[username := Conn(Errored, [])]);
    assert [username, username][..1] == [username];
    assert [true, secondFails][..1] == [true];
    ghost var calls;
    outcome, calls := handler.HandleEvent([username, username], message, [true, secondFails]);
    state := e.state;
  }
}
