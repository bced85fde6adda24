/** The whole service. */
module Service {
  // The executions of any number of tasks overlap on one broker, and every task lives the life it would
  // live with its executions in one piece.

  import opened Wrappers
  import opened A2A
  import opened BrokerModel
  import opened ExecutorModel
  import opened ExecutorRuns
  import opened WireDiscipline
  import opened Artifacts
  import opened Executions
  import opened TaskLife
  import opened Stepwise
  import opened Interleaving
  import opened ServiceSteps

  /** However many executions overlap, every task at rest has lived a life of its own on the broker as it
      is, with each of its executions in one piece; a task whose execution is under way had lived one
      when that began, and its moments since are an interleaving. */
  lemma EveryTaskLives(states: seq<State>, steps: seq<ServiceStep>, n: nat, id: TaskId)
    requires IsServiceRun(states, steps) && n <= |steps| && id in states[n].lives
    ensures var s := states[n];
            if id in s.flights then Flies(id, s.lives[id], s.flights[id], s.broker)
            else Rests(id, s.lives[id], s.broker)
  {
    RunKeepsFine(states, steps, n);
    assert TaskFine(states[n], id);
  }

  /** The steps take nothing away from the environment: in every run an execution that may begin can
      begin, and an execution under way can go on. */
  lemma NothingIsStuck(states: seq<State>, steps: seq<ServiceStep>, n: nat, step: ServiceStep) returns (s': State)
    requires IsServiceRun(states, steps) && n <= |steps|
    requires match step
             case Embark(_, _, _, _, _, _) => MayEmbark(states[n], step)
             case Proceed(id) => id in states[n].flights
    ensures Goes(states[n], step, s')
  {
    var s := states[n];
    RunKeepsFine(states, steps, n);
    match step
    case Embark(id, contextId, message, references, world, _) =>
      CanEmbark(s, step);
      var begun := Begun(s, step);
      var first := Begin(s.broker);
      var f := Flight(begun, message, references, world,
                      [first, Next(first, RequestOf(begun, message, references), begun.inbox, world)]);
      s' := s.(lives := s.lives[id := begun], flights := s.flights[id := f]);
    case Proceed(id) =>
      CanProceed(s, id);
      var f := s.flights[id];
      s' := Moved(s, id, Next(Last(f), f.Req(), f.begun.inbox, f.world));
  }

  /** All that a task has sent and read, by now. */
  function WireOf(s: State, id: TaskId): seq<Wire>
    requires id in s.lives
  {
    s.lives[id].wire + if id in s.flights then Last(s.flights[id]).wire else []
  }

  /** The messages that wait for a task, by now. */
  function Waiting(s: State, id: TaskId): seq<Arrival>
    requires id in s.lives
  {
    var used := if id in s.flights then Last(s.flights[id]).used else 0;
    if used <= |s.lives[id].inbox| then s.lives[id].inbox[used..] else []
  }

  /** In the whole service, between the executions of a task, the last status its client saw is
      input-required exactly when the broker holds the task, with the kind of the request that waits. */
  lemma {:induction false} ServiceViewsAgree(states: seq<State>, steps: seq<ServiceStep>, n: nat, id: TaskId)
    requires IsServiceRun(states, steps) && n <= |steps|
    requires id in states[n].lives && id !in states[n].flights
    ensures var b, l := states[n].broker, states[n].lives[id];
            && (id in b.tasks <==> StoredState(l.events) == Some(InputRequired))
            && (id in b.tasks ==>
                  && Held(b, id, l.contextId)
                  && LastStatus(l.events) == Some(Status(InputRequired, KindOf(b.tasks[id]))))
            && (id !in b.tasks ==> Gone(b, id, l.contextId))
  {
    EveryTaskLives(states, steps, n, id);
    var l := states[n].lives[id].(broker := states[n].broker);
    var lives, lifeSteps :| Leads(lives, lifeSteps, l);
    LifeViewsAgree(lives, lifeSteps, |lifeSteps|);
  }

  lemma {:induction false} FlightIsDisciplined(id: TaskId, l: Life, f: Flight, b: Broker)
    requires Flies(id, l, f, b)
    ensures Track(New, l.wire + Last(f).wire).Some?
  {
    InterleavedIsAtomic(f.moments, f.Req(), l.inbox, f.world, |f.moments| - 1);
    var step := Run(f.message, f.references, f.world);
    LivesOn(l, step);
    LivedKeeps(Live(l, step));
    var part, all := Last(f).wire, ExecuteStream(l.broker, f.Req(), l.inbox, f.world).wire;
    assert l.wire + all == (l.wire + part) + all[|part|..];
    TrackOfPrefix(New, l.wire + part, all[|part|..]);
  }

  /** In the whole service, at every moment, what each task has sent and read keeps the discipline of
      the wire. */
  lemma {:induction false} ServiceIsDisciplined(states: seq<State>, steps: seq<ServiceStep>, n: nat, id: TaskId)
    requires IsServiceRun(states, steps) && n <= |steps| && id in states[n].lives
    ensures Track(New, WireOf(states[n], id)).Some?
  {
    EveryTaskLives(states, steps, n, id);
    var s := states[n];
    if id in s.flights {
      FlightIsDisciplined(id, s.lives[id], s.flights[id], s.broker);
    } else {
      LivedKeeps(s.lives[id].(broker := s.broker));
      assert WireOf(s, id) == s.lives[id].wire;
    }
  }

  lemma {:induction false} ReadAndWaiting(wire: seq<Wire>, more: seq<Wire>, inbox: seq<Arrival>, used: nat,
                                          arrived: seq<Arrival>)
    requires used <= |inbox| && Read(more) == MessagesOf(inbox[..used])
    requires Read(wire) + MessagesOf(inbox) == MessagesOf(arrived)
    ensures Read(wire + more) + MessagesOf(inbox[used..]) == MessagesOf(arrived)
  {
    ReadOfSum(wire, more);
    MessagesOfSum(inbox[..used], inbox[used..]);
    assert inbox[..used] + inbox[used..] == inbox;
  }

  lemma {:induction false} FlightConserves(id: TaskId, l: Life, f: Flight, b: Broker)
    requires Flies(id, l, f, b)
    ensures Last(f).used <= |l.inbox|
    ensures Read(l.wire + Last(f).wire) + MessagesOf(l.inbox[Last(f).used..]) == MessagesOf(l.arrived)
  {
    ReadSoFar(f.moments, f.Req(), l.inbox, f.world, |f.moments| - 1);
    LivedKeeps(l);
    ReadAndWaiting(l.wire, Last(f).wire, l.inbox, Last(f).used, l.arrived);
  }

  /** In the whole service, at every moment, what each task has read, and then what waits for it, is
      what arrived for it: no message is lost, read twice, or read by another task. */
  lemma {:induction false} ServiceConservesMessages(states: seq<State>, steps: seq<ServiceStep>, n: nat, id: TaskId)
    requires IsServiceRun(states, steps) && n <= |steps| && id in states[n].lives
    ensures Read(WireOf(states[n], id)) + MessagesOf(Waiting(states[n], id)) == MessagesOf(states[n].lives[id].arrived)
  {
    EveryTaskLives(states, steps, n, id);
    var s := states[n];
    if id in s.flights {
      FlightConserves(id, s.lives[id], s.flights[id], s.broker);
    } else {
      LivedKeeps(s.lives[id].(broker := s.broker));
      assert WireOf(s, id) == s.lives[id].wire && Waiting(s, id) == s.lives[id].inbox;
    }
  }

  /** In the whole service, between the executions of a task, its client sees of each item what its own
      messages make of it. */
  lemma {:induction false} ServiceShowsText(
    states: seq<State>, steps: seq<ServiceStep>, n: nat, id: TaskId, stream: Stream, itemId: string)
    requires IsServiceRun(states, steps) && n <= |steps|
    requires id in states[n].lives && id !in states[n].flights
    ensures var l := states[n].lives[id];
            var messages := MessagesOf(l.consumed);
            Visible(ApplyAll(map[], l.events), ArtifactId(Prefix(stream), itemId)) ==
            if !stream.Assistant? then LastMark(stream, messages, itemId).shown + Since(stream, messages, itemId)
            else if ClosedWith(messages, itemId).Some? then ClosedWith(messages, itemId).value
            else Text(stream, messages, itemId)
  {
    EveryTaskLives(states, steps, n, id);
    var l := states[n].lives[id].(broker := states[n].broker);
    var lives, lifeSteps :| Leads(lives, lifeSteps, l);
    LifeShowsText(lives, lifeSteps, |lifeSteps|, stream, itemId);
  }
}
