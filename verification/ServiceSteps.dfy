/** The steps of the whole service, and what they keep: every task at rest has lived a life of its own,
    every other one is in the middle of one. */
module ServiceSteps {
  // The executions of any number of tasks overlap on one broker.

  import opened Wrappers
  import opened A2A
  import opened BrokerModel
  import opened ExecutorModel
  import opened ExecutorRuns
  import opened WireDiscipline
  import opened Artifacts
  import opened Executions
  import opened TaskLife
  import opened Stepwise
  import opened Interleaving

  /** The moments of an execution, which has begun. */
  type Moments = moments: seq<Moment> | moments != [] witness [Begin(EMPTY_BROKER)]

  /** An execution that is under way: the life of its task when it began, what it was asked, and its
      moments so far. */
  datatype Flight = Flight(
    begun: Life, message: UserMessage, references: seq<TaskId>, world: World, moments: Moments)
  {
    function Req(): Request {
      RequestOf(begun, message, references)
    }
  }

  /** The broker all tasks share, the life of each task as it was left by its last execution, and the
      executions under way. */
  datatype State = State(broker: Broker, lives: map<TaskId, Life>, flights: map<TaskId, Flight>)

  const START: State := State(EMPTY_BROKER, map[], map[])

  datatype ServiceStep =
      /** An execution begins; `arrivals` are the messages that arrive for the task by its end. */
    | Embark(id: TaskId, contextId: ContextId, message: UserMessage, references: seq<TaskId>, world: World,
             arrivals: seq<Arrival>)
      /** An execution makes its next step. */
    | Proceed(id: TaskId)

  /** The life of a task by now, new or not, on the broker as it is. */
  function LifeNow(s: State, id: TaskId, contextId: ContextId): Life {
    if id in s.lives then s.lives[id].(broker := s.broker) else Life(id, contextId, s.broker, [], [], [], [], [])
  }

  function Begun(s: State, step: ServiceStep): Life
    requires step.Embark?
  {
    var l := LifeNow(s, step.id, step.contextId);
    l.(inbox := l.inbox + step.arrivals, arrived := l.arrived + step.arrivals)
  }

  /** What the environment owes: one execution of a task at a time, in its context, and a visit of the
      context by the resolve. */
  ghost predicate MayEmbark(s: State, step: ServiceStep) {
    && step.Embark? && step.id !in s.flights
    && (step.id in s.lives ==> s.lives[step.id].contextId == step.contextId)
    && Visits(ContextOf(s.broker, step.contextId), step.world.order)
  }

  function Last(f: Flight): Moment {
    f.moments[|f.moments| - 1]
  }

  /** The flights of others see a change of the broker. */
  function SeenBy(f: Flight, b: Broker): Flight {
    f.(moments := f.moments + [Last(f).(broker := b)])
  }

  function Others(s: State, id: TaskId, b: Broker): map<TaskId, Flight> {
    map t | t in s.flights && t != id :: SeenBy(s.flights[t], b)
  }

  /** The life of a task when its execution is over. */
  function Landed(f: Flight, m: Moment): Life
    requires m.used <= |f.begun.inbox|
  {
    Life(f.begun.id, f.begun.contextId, m.broker, f.begun.inbox[m.used..], f.begun.arrived,
         f.begun.consumed + f.begun.inbox[..m.used], f.begun.events + m.events, f.begun.wire + m.wire)
  }

  /** An execution comes to a moment, and the others see its broker. */
  function Moved(s: State, id: TaskId, m: Moment): State
    requires id in s.flights && m.used <= |s.flights[id].begun.inbox|
  {
    var f := s.flights[id];
    if m.at.Over? then State(m.broker, s.lives[id := Landed(f, m)], Others(s, id, m.broker))
    else State(m.broker, s.lives, Others(s, id, m.broker)[id := f.(moments := f.moments + [m])])
  }

  /** One step of the service. */
  ghost predicate Goes(s: State, step: ServiceStep, s': State) {
    match step
    case Embark(id, contextId, message, references, world, _) =>
      var begun := Begun(s, step);
      var req := RequestOf(begun, message, references);
      && MayEmbark(s, step) && Sound(Begin(s.broker), req, begun.inbox, world)
      && s' == s.(lives := s.lives[id := begun],
                  flights := s.flights[id := Flight(begun, message, references, world,
                                                    [Begin(s.broker), Next(Begin(s.broker), req, begun.inbox, world)])])
    case Proceed(id) =>
      && id in s.flights
      && var f := s.flights[id];
      && Sound(Last(f), f.Req(), f.begun.inbox, f.world) && !Last(f).at.Over?
      && var m := Next(Last(f), f.Req(), f.begun.inbox, f.world);
      && m.used <= |f.begun.inbox|
      && s' == Moved(s, id, m)
  }

  ghost predicate IsServiceRun(states: seq<State>, steps: seq<ServiceStep>) {
    && |states| == |steps| + 1 && states[0] == START
    && forall i :: 0 <= i < |steps| ==> Goes(states[i], steps[i], states[i + 1])
  }

  // ----- Lives that some run leads to -----

  ghost predicate Leads(lives: seq<Life>, steps: seq<LifeStep>, l: Life) {
    IsLife(lives, steps) && lives[|steps|] == l
  }

  /** A life that a task can have lived. */
  ghost predicate Lived(l: Life) {
    exists lives, steps :: Leads(lives, steps, l)
  }

  ghost predicate LeadsTo(l: Life, step: LifeStep, l': Life) {
    Possible(l, step) && l' == Live(l, step)
  }

  lemma StepOfLongerLife(lives: seq<Life>, steps: seq<LifeStep>, l: Life, step: LifeStep, l': Life, i: nat)
    requires Leads(lives, steps, l) && LeadsTo(l, step, l') && i <= |steps|
    ensures LeadsTo((lives + [l'])[i], (steps + [step])[i], (lives + [l'])[i + 1])
  {
    if i < |steps| {
      assert LeadsTo(lives[i], steps[i], lives[i + 1]);
    }
  }

  lemma LongerLife(lives: seq<Life>, steps: seq<LifeStep>, l: Life, step: LifeStep, l': Life)
    requires Leads(lives, steps, l) && LeadsTo(l, step, l')
    ensures Leads(lives + [l'], steps + [step], l')
  {
    var lives', steps' := lives + [l'], steps + [step];
    assert lives'[0] == lives[0];
    forall i | 0 <= i < |steps'| ensures LeadsTo(lives'[i], steps'[i], lives'[i + 1]) {
      StepOfLongerLife(lives, steps, l, step, l', i);
    }
  }

  lemma LivesOn(l: Life, step: LifeStep)
    requires Lived(l) && Possible(l, step)
    ensures Lived(Live(l, step))
  {
    var lives, steps :| Leads(lives, steps, l);
    LongerLife(lives, steps, l, step, Live(l, step));
  }

  /** What every life keeps. */
  lemma {:induction false} LivedKeeps(l: Life)
    requires Lived(l)
    ensures ViewsAgree(l) && Track(New, l.wire).Some?
    ensures Read(l.wire) + MessagesOf(l.inbox) == MessagesOf(l.arrived)
  {
    var lives, steps :| Leads(lives, steps, l);
    ViewsStayAgreed(lives, steps, |steps|);
    LifeIsDisciplined(lives, steps, |steps|);
    LifeConservesMessages(lives, steps, |steps|);
  }

  // ----- The invariant -----

  /** A task at rest has lived its life up to the broker as it is. */
  ghost predicate Rests(id: TaskId, l: Life, b: Broker) {
    l.id == id && Lived(l.(broker := b))
  }

  /** A task whose execution is under way had lived its life when it began, and its moments are an
      interleaving up to the broker as it is. */
  ghost predicate Flies(id: TaskId, l: Life, f: Flight, b: Broker) {
    && l == f.begun && l.id == id && Lived(l)
    && |f.moments| >= 2 && f.moments[0].broker == l.broker
    && Interleaved(f.moments, f.Req(), l.inbox, f.world)
    && Last(f).broker == b && !Last(f).at.Over?
  }

  ghost predicate TaskFine(s: State, id: TaskId) {
    id in s.lives &&
    if id in s.flights then Flies(id, s.lives[id], s.flights[id], s.broker) else Rests(id, s.lives[id], s.broker)
  }

  /** The broker knows no other tasks. */
  ghost predicate KnowsOnly(b: Broker, ids: set<TaskId>) {
    && (forall t :: t in b.tasks ==> t in ids)
    && (forall c, t :: t in ContextOf(b, c) ==> t in ids)
  }

  ghost predicate Fine(s: State) {
    && s.flights.Keys <= s.lives.Keys
    && KnowsOnly(s.broker, s.lives.Keys)
    && forall t :: t in s.lives ==> TaskFine(s, t)
  }

  lemma FlyingIsOwn(id: TaskId, l: Life, f: Flight, b: Broker)
    requires Flies(id, l, f, b) && id in b.tasks
    ensures b.tasks[id].contextId == l.contextId
  {
    MomentsAreSound(f.moments, f.Req(), l.inbox, f.world, |f.moments| - 1);
  }

  /** A task of the broker is in its own context. */
  lemma InOwnContext(s: State, id: TaskId)
    requires TaskFine(s, id) && id in s.broker.tasks
    ensures s.broker.tasks[id].contextId == s.lives[id].contextId
  {
    if id in s.flights {
      FlyingIsOwn(id, s.lives[id], s.flights[id], s.broker);
    } else {
      LivedKeeps(s.lives[id].(broker := s.broker));
    }
  }

  // ----- Beginning -----

  /** An execution that the environment may begin can begin. */
  lemma CanEmbark(s: State, step: ServiceStep)
    requires Fine(s) && MayEmbark(s, step)
    ensures var begun := Begun(s, step);
            var req := RequestOf(begun, step.message, step.references);
            && Lived(begun) && begun.id == step.id && begun.contextId == step.contextId && begun.broker == s.broker
            && Sound(Begin(s.broker), req, begun.inbox, step.world)
            && (req.stored == None ==> req.id !in s.broker.tasks)
  {
    var l, begun := LifeNow(s, step.id, step.contextId), Begun(s, step);
    if step.id in s.lives {
      assert TaskFine(s, step.id);
    } else {
      assert Unborn(l);
      assert Leads([l], [], l);
    }
    LivesOn(l, Deliver(step.arrivals));
    LivedKeeps(begun);
    LifeBegins(begun, step.message, step.references, step.world);
  }

  lemma NewFlightFlies(id: TaskId, f: Flight)
    requires Lived(f.begun) && f.begun.id == id && |f.moments| == 2
    requires f.moments[0] == Begin(f.begun.broker) && Sound(f.moments[0], f.Req(), f.begun.inbox, f.world)
    requires f.Req().stored == None ==> f.Req().id !in f.begun.broker.tasks
    requires f.moments[1] == Next(f.moments[0], f.Req(), f.begun.inbox, f.world) && !f.moments[1].at.Over?
    ensures Flies(id, f.begun, f, f.begun.broker)
  {
    assert Follows(f.moments[0], f.moments[1], f.Req(), f.begun.inbox, f.world);
  }

  lemma FirstStep(m: Moment, req: Request, inbox: seq<Arrival>, world: World)
    requires Sound(m, req, inbox, world) && m.at.Fresh?
    ensures Next(m, req, inbox, world).broker == m.broker && !Next(m, req, inbox, world).at.Over?
  {
  }

  lemma EmbarkKeepsFine(s: State, step: ServiceStep, s': State)
    requires Fine(s) && step.Embark? && Goes(s, step, s')
    ensures Fine(s')
  {
    var id, f := step.id, s'.flights[step.id];
    CanEmbark(s, step);
    FirstStep(f.moments[0], f.Req(), f.begun.inbox, f.world);
    NewFlightFlies(id, f);
    forall t | t in s'.lives ensures TaskFine(s', t) {
      if t != id {
        assert TaskFine(s, t);
      }
    }
  }

  // ----- Proceeding -----

  /** An execution under way can make its next step. */
  lemma CanProceed(s: State, id: TaskId)
    requires Fine(s) && id in s.flights
    ensures var f := s.flights[id];
            && Sound(Last(f), f.Req(), f.begun.inbox, f.world) && !Last(f).at.Over?
            && !Last(f).at.Fresh? && Next(Last(f), f.Req(), f.begun.inbox, f.world).used <= |f.begun.inbox|
  {
    assert TaskFine(s, id);
    var f := s.flights[id];
    MomentsAreSound(f.moments, f.Req(), f.begun.inbox, f.world, |f.moments| - 1);
    var sent := StepAdds(Last(f), f.Req(), f.begun.inbox, f.world);
  }

  /** One more moment of a flight. */
  lemma LongerFlight(f: Flight, m: Moment)
    requires Interleaved(f.moments, f.Req(), f.begun.inbox, f.world)
    requires Follows(Last(f), m, f.Req(), f.begun.inbox, f.world)
    ensures Interleaved(f.moments + [m], f.Req(), f.begun.inbox, f.world)
  {
    var moments := f.moments + [m];
    forall i | 0 <= i < |moments| - 1 ensures Follows(moments[i], moments[i + 1], f.Req(), f.begun.inbox, f.world) {
      if i < |f.moments| - 1 {
        assert Follows(f.moments[i], f.moments[i + 1], f.Req(), f.begun.inbox, f.world);
      }
    }
  }

  /** A step of one task's execution leaves another task alone. */
  lemma OthersAlone(s: State, id: TaskId, other: TaskId)
    requires Fine(s) && id in s.flights && other in s.lives && other != id
    ensures var f := s.flights[id];
            Sound(Last(f), f.Req(), f.begun.inbox, f.world) && !Last(f).at.Over? &&
            SameTask(s.broker, Next(Last(f), f.Req(), f.begun.inbox, f.world).broker, other, s.lives[other].contextId)
  {
    var f := s.flights[id];
    CanProceed(s, id);
    assert TaskFine(s, id);
    assert TaskFine(s, other);
    if other in s.broker.tasks {
      InOwnContext(s, other);
    }
    StepStaysElsewhere(Last(f), f.Req(), f.begun.inbox, f.world, other, s.lives[other].contextId);
  }

  /** Another task's work does not end a flight, which sees it. */
  lemma FlightGoesOn(id: TaskId, l: Life, f: Flight, b: Broker, b': Broker)
    requires Flies(id, l, f, b) && SameTask(b, b', id, l.contextId)
    ensures Flies(id, l, SeenBy(f, b'), b')
  {
    MomentsAreSound(f.moments, f.Req(), f.begun.inbox, f.world, |f.moments| - 1);
    LongerFlight(f, Last(f).(broker := b'));
  }

  /** The last step of an execution: its task has lived it. */
  lemma Lands(id: TaskId, l: Life, f: Flight, b: Broker, m: Moment)
    requires Flies(id, l, f, b) && Follows(Last(f), m, f.Req(), l.inbox, f.world)
    requires m.at.Over? && m.used <= |l.inbox|
    ensures Rests(id, Landed(f, m), m.broker)
  {
    var moments := f.moments + [m];
    LongerFlight(f, m);
    OverlappedRunIsLife(l, f.message, f.references, f.world, moments, |f.moments|);
    LivesOn(l, Run(f.message, f.references, f.world));
    LivesOn(Live(l, Run(f.message, f.references, f.world)), Elsewhere(m.broker));
  }

  lemma FliesOn(id: TaskId, l: Life, f: Flight, b: Broker, m: Moment)
    requires Flies(id, l, f, b) && Follows(Last(f), m, f.Req(), l.inbox, f.world) && !m.at.Over?
    ensures Flies(id, l, f.(moments := f.moments + [m]), m.broker)
  {
    LongerFlight(f, m);
  }

  lemma ProceedKeepsOwn(s: State, id: TaskId, s': State)
    requires Fine(s) && Goes(s, Proceed(id), s')
    ensures TaskFine(s', id)
  {
    assert TaskFine(s, id);
    var f := s.flights[id];
    var m := Next(Last(f), f.Req(), f.begun.inbox, f.world);
    assert Follows(Last(f), m, f.Req(), f.begun.inbox, f.world);
    if m.at.Over? {
      Lands(id, s.lives[id], f, s.broker, m);
    } else {
      FliesOn(id, s.lives[id], f, s.broker, m);
    }
  }

  lemma MovingKeepsOther(s: State, id: TaskId, m: Moment, other: TaskId)
    requires id in s.flights && m.used <= |s.flights[id].begun.inbox|
    requires TaskFine(s, other) && other != id && SameTask(s.broker, m.broker, other, s.lives[other].contextId)
    ensures TaskFine(Moved(s, id, m), other)
  {
    if other in s.flights {
      FlightGoesOn(other, s.lives[other], s.flights[other], s.broker, m.broker);
    } else {
      LivesOn(s.lives[other].(broker := s.broker), Elsewhere(m.broker));
    }
  }

  lemma ProceedKeepsOther(s: State, id: TaskId, s': State, other: TaskId)
    requires Fine(s) && Goes(s, Proceed(id), s') && other in s.lives && other != id
    ensures TaskFine(s', other)
  {
    OthersAlone(s, id, other);
    var f := s.flights[id];
    assert TaskFine(s, other);
    MovingKeepsOther(s, id, Next(Last(f), f.Req(), f.begun.inbox, f.world), other);
  }

  lemma MovingKeepsKeys(s: State, id: TaskId, m: Moment)
    requires id in s.flights && id in s.lives && m.used <= |s.flights[id].begun.inbox|
    ensures Moved(s, id, m).lives.Keys == s.lives.Keys && Moved(s, id, m).flights.Keys <= s.flights.Keys
  {
  }

  /** A step brings no task into the broker but its own. */
  lemma StepKeepsKnown(ids: set<TaskId>, f: Flight)
    requires Sound(Last(f), f.Req(), f.begun.inbox, f.world) && !Last(f).at.Over?
    requires KnowsOnly(Last(f).broker, ids) && f.begun.id in ids
    ensures KnowsOnly(Next(Last(f), f.Req(), f.begun.inbox, f.world).broker, ids)
  {
    StepAddsOnlyOwn(Last(f), f.Req(), f.begun.inbox, f.world);
  }

  lemma ProceedKeepsKnown(s: State, id: TaskId, s': State)
    requires Fine(s) && Goes(s, Proceed(id), s')
    ensures s'.lives.Keys == s.lives.Keys && s'.flights.Keys <= s.flights.Keys
    ensures KnowsOnly(s'.broker, s'.lives.Keys)
  {
    var f := s.flights[id];
    assert TaskFine(s, id);
    StepKeepsKnown(s.lives.Keys, f);
    MovingKeepsKeys(s, id, Next(Last(f), f.Req(), f.begun.inbox, f.world));
  }

  lemma ProceedKeepsFine(s: State, id: TaskId, s': State)
    requires Fine(s) && Goes(s, Proceed(id), s')
    ensures Fine(s')
  {
    ProceedKeepsKnown(s, id, s');
    forall t | t in s'.lives ensures TaskFine(s', t) {
      if t == id {
        ProceedKeepsOwn(s, id, s');
      } else {
        ProceedKeepsOther(s, id, s', t);
      }
    }
  }

  lemma {:induction false} RunKeepsFine(states: seq<State>, steps: seq<ServiceStep>, n: nat)
    requires IsServiceRun(states, steps) && n <= |steps|
    ensures Fine(states[n])
  {
    if n > 0 {
      RunKeepsFine(states, steps, n - 1);
      assert Goes(states[n - 1], steps[n - 1], states[n]);
      match steps[n - 1]
      case Embark(_, _, _, _, _, _) => EmbarkKeepsFine(states[n - 1], steps[n - 1], states[n]);
      case Proceed(id) => ProceedKeepsFine(states[n - 1], id, states[n]);
    }
  }
}
