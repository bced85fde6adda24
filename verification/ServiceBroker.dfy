/** The service on the broker's interleaved system: every step of the service is some steps of that, with the same
    broker, so what holds of every run of the one holds of every run of the other. */
module ServiceBroker {
  import opened Wrappers
  import opened A2A
  import opened BrokerModel
  import opened ExecutorModel
  import opened ExecutorRuns
  import opened WireDiscipline
  import opened WireThreads
  import opened TaskLife
  import opened Stepwise
  import opened Interleaving
  import opened ServiceSteps
  import opened Service
  import opened BrokerSteps
  import BR = BrokerSystem
  import BT = BrokerThreads
  import BC = BrokerClients

  // ----- What a step of the service is to the broker -----

  /** Where an execution has come to. */
  function PointOf(s: State, id: TaskId): Point {
    if id in s.flights then Last(s.flights[id]).at else Point.Over
  }

  /** The broker's steps that a step of the service from `s` to `s'` is. */
  function BrokerStepsOf(s: State, step: ServiceStep, s': State): seq<BR.Step> {
    match step
    case Embark(id, _, _, _, _, _) =>
      if id !in s'.flights then []
      else
        var f := s'.flights[id];
        StepsOf(Begin(s.broker), PointOf(s', id), s'.broker, f.Req(), f.begun.inbox, f.world, f.begun.wire)
    case Proceed(id) =>
      if id !in s.flights then []
      else
        var f := s.flights[id];
        StepsOf(Last(f), PointOf(s', id), s'.broker, f.Req(), f.begun.inbox, f.world, f.begun.wire + Last(f).wire)
  }

  /** The client a step launches, and the thread it has Codex make. */
  function LaunchesIn(s: State, step: ServiceStep): set<ClientId> {
    if step.Proceed? && step.id in s.flights then LaunchedAt(Last(s.flights[step.id]).at, s.flights[step.id].world)
    else {}
  }

  function MakesIn(s: State, step: ServiceStep): set<ThreadId> {
    if step.Proceed? && step.id in s.flights then MadeAt(Last(s.flights[step.id]).at, s.flights[step.id].world) else {}
  }

  // ----- The system that goes with a state -----

  ghost predicate Fits(s: State, z: BR.System) {
    && z.broker == s.broker
    && (forall t :: t in s.flights ==> StartFits(z, Last(s.flights[t]).at, s.flights[t].Req(), s.flights[t].world))
    && (forall t :: t in z.starts ==> t in s.flights)
    && (forall t :: t in s.lives ==> LedgerFits(z, t, WireOf(s, t)))
    && (forall t :: t in z.threadOf ==> t in s.lives)
    && (forall t :: t in z.used ==> t in s.lives && (t in s.flights || StoredState(s.lives[t].events).Some?))
  }

  ghost predicate Good(z: BR.System) {
    BR.Inv(z) && BT.ThreadsOk(z) && BC.ClientsOk(z)
  }

  lemma {:induction false} TakingKeepsGood(z: BR.System, steps: seq<BR.Step>, z': BR.System)
    requires Good(z) && Takes(z, steps, z')
    ensures Good(z')
    decreases |steps|
  {
    if steps != [] {
      BR.StepKeepsInv(z, steps[0]);
      BT.StepKeepsThreads(z, steps[0]);
      BC.StepKeepsClients(z, steps[0]);
      TakingKeepsGood(BR.Apply(z, steps[0]), steps[1..], z');
    }
  }

  lemma {:induction false} FineIsDisciplined(s: State, id: TaskId)
    requires Fine(s) && id in s.lives
    ensures Track(New, WireOf(s, id)).Some?
  {
    assert TaskFine(s, id);
    if id in s.flights {
      FlightIsDisciplined(id, s.lives[id], s.flights[id], s.broker);
    } else {
      LivedKeeps(s.lives[id].(broker := s.broker));
      assert WireOf(s, id) == s.lives[id].wire;
    }
  }

  /** An execution that is over has told a status. */
  lemma LandedHasStatus(id: TaskId, l: Life, f: Flight, b: Broker, m: Moment)
    requires Flies(id, l, f, b) && Follows(Last(f), m, f.Req(), l.inbox, f.world)
    requires m.at.Over? && m.used <= |l.inbox|
    ensures StoredState(Landed(f, m).events).Some?
  {
    var moments := f.moments + [m];
    LongerFlight(f, m);
    OverlappedRunIsLife(l, f.message, f.references, f.world, moments, |f.moments|);
    LivedKeeps(l);
    LifecycleAgreement(l.broker, f.Req(), l.inbox, f.world);
    LastStatusOfSum(l.events, ExecuteStream(l.broker, f.Req(), l.inbox, f.world).events);
  }

  // ----- Other tasks -----

  ghost predicate OwnIds(s: State) {
    forall t :: t in s.flights ==> s.flights[t].begun.id == t
  }

  lemma FineHasOwnIds(s: State)
    requires Fine(s)
    ensures OwnIds(s)
  {
    assert forall t :: t in s.flights ==> TaskFine(s, t);
  }

  /** The same flight, as far as its start goes. */
  ghost predicate SameFlight(f: Flight, f': Flight) {
    Last(f').at == Last(f).at && f'.Req() == f.Req() && f'.world == f.world
  }

  ghost predicate SameLog(s: State, s': State, t: TaskId)
    requires t in s.lives && t in s'.lives
  {
    s'.lives[t].events == s.lives[t].events && WireOf(s', t) == WireOf(s, t)
  }

  /** Nothing but one task has moved. */
  ghost predicate OnlyMoves(s: State, s': State, id: TaskId) {
    && id in s'.lives && (forall t :: t in s'.lives <==> t in s.lives || t == id)
    && (forall t :: t != id ==> (t in s'.flights <==> t in s.flights))
    && (forall t :: t != id && t in s.flights ==> t in s'.flights && SameFlight(s.flights[t], s'.flights[t]))
    && (forall t :: t != id && t in s.lives ==> t in s'.lives && SameLog(s, s', t))
  }

  /** What belongs to the one that has. */
  ghost predicate OwnFitsIn(s: State, z: BR.System, id: TaskId)
    requires id in s.lives
  {
    && (if id in s.flights then StartFits(z, Last(s.flights[id]).at, s.flights[id].Req(), s.flights[id].world)
        else id !in z.starts)
    && LedgerFits(z, id, WireOf(s, id))
    && (id in z.used ==> id in s.flights || StoredState(s.lives[id].events).Some?)
  }

  lemma FramedStart(z: BR.System, z': BR.System, id: TaskId, at: Point, req: Request, world: World)
    requires Framed(z, z', id) && StartFits(z, at, req, world) && req.id != id
    ensures StartFits(z', at, req, world)
  {
  }

  lemma FramedLedger(z: BR.System, z': BR.System, id: TaskId, t: TaskId, wire: seq<Wire>)
    requires Framed(z, z', id) && LedgerFits(z, t, wire) && t != id
    ensures LedgerFits(z', t, wire)
  {
  }

  lemma OtherFits(s: State, s': State, z: BR.System, z': BR.System, id: TaskId, t: TaskId)
    requires Fits(s, z) && OwnIds(s) && OnlyMoves(s, s', id) && Framed(z, z', id) && t != id
    ensures t in s'.flights ==> StartFits(z', Last(s'.flights[t]).at, s'.flights[t].Req(), s'.flights[t].world)
    ensures t in s'.lives ==> LedgerFits(z', t, WireOf(s', t))
  {
    if t in s.flights {
      assert SameFlight(s.flights[t], s'.flights[t]);
      FramedStart(z, z', id, Last(s.flights[t]).at, s.flights[t].Req(), s.flights[t].world);
    }
    if t in s.lives {
      assert SameLog(s, s', t);
      FramedLedger(z, z', id, t, WireOf(s, t));
    }
  }

  lemma MovingFits(s: State, s': State, z: BR.System, z': BR.System, id: TaskId)
    requires Fits(s, z) && OwnIds(s) && OnlyMoves(s, s', id) && Framed(z, z', id) && OwnFitsIn(s', z', id)
    requires z'.broker == s'.broker && z'.used <= z.used + {id}
    ensures Fits(s', z')
  {
    forall t | t != id
      ensures t in s'.flights ==> StartFits(z', Last(s'.flights[t]).at, s'.flights[t].Req(), s'.flights[t].world)
      ensures t in s'.lives ==> LedgerFits(z', t, WireOf(s', t))
    {
      OtherFits(s, s', z, z', id, t);
    }
    forall t | t in z'.used && t != id ensures t in s'.lives &&
        (t in s'.flights || StoredState(s'.lives[t].events).Some?) {
      assert SameLog(s, s', t);
    }
  }

  // ----- Beginning -----

  /** What a beginning changes. */
  lemma EmbarkShape(s: State, step: ServiceStep, s': State)
    requires step.Embark? && Goes(s, step, s')
    ensures MayEmbark(s, step)
    ensures step.id !in s.flights && step.id in s'.lives && step.id in s'.flights
    ensures var begun, f := s'.lives[step.id], s'.flights[step.id];
            && s' == s.(lives := s.lives[step.id := begun], flights := s.flights[step.id := f])
            && f.begun == begun && |f.moments| == 2 && f.moments[0] == Begin(s.broker)
            && f.message == step.message && f.references == step.references && f.world == step.world
            && begun.events == (if step.id in s.lives then s.lives[step.id].events else [])
            && begun.wire == (if step.id in s.lives then s.lives[step.id].wire else [])
    ensures var f := s'.flights[step.id];
            && Sound(f.moments[0], f.Req(), f.begun.inbox, f.world)
            && f.moments[1] == Next(f.moments[0], f.Req(), f.begun.inbox, f.world)
  {
  }

  lemma EmbarkMoves(s: State, id: TaskId, s': State, begun: Life, f: Flight)
    requires id !in s.flights && s' == s.(lives := s.lives[id := begun], flights := s.flights[id := f])
    ensures OnlyMoves(s, s', id)
  {
    forall t | t != id && t in s.lives ensures SameLog(s, s', t) {
    }
  }

  lemma FirstMoment(m: Moment, req: Request, inbox: seq<Arrival>, world: World)
    requires Sound(m, req, inbox, world) && m == Begin(m.broker)
    ensures var m' := Next(m, req, inbox, world);
            && m'.broker == m.broker && m'.wire == [] && !m'.at.Launched? && !m'.at.Threaded?
            && (m'.at.Based? ==>
                  && req.stored == None && Resolve(m.broker, req.contextId, req.references, world.order).Ok?
                  && m'.at.base == Resolve(m.broker, req.contextId, req.references, world.order).value)
  {
  }

  lemma NewLedger(s: State, z: BR.System, id: TaskId)
    requires Fits(s, z) && id !in s.lives
    ensures LedgerFits(z, id, [])
  {
  }

  /** A task that is new to the A2A library is new to the broker. */
  lemma NewIsUnused(s: State, z: BR.System, id: TaskId)
    requires Fits(s, z) && id !in s.flights && (id in s.lives ==> StoredState(s.lives[id].events) == None)
    ensures id !in z.used && id !in z.starts
  {
  }

  lemma {:induction false} BegunMakes(s: State, z: BR.System, id: TaskId, f: Flight, m: Moment,
                                      m': Moment) returns (z': BR.System)
    requires Fits(s, z) && id !in s.flights && f.begun.id == id && id != NO_TASK
    requires f.begun.events == if id in s.lives then s.lives[id].events else []
    requires m == Begin(s.broker) && Visits(ContextOf(s.broker, f.begun.contextId), f.world.order)
    requires !m'.at.Launched? && !m'.at.Threaded?
    requires m'.at.Based? ==>
               && f.Req().stored == None && Resolve(s.broker, f.begun.contextId, f.references, f.world.order).Ok?
               && m'.at.base == Resolve(s.broker, f.begun.contextId, f.references, f.world.order).value
    ensures Takes(z, StepsOf(m, m'.at, s.broker, f.Req(), f.begun.inbox, f.world, f.begun.wire), z')
    ensures z'.broker == s.broker && z'.launched == z.launched && z'.threads == z.threads
    ensures z'.used <= z.used + {id} && Framed(z, z', id)
    ensures z'.threadOf == z.threadOf && z'.completed == z.completed
    ensures StartFits(z', m'.at, f.Req(), f.world)
  {
    if m'.at.Based? {
      NewIsUnused(s, z, id);
      z' := BeginMakes(z, f.Req(), f.world);
    } else {
      z' := z;
    }
  }

  lemma SameLedgerFits(z: BR.System, z': BR.System, id: TaskId, wire: seq<Wire>)
    requires LedgerFits(z, id, wire) && z'.threadOf == z.threadOf && z'.completed == z.completed
    ensures LedgerFits(z', id, wire)
  {
  }

  lemma {:induction false} EmbarkFits(states: seq<State>, steps: seq<ServiceStep>, n: nat,
                                      z: BR.System) returns (z': BR.System)
    requires IsServiceRun(states, steps) && n < |steps| && steps[n].Embark? && steps[n].id != NO_TASK
    requires Fits(states[n], z)
    ensures Takes(z, BrokerStepsOf(states[n], steps[n], states[n + 1]), z') && Fits(states[n + 1], z')
    ensures z'.launched == z.launched && z'.threads == z.threads
  {
    var s, step, s' := states[n], steps[n], states[n + 1];
    RunKeepsFine(states, steps, n);
    assert Goes(s, step, s');
    EmbarkShape(s, step, s');
    CanEmbark(s, step);
    var id, f := step.id, s'.flights[step.id];
    FirstMoment(f.moments[0], f.Req(), f.begun.inbox, f.world);
    z' := BegunMakes(s, z, id, f, f.moments[0], f.moments[1]);
    EmbarkMoves(s, id, s', f.begun, f);
    FineHasOwnIds(s);
    BegunLog(s, s', id);
    if id in s.lives {
      assert LedgerFits(z, id, WireOf(s, id));
    } else {
      NewLedger(s, z, id);
    }
    SameLedgerFits(z, z', id, WireOf(s', id));
    MovingFits(s, s', z, z', id);
  }

  lemma BegunLog(s: State, s': State, id: TaskId)
    requires id !in s.flights && id in s'.lives && id in s'.flights && Last(s'.flights[id]).wire == []
    requires s'.lives[id].wire == if id in s.lives then s.lives[id].wire else []
    ensures WireOf(s', id) == if id in s.lives then WireOf(s, id) else []
  {
  }

  // ----- Proceeding -----

  lemma OtherStays(s: State, id: TaskId, m: Moment, t: TaskId)
    requires id in s.flights && m.used <= |s.flights[id].begun.inbox| && t != id
    ensures var s' := Moved(s, id, m);
            && (t in s'.flights <==> t in s.flights) && (t in s.lives <==> t in s'.lives)
            && (t in s.flights ==> SameFlight(s.flights[t], s'.flights[t]))
            && (t in s.lives ==> SameLog(s, s', t))
  {
  }

  lemma ProceedMoves(s: State, id: TaskId, s': State, m: Moment)
    requires id in s.lives && id in s.flights && m.used <= |s.flights[id].begun.inbox| && s' == Moved(s, id, m)
    requires s.lives[id] == s.flights[id].begun
    ensures OnlyMoves(s, s', id) && WireOf(s', id) == s.lives[id].wire + m.wire
  {
    forall t | t != id
      ensures (t in s'.flights <==> t in s.flights) && (t in s.lives <==> t in s'.lives)
      ensures t in s.flights ==> SameFlight(s.flights[t], s'.flights[t])
      ensures t in s.lives ==> SameLog(s, s', t)
    {
      OtherStays(s, id, m, t);
    }
  }

  /** What a step of an execution is. */
  lemma ProceedShape(states: seq<State>, steps: seq<ServiceStep>, n: nat) returns (m: Moment, sent: seq<Wire>)
    requires IsServiceRun(states, steps) && n < |steps| && steps[n].Proceed? && Fine(states[n])
    ensures var s, id := states[n], steps[n].id;
            && id in s.lives && id in s.flights && s.lives[id] == s.flights[id].begun
            && s.flights[id].begun.id == id && Flies(id, s.lives[id], s.flights[id], s.broker)
    ensures var f := states[n].flights[steps[n].id];
            && Sound(Last(f), f.Req(), f.begun.inbox, f.world) && !Last(f).at.Over? && !Last(f).at.Fresh?
            && m == Next(Last(f), f.Req(), f.begun.inbox, f.world) && m.used <= |f.begun.inbox|
            && m.wire == Last(f).wire + sent
    ensures states[n + 1] == Moved(states[n], steps[n].id, m) && steps[n].id in states[n + 1].lives
  {
    var s, id := states[n], steps[n].id;
    assert Goes(s, steps[n], states[n + 1]);
    CanProceed(s, id);
    assert TaskFine(s, id);
    var f := s.flights[id];
    m := Next(Last(f), f.Req(), f.begun.inbox, f.world);
    sent := StepAdds(Last(f), f.Req(), f.begun.inbox, f.world);
  }

  /** The log goes on in the discipline. */
  lemma {:induction false} ProceedIsDisciplined(s: State, id: TaskId, s': State, m: Moment, sent: seq<Wire>)
    requires Fine(s') && id in s.lives && id in s.flights && s.lives[id] == s.flights[id].begun
    requires m.used <= |s.flights[id].begun.inbox| && s' == Moved(s, id, m) && id in s'.lives
    requires m.wire == Last(s.flights[id]).wire + sent
    ensures Track(New, s.flights[id].begun.wire + Last(s.flights[id]).wire + sent).Some?
  {
    var f := s.flights[id];
    ProceedMoves(s, id, s', m);
    FineIsDisciplined(s', id);
    assert f.begun.wire + Last(f).wire + sent == f.begun.wire + m.wire;
  }

  lemma FlightFits(s: State, z: BR.System, id: TaskId)
    requires Fits(s, z) && id in s.flights && id in s.lives && s.flights[id].begun == s.lives[id]
    requires s.flights[id].begun.id == id && Last(s.flights[id]).broker == s.broker
    ensures var f := s.flights[id]; OwnFits(z, Last(f), f.Req(), f.world, f.begun.wire + Last(f).wire)
  {
    assert LedgerFits(z, id, WireOf(s, id));
  }

  lemma {:induction false} FlightMakes(z: BR.System, f: Flight, m: Moment, sent: seq<Wire>) returns (z': BR.System)
    requires Sound(Last(f), f.Req(), f.begun.inbox, f.world) && !Last(f).at.Over? && !Last(f).at.Fresh?
    requires m == Next(Last(f), f.Req(), f.begun.inbox, f.world)
    requires m.wire == Last(f).wire + sent && Track(New, f.begun.wire + Last(f).wire + sent).Some?
    requires OwnFits(z, Last(f), f.Req(), f.world, f.begun.wire + Last(f).wire)
    requires Good(z) && FreshAt(z, Last(f).at, f.world)
    ensures Takes(z, StepsOf(Last(f), m.at, m.broker, f.Req(), f.begun.inbox, f.world, f.begun.wire + Last(f).wire), z')
    ensures Framed(z, z', f.begun.id) && OwnFits(z', m, f.Req(), f.world, f.begun.wire + m.wire)
    ensures z'.used == z.used && z'.launched == z.launched + LaunchedAt(Last(f).at, f.world)
    ensures z'.threads.Keys == z.threads.Keys + MadeAt(Last(f).at, f.world)
  {
    z' := MomentMakes(z, Last(f), m, f.Req(), f.begun.inbox, f.world, f.begun.wire + Last(f).wire, sent);
    assert f.begun.wire + Last(f).wire + sent == f.begun.wire + m.wire;
  }

  /** The moved task fits where it has come to. */
  lemma MovedOwnFits(s: State, id: TaskId, m: Moment, z: BR.System)
    requires id in s.lives && id in s.flights && m.used <= |s.flights[id].begun.inbox|
    requires s.lives[id] == s.flights[id].begun && s.flights[id].begun.id == id
    requires var f := s.flights[id]; OwnFits(z, m, f.Req(), f.world, f.begun.wire + m.wire)
    requires m.at.Over? ==> StoredState(Landed(s.flights[id], m).events).Some?
    ensures id in Moved(s, id, m).lives && OwnFitsIn(Moved(s, id, m), z, id)
    ensures Moved(s, id, m).broker == z.broker
  {
    ProceedMoves(s, id, Moved(s, id, m), m);
  }

  lemma {:induction false} ProceedFits(states: seq<State>, steps: seq<ServiceStep>, n: nat,
                                       z: BR.System) returns (z': BR.System)
    requires IsServiceRun(states, steps) && n < |steps| && steps[n].Proceed?
    requires Fits(states[n], z) && Good(z)
    requires LaunchesIn(states[n], steps[n]) !! z.launched && MakesIn(states[n], steps[n]) !! z.threads.Keys
    ensures Takes(z, BrokerStepsOf(states[n], steps[n], states[n + 1]), z') && Fits(states[n + 1], z')
    ensures z'.launched == z.launched + LaunchesIn(states[n], steps[n])
    ensures z'.threads.Keys == z.threads.Keys + MakesIn(states[n], steps[n])
  {
    var s, id, s' := states[n], steps[n].id, states[n + 1];
    RunKeepsFine(states, steps, n);
    RunKeepsFine(states, steps, n + 1);
    var m, sent := ProceedShape(states, steps, n);
    ProceedIsDisciplined(s, id, s', m, sent);
    FlightFits(s, z, id);
    z' := FlightMakes(z, s.flights[id], m, sent);
    ProceedSteps(s, id, m);
    FlightMoves(s, id, m, z, z');
  }

  lemma ProceedSteps(s: State, id: TaskId, m: Moment)
    requires id in s.flights && m.used <= |s.flights[id].begun.inbox|
    ensures var f := s.flights[id];
            BrokerStepsOf(s, Proceed(id), Moved(s, id, m)) ==
            StepsOf(Last(f), m.at, m.broker, f.Req(), f.begun.inbox, f.world, f.begun.wire + Last(f).wire)
  {
  }

  lemma FlightMoves(s: State, id: TaskId, m: Moment, z: BR.System, z': BR.System)
    requires Fine(s) && id in s.lives && id in s.flights && Flies(id, s.lives[id], s.flights[id], s.broker)
    requires m.used <= |s.flights[id].begun.inbox|
    requires var f := s.flights[id];
             && Follows(Last(f), m, f.Req(), f.begun.inbox, f.world)
             && OwnFits(z', m, f.Req(), f.world, f.begun.wire + m.wire)
    requires Fits(s, z) && Framed(z, z', id) && z'.used == z.used
    ensures Fits(Moved(s, id, m), z')
  {
    FineHasOwnIds(s);
    ProceedMoves(s, id, Moved(s, id, m), m);
    if m.at.Over? {
      LandedHasStatus(id, s.lives[id], s.flights[id], s.broker, m);
    }
    MovedOwnFits(s, id, m, z');
    MovingFits(s, Moved(s, id, m), z, z', id);
  }
}
