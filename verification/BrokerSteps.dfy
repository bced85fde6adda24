/** What a step of an execution does to the broker and around it, as steps of the broker's interleaved system:
    a resolve begins a start, a launch and a made thread carry it on, a registration ends it. */
module BrokerSteps {
  import opened Wrappers
  import opened A2A
  import opened BrokerModel
  import opened ExecutorModel
  import opened ExecutorRuns
  import opened WireDiscipline
  import opened WireThreads
  import opened Stepwise
  import opened Interleaving
  import BR = BrokerSystem
  import BT = BrokerThreads

  /** Some steps of the broker, one after the other. */
  ghost predicate Takes(z: BR.System, steps: seq<BR.Step>, z': BR.System)
    decreases |steps|
  {
    if steps == [] then z' == z else BR.Enabled(z, steps[0]) && Takes(BR.Apply(z, steps[0]), steps[1..], z')
  }

  function Setting(b: Broker, id: TaskId): seq<BR.Step> {
    if id in b.tasks then [BR.SetRuntime(id, b.tasks[id])] else []
  }

  /** The prompt of the turn that runs, by the task's log. */
  function RunningPrompt(wire: seq<Wire>): string {
    var running := ProgressOf(wire).running;
    if running.Some? then running.value else ""
  }

  /** The broker's steps that a step of an execution from a moment makes, when it comes to `at` and leaves the broker
      `b`; `wire` is the log of its task so far. */
  function StepsOf(m: Moment, at: Point, b: Broker, req: Request, inbox: seq<Arrival>, world: World, wire: seq<Wire>)
    : seq<BR.Step>
  {
    var id := req.id;
    match m.at
    case Fresh => if at.Based? then [BR.Begin(id, req.contextId, req.references, world.order)] else []
    case Based(_) => [BR.Launch(id, world.client)]
    case Launched(_) => [BR.MakeThread(id, world.thread)]
    case Threaded(_) => [BR.Register(id)]
    case Sent => if world.turn == None then [BR.Discard(id)] else Setting(b, id)
    case Asking => if at.Erring? then [BR.Finish(id)] else []
    case Answered => Setting(b, id)
    case Looping =>
      if m.used >= |inbox| || id !in m.broker.tasks then []
      else if inbox[m.used].message == TurnEnded(TurnDone) then
        [BR.SetRuntime(id, Noticed(m.broker.tasks[id], inbox[m.used])), BR.CompleteTurn(id, RunningPrompt(wire))]
      else Setting(b, id)
    case Leaving(_) => [BR.Finish(id)]
    case Erring => [BR.Finish(id)]
    case _ => []
  }

  function BaseOf(base: Option<Session>): Option<BR.Base> {
    if base.Some? then Some(BR.Base(base.value.taskId, base.value.threadId)) else None
  }

  /** The start in flight of an execution that is starting its task, and none otherwise. */
  ghost predicate StartFits(z: BR.System, at: Point, req: Request, world: World) {
    match at
    case Based(base) => req.id in z.starts && z.starts[req.id] == BR.Resolved(req.contextId, BaseOf(base))
    case Launched(base) =>
      && req.id in z.starts && world.client.Some?
      && z.starts[req.id] == BR.Launched(req.contextId, BaseOf(base), world.client.value)
    case Threaded(base) =>
      && req.id in z.starts && world.client.Some? && world.thread.Some?
      && z.starts[req.id] == BR.Threaded(req.contextId, BaseOf(base), world.client.value, world.thread.value)
    case _ => req.id !in z.starts
  }

  /** The ledger has the thread and the completed prompts of the task's log. */
  ghost predicate LedgerFits(z: BR.System, id: TaskId, wire: seq<Wire>) {
    id in z.threadOf ==>
      && (exists parent :: ThreadMade(wire, parent, z.threadOf[id]))
      && id in z.completed && z.completed[id] == CompletedPrompts(wire)
  }

  /** Only what belongs to one task is different, apart from the broker. */
  ghost predicate Framed(z: BR.System, z': BR.System, id: TaskId) {
    && (forall t :: t != id ==> (t in z'.starts <==> t in z.starts) && (t in z.starts ==> z'.starts[t] == z.starts[t]))
    && (forall t :: t != id ==>
          (t in z'.threadOf <==> t in z.threadOf) && (t in z.threadOf ==> z'.threadOf[t] == z.threadOf[t]))
    && (forall t :: t != id ==>
          (t in z'.completed <==> t in z.completed) && (t in z.completed ==> z'.completed[t] == z.completed[t]))
  }

  ghost predicate SameLedger(z: BR.System, z': BR.System) {
    && z'.threadOf == z.threadOf && z'.completed == z.completed && z'.used == z.used
    && z'.launched == z.launched && z'.threads == z.threads
  }

  lemma {:induction false} OneStepTakes(z: BR.System, step: BR.Step)
    requires BR.Enabled(z, step)
    ensures Takes(z, [step], BR.Apply(z, step))
  {
    assert [step][1..] == [];
  }

  /** More on the wire, but nothing that counts. */
  lemma LedgerStaysFit(z: BR.System, z': BR.System, id: TaskId, wire: seq<Wire>, sent: seq<Wire>)
    requires LedgerFits(z, id, wire) && SameLedger(z, z') && |sent| <= 1
    requires sent != [] ==> sent[0] != Got(TurnEnded(TurnDone))
    ensures LedgerFits(z', id, wire + sent)
  {
    if sent != [] {
      assert wire + sent == wire + [sent[0]];
      ProgressOneMore(wire, sent[0]);
    } else {
      assert wire + sent == wire;
    }
    if id in z.threadOf {
      var parent :| ThreadMade(wire, parent, z.threadOf[id]);
      assert ThreadMade(wire + sent, parent, z.threadOf[id]);
    }
  }

  // ----- The steps of a start -----

  lemma {:induction false} BeginMakes(z: BR.System, req: Request, world: World) returns (z': BR.System)
    requires BR.Enabled(z, BR.Begin(req.id, req.contextId, req.references, world.order))
    requires Resolve(z.broker, req.contextId, req.references, world.order).Ok?
    ensures Takes(z, [BR.Begin(req.id, req.contextId, req.references, world.order)], z')
    ensures z'.broker == z.broker && z'.used == z.used + {req.id} && Framed(z, z', req.id)
    ensures SameLedger(z.(used := z'.used), z')
    ensures StartFits(z', Based(Resolve(z.broker, req.contextId, req.references, world.order).value), req, world)
  {
    var step := BR.Begin(req.id, req.contextId, req.references, world.order);
    z' := BR.Apply(z, step);
    OneStepTakes(z, step);
  }

  lemma {:induction false} BasedMakes(z: BR.System, m: Moment, req: Request, world: World) returns (z': BR.System)
    requires m.at.Based? && StartFits(z, m.at, req, world)
    requires world.client.Some? ==> world.client.value !in z.launched
    ensures Takes(z, [BR.Launch(req.id, world.client)], z')
    ensures z'.broker == z.broker && Framed(z, z', req.id) && SameLedger(z.(launched := z'.launched), z')
    ensures z'.launched == z.launched + if world.client.Some? then {world.client.value} else {}
    ensures StartFits(z', if world.client == None then Erring else Launched(m.at.base), req, world)
  {
    z' := BR.Apply(z, BR.Launch(req.id, world.client));
    OneStepTakes(z, BR.Launch(req.id, world.client));
  }

  lemma {:induction false} LaunchedMakes(z: BR.System, m: Moment, req: Request, world: World,
                                         wire: seq<Wire>) returns (z': BR.System)
    requires m.at.Launched? && StartFits(z, m.at, req, world) && req.id !in z.threadOf && wire == []
    requires world.thread.Some? ==> world.thread.value !in z.threads
    ensures Takes(z, [BR.MakeThread(req.id, world.thread)], z')
    ensures z'.broker == z.broker && Framed(z, z', req.id) && z'.used == z.used && z'.launched == z.launched
    ensures z'.threads.Keys == z.threads.Keys + if world.thread.Some? then {world.thread.value} else {}
    ensures StartFits(z', if world.thread == None then Erring else Threaded(m.at.base), req, world)
    ensures LedgerFits(z', req.id, wire + [ThreadRequest(m.at.base, world.thread)])
  {
    z' := BR.Apply(z, BR.MakeThread(req.id, world.thread));
    OneStepTakes(z, BR.MakeThread(req.id, world.thread));
    var request := ThreadRequest(m.at.base, world.thread);
    ProgressOneMore(wire, request);
    if world.thread.Some? {
      assert ThreadMade(wire + [request], request.parent, world.thread.value);
    }
  }

  lemma {:induction false} ThreadedMakes(z: BR.System, m: Moment, req: Request, world: World) returns (z': BR.System)
    requires m.at.Threaded? && StartFits(z, m.at, req, world)
    ensures Takes(z, [BR.Register(req.id)], z')
    ensures world.thread.Some? && z'.broker == Registered(z.broker, SessionFor(req, world, m.at.base))
    ensures Framed(z, z', req.id) && SameLedger(z, z') && StartFits(z', Bound, req, world)
  {
    z' := BR.Apply(z, BR.Register(req.id));
    OneStepTakes(z, BR.Register(req.id));
  }

  lemma {:induction false} TakesMore(z: BR.System, steps: seq<BR.Step>, z': BR.System, more: seq<BR.Step>,
                                     z'': BR.System)
    requires Takes(z, steps, z') && Takes(z', more, z'')
    ensures Takes(z, steps + more, z'')
    decreases |steps|
  {
    if steps == [] {
      assert steps + more == more;
    } else {
      assert (steps + more)[1..] == steps[1..] + more;
      TakesMore(BR.Apply(z, steps[0]), steps[1..], z', more, z'');
    }
  }

  /** A start in one piece is the four steps of a start, with nothing of other tasks in between. */
  lemma {:induction false} StartTaskIsSteps(z: BR.System, req: Request, world: World) returns (z': BR.System)
    requires BR.Enabled(z, BR.Begin(req.id, req.contextId, req.references, world.order)) && BT.ThreadsOk(z)
    requires req.id !in z.threadOf && StartTask(z.broker, req, world).ok
    requires world.client.Some? ==> world.client.value !in z.launched
    requires world.thread.Some? ==> world.thread.value !in z.threads
    ensures Takes(z, [BR.Begin(req.id, req.contextId, req.references, world.order)] + [BR.Launch(req.id, world.client)]
                     + [BR.MakeThread(req.id, world.thread)] + [BR.Register(req.id)], z')
    ensures z'.broker == StartTask(z.broker, req, world).broker
  {
    var base := Resolve(z.broker, req.contextId, req.references, world.order).value;
    var begin, launch := BR.Begin(req.id, req.contextId, req.references, world.order), BR.Launch(req.id, world.client);
    var z1 := BeginMakes(z, req, world);
    var z2 := BasedMakes(z1, Begin(z.broker).(at := Based(base)), req, world);
    var z3 := LaunchedMakes(z2, Begin(z.broker).(at := Launched(base)), req, world, []);
    z' := ThreadedMakes(z3, Begin(z.broker).(at := Threaded(base)), req, world);
    TakesMore(z, [begin], z1, [launch], z2);
    TakesMore(z, [begin] + [launch], z2, [BR.MakeThread(req.id, world.thread)], z3);
    TakesMore(z, [begin] + [launch] + [BR.MakeThread(req.id, world.thread)], z3, [BR.Register(req.id)], z');
  }

  // ----- The steps of a task that is started -----

  lemma {:induction false} SettingMakes(z: BR.System, id: TaskId, runtime: Runtime) returns (z': BR.System)
    requires id in z.broker.tasks && runtime.taskId == id && runtime.contextId == z.broker.tasks[id].contextId
    ensures Takes(z, Setting(WithTask(z.broker, id, runtime), id), z')
    ensures BR.Enabled(z, BR.SetRuntime(id, runtime)) && z' == BR.Apply(z, BR.SetRuntime(id, runtime))
    ensures z'.broker == WithTask(z.broker, id, runtime)
    ensures Framed(z, z', id) && SameLedger(z, z') && z'.starts == z.starts
  {
    z' := BR.Apply(z, BR.SetRuntime(id, runtime));
    OneStepTakes(z, BR.SetRuntime(id, runtime));
  }

  lemma {:induction false} DroppingMakes(z: BR.System, id: TaskId, preserve: bool) returns (z': BR.System)
    ensures Takes(z, [if preserve then BR.Finish(id) else BR.Discard(id)], z')
    ensures z'.broker == Finished(z.broker, id, preserve)
    ensures Framed(z, z', id) && SameLedger(z, z') && z'.starts == z.starts
  {
    var step := if preserve then BR.Finish(id) else BR.Discard(id);
    z' := BR.Apply(z, step);
    OneStepTakes(z, step);
  }

  /** A task's thread is in the ledger and Codex has it. */
  ghost predicate CanComplete(z: BR.System, id: TaskId) {
    && SessionOf(z.broker, id).Some? && SessionOf(z.broker, id).value.threadId in z.threads
    && id in z.threadOf && id in z.completed
  }

  lemma TasksCanComplete(z: BR.System, id: TaskId)
    requires BR.Inv(z) && BT.ThreadsOk(z) && id in z.broker.tasks
    ensures CanComplete(z, id)
  {
    assert BR.TaskOk(z, id);
    BT.CompletedIsOwn(z, id);
    assert BT.EntryOk(z, id);
  }

  /** Codex completes a turn: its prompt is on the thread from now on. */
  lemma {:induction false} CompleteMakes(z: BR.System, id: TaskId, wire: seq<Wire>) returns (z': BR.System)
    requires CanComplete(z, id) && LedgerFits(z, id, wire) && ProgressOf(wire).running.Some?
    ensures BR.Enabled(z, BR.CompleteTurn(id, RunningPrompt(wire)))
    ensures z' == BR.Apply(z, BR.CompleteTurn(id, RunningPrompt(wire)))
    ensures z'.broker == WithTask(z.broker, id, z.broker.tasks[id].(pending := None, turnActive := false))
    ensures Framed(z, z', id) && z'.starts == z.starts && z'.used == z.used && z'.launched == z.launched
    ensures z'.threads.Keys == z.threads.Keys
    ensures LedgerFits(z', id, wire + [Got(TurnEnded(TurnDone))])
  {
    z' := BR.Apply(z, BR.CompleteTurn(id, RunningPrompt(wire)));
    ProgressOneMore(wire, Got(TurnEnded(TurnDone)));
    var parent :| ThreadMade(wire, parent, z.threadOf[id]);
    assert ThreadMade(wire + [Got(TurnEnded(TurnDone))], parent, z.threadOf[id]);
  }

  lemma {:induction false} TwoTake(z: BR.System, first: BR.Step, last: BR.Step)
    requires BR.Enabled(z, first) && BR.Enabled(BR.Apply(z, first), last)
    ensures Takes(z, [first, last], BR.Apply(BR.Apply(z, first), last))
  {
    assert [first, last][1..] == [last];
    OneStepTakes(BR.Apply(z, first), last);
  }

  lemma {:induction false} DoneMakes(z: BR.System, id: TaskId, now: Runtime, wire: seq<Wire>) returns (z': BR.System)
    requires CanComplete(z, id) && LedgerFits(z, id, wire)
    requires now.taskId == id && now.contextId == z.broker.tasks[id].contextId
    requires ProgressOf(wire).running.Some?
    ensures Takes(z, [BR.SetRuntime(id, now), BR.CompleteTurn(id, RunningPrompt(wire))], z')
    ensures z'.broker == WithTask(z.broker, id, now.(pending := None, turnActive := false))
    ensures Framed(z, z', id) && z'.starts == z.starts && z'.used == z.used && z'.launched == z.launched
    ensures z'.threads.Keys == z.threads.Keys
    ensures LedgerFits(z', id, wire + [Got(TurnEnded(TurnDone))])
  {
    var z1 := SettingMakes(z, id, now);
    z' := CompleteMakes(z1, id, wire);
    TwoTake(z, BR.SetRuntime(id, now), BR.CompleteTurn(id, RunningPrompt(wire)));
  }

  // ----- A step of an execution -----

  ghost predicate OwnFits(z: BR.System, m: Moment, req: Request, world: World, wire: seq<Wire>) {
    z.broker == m.broker && StartFits(z, m.at, req, world) && LedgerFits(z, req.id, wire)
  }

  /** The client a step launches, and the thread it has made. */
  function LaunchedAt(at: Point, world: World): set<ClientId> {
    if at.Based? && world.client.Some? then {world.client.value} else {}
  }

  function MadeAt(at: Point, world: World): set<ThreadId> {
    if at.Launched? && world.thread.Some? then {world.thread.value} else {}
  }

  /** The broker's steps are those of the execution's, and what belongs to the task fits again. */
  ghost predicate Makes(
    z: BR.System, z': BR.System, m: Moment, m': Moment, req: Request, inbox: seq<Arrival>, world: World,
    wire: seq<Wire>, sent: seq<Wire>)
  {
    && Takes(z, StepsOf(m, m'.at, m'.broker, req, inbox, world, wire), z') && Framed(z, z', req.id)
    && OwnFits(z', m', req, world, wire + sent)
    && z'.used == z.used && z'.launched == z.launched + LaunchedAt(m.at, world)
    && z'.threads.Keys == z.threads.Keys + MadeAt(m.at, world)
  }

  /** New clients and new threads are new. */
  ghost predicate FreshAt(z: BR.System, at: Point, world: World) {
    LaunchedAt(at, world) !! z.launched && MadeAt(at, world) !! z.threads.Keys
  }

  lemma NotThreadedYet(z: BR.System, m: Moment, req: Request, world: World)
    requires BT.ThreadsOk(z) && StartFits(z, m.at, req, world) && (m.at.Based? || m.at.Launched?)
    ensures req.id !in z.threadOf
  {
    assert BT.StartThreaded(z, req.id);
  }

  lemma LaunchMakes(
    z: BR.System, m: Moment, m': Moment, req: Request, inbox: seq<Arrival>, world: World, wire: seq<Wire>,
    sent: seq<Wire>)
    returns (z': BR.System)
    requires Sound(m, req, inbox, world) && m.at.Based? && m' == Next(m, req, inbox, world) && m'.wire == m.wire + sent
    requires OwnFits(z, m, req, world, wire) && BT.ThreadsOk(z) && FreshAt(z, m.at, world)
    ensures Makes(z, z', m, m', req, inbox, world, wire, sent)
  {
    assert sent == [];
    z' := BasedMakes(z, m, req, world);
    LedgerStaysFit(z, z'.(launched := z.launched), req.id, wire, sent);
  }

  lemma MakeThreadMakes(
    z: BR.System, m: Moment, m': Moment, req: Request, inbox: seq<Arrival>, world: World, wire: seq<Wire>,
    sent: seq<Wire>)
    returns (z': BR.System)
    requires Sound(m, req, inbox, world) && m.at.Launched? && wire == [] && m' == Next(m, req, inbox, world) &&
        m'.wire == m.wire + sent
    requires OwnFits(z, m, req, world, wire) && BT.ThreadsOk(z) && FreshAt(z, m.at, world)
    ensures Makes(z, z', m, m', req, inbox, world, wire, sent)
  {
    SameTail(m.wire, sent, [ThreadRequest(m.at.base, world.thread)]);
    NotThreadedYet(z, m, req, world);
    z' := LaunchedMakes(z, m, req, world, wire);
  }

  lemma RegisterMakes(
    z: BR.System, m: Moment, m': Moment, req: Request, inbox: seq<Arrival>, world: World, wire: seq<Wire>,
    sent: seq<Wire>)
    returns (z': BR.System)
    requires Sound(m, req, inbox, world) && m.at.Threaded? && m' == Next(m, req, inbox, world) &&
        m'.wire == m.wire + sent
    requires OwnFits(z, m, req, world, wire) && BT.ThreadsOk(z) && FreshAt(z, m.at, world)
    ensures Makes(z, z', m, m', req, inbox, world, wire, sent)
  {
    assert sent == [];
    z' := ThreadedMakes(z, m, req, world);
    LedgerStaysFit(z, z', req.id, wire, sent);
  }

  lemma SettledMakes(
    z: BR.System, m: Moment, m': Moment, req: Request, inbox: seq<Arrival>, world: World, wire: seq<Wire>,
    sent: seq<Wire>, runtime: Runtime)
    returns (z': BR.System)
    requires OwnFits(z, m, req, world, wire) && |sent| <= 1 && (sent != [] ==> sent[0] != Got(TurnEnded(TurnDone)))
    requires !m.at.Based? && !m.at.Launched? && !m.at.Threaded? && !m'.at.Based? && !m'.at.Launched? && !m'.at.Threaded?
    requires req.id in m.broker.tasks && m'.broker == WithTask(m.broker, req.id, runtime)
    requires runtime.taskId == req.id && runtime.contextId == m.broker.tasks[req.id].contextId
    requires StepsOf(m, m'.at, m'.broker, req, inbox, world, wire) == Setting(m'.broker, req.id)
    ensures Makes(z, z', m, m', req, inbox, world, wire, sent)
  {
    z' := SettingMakes(z, req.id, runtime);
    LedgerStaysFit(z, z', req.id, wire, sent);
  }

  lemma DroppedMakes(
    z: BR.System, m: Moment, m': Moment, req: Request, inbox: seq<Arrival>, world: World, wire: seq<Wire>,
    preserve: bool)
    returns (z': BR.System)
    requires OwnFits(z, m, req, world, wire)
    requires !m.at.Based? && !m.at.Launched? && !m.at.Threaded? && !m'.at.Based? && !m'.at.Launched? && !m'.at.Threaded?
    requires m'.broker == Finished(m.broker, req.id, preserve)
    requires StepsOf(m, m'.at, m'.broker, req, inbox, world, wire)
        == [if preserve then BR.Finish(req.id) else BR.Discard(req.id)]
    ensures Makes(z, z', m, m', req, inbox, world, wire, [])
  {
    z' := DroppingMakes(z, req.id, preserve);
    LedgerStaysFit(z, z', req.id, wire, []);
  }

  lemma NothingMakes(
    z: BR.System, m: Moment, m': Moment, req: Request, inbox: seq<Arrival>, world: World, wire: seq<Wire>,
    sent: seq<Wire>)
    requires OwnFits(z, m, req, world, wire) && |sent| <= 1 && (sent != [] ==> sent[0] != Got(TurnEnded(TurnDone)))
    requires !m.at.Based? && !m.at.Launched? && !m.at.Threaded? && !m'.at.Based? && !m'.at.Launched? && !m'.at.Threaded?
    requires m'.broker == m.broker && StepsOf(m, m'.at, m'.broker, req, inbox, world, wire) == []
    ensures Makes(z, z, m, m', req, inbox, world, wire, sent)
  {
    LedgerStaysFit(z, z, req.id, wire, sent);
  }

  /** What a step in the loop does to the runtime. */
  lemma LoopingSets(m: Moment, req: Request, inbox: seq<Arrival>, world: World) returns (runtime: Runtime)
    requires Sound(m, req, inbox, world) && m.at.Looping? && m.used < |inbox|
    ensures var m' := FromLooping(m, req, inbox);
            && m'.broker == WithTask(m.broker, req.id, runtime) && m'.wire == m.wire + [Got(inbox[m.used].message)]
            && !m'.at.Based? && !m'.at.Launched? && !m'.at.Threaded?
            && (inbox[m.used].message == TurnEnded(TurnDone) ==>
                  runtime == Noticed(m.broker.tasks[req.id], inbox[m.used]).(pending := None, turnActive := false))
    ensures runtime.taskId == req.id && runtime.contextId == m.broker.tasks[req.id].contextId
  {
    LoopingStaysSound(m, req, inbox, world);
    runtime := FromLooping(m, req, inbox).broker.tasks[req.id];
  }

  /** The client fails: nothing is left to read. */
  lemma LastMessageMakes(
    z: BR.System, m: Moment, m': Moment, req: Request, inbox: seq<Arrival>, world: World, wire: seq<Wire>,
    sent: seq<Wire>)
    requires Sound(m, req, inbox, world) && m.at.Looping? && m.used == |inbox|
    requires m' == FromLooping(m, req, inbox) && m'.wire == m.wire + sent && OwnFits(z, m, req, world, wire)
    ensures Makes(z, z, m, m', req, inbox, world, wire, sent)
  {
    SameTail(m.wire, sent, []);
    NothingMakes(z, m, m', req, inbox, world, wire, sent);
  }

  lemma SameTail(a: seq<Wire>, b: seq<Wire>, c: seq<Wire>)
    requires a + b == a + c || (c == [] && a + b == a)
    ensures b == c
  {
    assert b == (a + b)[|a|..];
    assert c == (a + c)[|a|..];
  }

  lemma {:induction false} MessageMakes(
    z: BR.System, m: Moment, m': Moment, req: Request, inbox: seq<Arrival>, world: World, wire: seq<Wire>,
    runtime: Runtime)
    returns (z': BR.System)
    requires m.at.Looping? && m.used < |inbox| && req.id in m.broker.tasks
    requires m'.broker == WithTask(m.broker, req.id, runtime) && !m'.at.Based? && !m'.at.Launched? && !m'.at.Threaded?
    requires runtime.taskId == req.id && runtime.contextId == m.broker.tasks[req.id].contextId
    requires inbox[m.used].message == TurnEnded(TurnDone) ==>
               runtime == Noticed(m.broker.tasks[req.id], inbox[m.used]).(pending := None, turnActive := false)
    requires Track(New, wire + [Got(inbox[m.used].message)]).Some?
    requires OwnFits(z, m, req, world, wire) && CanComplete(z, req.id)
    ensures Makes(z, z', m, m', req, inbox, world, wire, [Got(inbox[m.used].message)])
  {
    var message := inbox[m.used].message;
    if message == TurnEnded(TurnDone) {
      DisciplineTells(wire, Got(message));
      z' := DoneMessageMakes(z, m, m', req, inbox, world, wire, runtime);
    } else {
      z' := SettledMakes(z, m, m', req, inbox, world, wire, [Got(message)], runtime);
    }
  }

  lemma {:induction false} LoopingMakes(
    z: BR.System, m: Moment, m': Moment, req: Request, inbox: seq<Arrival>, world: World, wire: seq<Wire>,
    sent: seq<Wire>)
    returns (z': BR.System)
    requires Sound(m, req, inbox, world) && m.at.Looping?
    requires m' == FromLooping(m, req, inbox) && m'.wire == m.wire + sent && Track(New, wire + sent).Some?
    requires OwnFits(z, m, req, world, wire) && CanComplete(z, req.id)
    ensures Makes(z, z', m, m', req, inbox, world, wire, sent)
  {
    if m.used == |inbox| {
      z' := z;
      LastMessageMakes(z, m, m', req, inbox, world, wire, sent);
    } else {
      var runtime := LoopingSets(m, req, inbox, world);
      SameTail(m.wire, sent, [Got(inbox[m.used].message)]);
      z' := MessageMakes(z, m, m', req, inbox, world, wire, runtime);
    }
  }

  lemma {:induction false} DoneMessageMakes(
    z: BR.System, m: Moment, m': Moment, req: Request, inbox: seq<Arrival>, world: World, wire: seq<Wire>,
    runtime: Runtime)
    returns (z': BR.System)
    requires m.at.Looping? && m.used < |inbox| && inbox[m.used].message == TurnEnded(TurnDone)
    requires req.id in m.broker.tasks && runtime.taskId == req.id &&
        runtime.contextId == m.broker.tasks[req.id].contextId
    requires runtime == Noticed(m.broker.tasks[req.id], inbox[m.used]).(pending := None, turnActive := false)
    requires m'.broker == WithTask(m.broker, req.id, runtime)
    requires !m'.at.Based? && !m'.at.Launched? && !m'.at.Threaded?
    requires OwnFits(z, m, req, world, wire) && CanComplete(z, req.id) && ProgressOf(wire).running.Some?
    ensures Makes(z, z', m, m', req, inbox, world, wire, [Got(TurnEnded(TurnDone))])
  {
    z' := DoneMakes(z, req.id, Noticed(m.broker.tasks[req.id], inbox[m.used]), wire);
  }

  /** A step of an execution is some steps of the broker. */
  lemma {:induction false} MomentMakes(
    z: BR.System, m: Moment, m': Moment, req: Request, inbox: seq<Arrival>, world: World, wire: seq<Wire>,
    sent: seq<Wire>)
    returns (z': BR.System)
    requires Sound(m, req, inbox, world) && !m.at.Fresh? && !m.at.Over? && m' == Next(m, req, inbox, world)
    requires m'.wire == m.wire + sent && Track(New, wire + sent).Some?
    requires OwnFits(z, m, req, world, wire) && BR.Inv(z) && BT.ThreadsOk(z) && FreshAt(z, m.at, world)
    ensures Makes(z, z', m, m', req, inbox, world, wire, sent)
  {
    match m.at
    case Based(_) => z' := LaunchMakes(z, m, m', req, inbox, world, wire, sent);
    case Launched(base) =>
      SameTail(m.wire, sent, [ThreadRequest(base, world.thread)]);
      DisciplineTells(wire, sent[0]);
      z' := MakeThreadMakes(z, m, m', req, inbox, world, wire, sent);
    case Threaded(_) => z' := RegisterMakes(z, m, m', req, inbox, world, wire, sent);
    case Sent => z' := TurnMakes(z, m, m', req, inbox, world, wire, sent);
    case Answered => z' := TurnMakes(z, m, m', req, inbox, world, wire, sent);
    case Looping =>
      TasksCanComplete(z, req.id);
      z' := LoopingMakes(z, m, m', req, inbox, world, wire, sent);
    case Asking => z' := AskingMakes(z, m, m', req, inbox, world, wire, sent);
    case Bound => z' := TurnMakes(z, m, m', req, inbox, world, wire, sent);
    case Leaving(_) => z' := LeavingMakes(z, m, m', req, inbox, world, wire, sent);
    case Erring => z' := LeavingMakes(z, m, m', req, inbox, world, wire, sent);
  }

  lemma TurnMakes(
    z: BR.System, m: Moment, m': Moment, req: Request, inbox: seq<Arrival>, world: World, wire: seq<Wire>,
    sent: seq<Wire>)
    returns (z': BR.System)
    requires Sound(m, req, inbox, world) && (m.at.Bound? || m.at.Sent? || m.at.Answered?)
    requires m' == Next(m, req, inbox, world) && m'.wire == m.wire + sent && OwnFits(z, m, req, world, wire)
    ensures Makes(z, z', m, m', req, inbox, world, wire, sent)
  {
    if m.at.Bound? {
      assert sent == [m'.wire[|m.wire|]];
      z' := z;
      NothingMakes(z, m, m', req, inbox, world, wire, sent);
    } else {
      SameTail(m.wire, sent, []);
      if m.at.Sent? && world.turn == None {
        z' := DroppedMakes(z, m, m', req, inbox, world, wire, false);
      } else {
        z' := SettledMakes(z, m, m', req, inbox, world, wire, sent, m'.broker.tasks[req.id]);
      }
    }
  }

  lemma LeavingMakes(
    z: BR.System, m: Moment, m': Moment, req: Request, inbox: seq<Arrival>, world: World, wire: seq<Wire>,
    sent: seq<Wire>)
    returns (z': BR.System)
    requires Sound(m, req, inbox, world) && (m.at.Leaving? || m.at.Erring?) && m' == Next(m, req, inbox, world)
    requires m'.wire == m.wire + sent && OwnFits(z, m, req, world, wire)
    ensures Makes(z, z', m, m', req, inbox, world, wire, sent)
  {
    assert sent == [];
    z' := DroppedMakes(z, m, m', req, inbox, world, wire, true);
  }

  lemma AskingMakes(
    z: BR.System, m: Moment, m': Moment, req: Request, inbox: seq<Arrival>, world: World, wire: seq<Wire>,
    sent: seq<Wire>)
    returns (z': BR.System)
    requires Sound(m, req, inbox, world) && m.at.Asking? && m' == FromAsking(m, req, world) && m'.wire == m.wire + sent
    requires OwnFits(z, m, req, world, wire)
    ensures Makes(z, z', m, m', req, inbox, world, wire, sent)
  {
    assert |sent| <= 1 && (sent != [] ==> sent[0] == m'.wire[|m.wire|]);
    if m'.at.Erring? {
      z' := DroppedMakes(z, m, m', req, inbox, world, wire, true);
    } else {
      z' := z;
      NothingMakes(z, m, m', req, inbox, world, wire, sent);
    }
  }
}
