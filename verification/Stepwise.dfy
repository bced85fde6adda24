/** An execution one critical section at a time, and why neither its own steps nor the work of other
    tasks change what it comes to. */
module Stepwise {
  // A moment is the broker and what the execution has done by then; that and what it still has to do come to
  // the execution in one piece.

  import opened Wrappers
  import opened A2A
  import opened BrokerModel
  import opened ExecutorModel
  import opened Artifacts
  import opened TaskLife

  /** Where an execution is: not begun, resolved to a base, with a launched client, with the thread Codex
      made, with its runtime, with the turn/start sent, about to answer a pending request, with the answer
      sent, in the loop, out of the loop, with an error to report, or over. */
  datatype Point =
    | Fresh
    | Based(base: Option<Session>)
    | Launched(base: Option<Session>)
    | Threaded(base: Option<Session>)
    | Bound
    | Sent
    | Asking
    | Answered
    | Looping
    | Leaving(ok: bool)
    | Erring
    | Over

  /** The broker at a moment of an execution, and what the execution has done by then. */
  datatype Moment = Moment(
    broker: Broker, at: Point, used: nat, events: seq<Event>, wire: seq<Wire>, closed: seq<ClientId>)

  function Begin(b: Broker): Moment {
    Moment(b, Fresh, 0, [], [], [])
  }

  /** What the steps rely on: a task that has its runtime has its session in the request's context. */
  ghost predicate Sound(m: Moment, req: Request, inbox: seq<Arrival>, world: World) {
    && m.used <= |inbox|
    && (req.id in m.broker.tasks ==> HasRuntime(m.broker, req))
    && match m.at
       case Fresh => Ready(m.broker, req, world) && m == Begin(m.broker)
       case Based(_) => Starting(m, req)
       case Launched(_) => Starting(m, req) && world.client.Some?
       case Threaded(_) => Starting(m, req) && world.client.Some? && world.thread.Some?
       case Bound => req.id in m.broker.tasks && m.used == 0 && req.message.prompt.Some?
       case Sent => req.id in m.broker.tasks && m.used == 0
       case Asking => req.id in m.broker.tasks && m.broker.tasks[req.id].pending.Some? && m.used == 0
       case Answered => req.id in m.broker.tasks && m.used == 0
       case Looping => req.id in m.broker.tasks
       case _ => true
  }

  ghost predicate Starting(m: Moment, req: Request) {
    req.id !in m.broker.tasks && m.used == 0 && req.message.prompt.Some? && req.stored == None
  }

  ghost predicate HasRuntime(b: Broker, req: Request)
    requires req.id in b.tasks
  {
    && b.tasks[req.id].contextId == req.contextId && b.tasks[req.id].taskId == req.id
    && req.id in ContextOf(b, req.contextId)
  }

  /** The task is finished, or discarded, and its client closed. */
  function Dropping(m: Moment, id: TaskId, preserve: bool): Moment {
    m.(broker := Finished(m.broker, id, preserve), closed := m.closed + Handed(ClientOf(m.broker, id)))
  }

  function Emitting(m: Moment, events: seq<Event>): Moment {
    m.(events := m.events + events)
  }

  // ----- The steps -----

  /** The first step: `executeStream` and `execute` up to the resolve, or the runtime's lookup. */
  function FromFresh(m: Moment, req: Request, world: World): Moment
    requires Ready(m.broker, req, world)
  {
    var m' := Emitting(m, Opening(req));
    match req.stored
    case None =>
      if req.message.prompt == None then m'.(at := Erring)
      else
        (match Resolve(m.broker, req.contextId, req.references, world.order)
         case Err(_) => m'.(at := Erring)
         case Ok(base) => m'.(at := Based(base)))
    case Some(state) =>
      if state != InputRequired || req.id !in m.broker.tasks then m'.(at := Erring)
      else if m.broker.tasks[req.id].pending.Some? then m'.(at := Asking)
      else if req.message.prompt == None then m'.(at := Erring)
      else m'.(at := Bound)
  }

  /** What is done when Codex answers the request for a thread. */
  function FromLaunched(m: Moment, world: World): Moment
    requires m.at.Launched? && world.client.Some?
  {
    var m' := m.(wire := m.wire + [ThreadRequest(m.at.base, world.thread)]);
    if world.thread == None then m'.(at := Erring, closed := m.closed + [world.client.value])
    else m'.(at := Threaded(m.at.base))
  }

  /** What is done when `turn/start` is answered. */
  function FromSent(m: Moment, req: Request, world: World): Moment
    requires req.id in m.broker.tasks
  {
    if world.turn == None then Dropping(m, req.id, false).(at := Erring)
    else Emitting(m, [Status(Working, None)]).(at := Looping, broker := Turning(m.broker, req.id, world.turn.value))
  }

  /** The reply to a pending request. */
  function FromAsking(m: Moment, req: Request, world: World): Moment
    requires req.id in m.broker.tasks && m.broker.tasks[req.id].pending.Some?
  {
    var pending := m.broker.tasks[req.id].pending.value;
    match ResponseForPending(req.message, pending.kind)
    case None => Emitting(m, Asked(m.broker, pending).events).(at := Over)
    case Some(answer) =>
      if !world.responds then Dropping(m, req.id, true).(at := Erring)
      else m.(at := Answered, wire := m.wire + [SentResponse(pending.id, answer)])
  }

  /** One message, or the failure of the client when none is left. */
  function FromLooping(m: Moment, req: Request, inbox: seq<Arrival>): Moment
    requires req.id in m.broker.tasks && m.used <= |inbox|
  {
    if m.used == |inbox| then m.(at := Leaving(false))
    else
      var now, message := Noticed(m.broker.tasks[req.id], inbox[m.used]), inbox[m.used].message;
      var m' := m.(used := m.used + 1, wire := m.wire + [Got(message)], broker := WithTask(m.broker, req.id, now));
      if message.ServerRequest? then
        match HandleServerRequest(message)
        case None => m'.(at := Leaving(false))
        case Some(pending) =>
          Emitting(m', [PendingArtifact(pending, ""), InputRequiredStatus(pending)])
            .(at := Over, broker := WithTask(m.broker, req.id, now.(pending := Some(pending))))
      else
        match HandleNotification(now, message)
        case None => m'.(at := Leaving(false))
        case Some(handled) =>
          Emitting(m', handled.events)
            .(broker := WithTask(m.broker, req.id, handled.runtime),
              at := match handled.outcome case Continue => Looping case Pause => Over case Finish => Leaving(true))
  }

  ghost function Next(m: Moment, req: Request, inbox: seq<Arrival>, world: World): Moment
    requires Sound(m, req, inbox, world) && !m.at.Over?
  {
    match m.at
    case Fresh => FromFresh(m, req, world)
    case Based(base) => m.(at := if world.client == None then Erring else Launched(base))
    case Launched(_) => FromLaunched(m, world)
    case Threaded(base) => m.(at := Bound, broker := Registered(m.broker, SessionFor(req, world, base)))
    case Bound =>
      var thread := ContextOf(m.broker, req.contextId)[req.id].threadId;
      m.(at := Sent, wire := m.wire + [SentTurnStart(thread, req.message.prompt.value, world.turn.Some?)])
    case Sent => FromSent(m, req, world)
    case Asking => FromAsking(m, req, world)
    case Answered =>
      Emitting(m, [Status(Working, None)]).(at := Looping, broker := Resumed(m.broker, req.id))
    case Looping => FromLooping(m, req, inbox)
    case Leaving(ok) => Dropping(m, req.id, true).(at := if ok then Over else Erring)
    case Erring => Emitting(Dropping(m, req.id, true), [Status(Failed, None)]).(at := Over)
  }

  // ----- The rest of an execution, in one piece -----

  /** What `executeStream` does when `execute` returns. */
  function Closing(req: Request, x: Execution): Execution {
    if x.ok then x
    else x.(broker := Finished(x.broker, req.id, true), events := x.events + [Status(Failed, None)],
            closed := x.closed + Handed(ClientOf(x.broker, req.id)))
  }

  function AfterThread(b: Broker, req: Request, inbox: seq<Arrival>, world: World, base: Option<Session>): Execution
    requires world.thread.Some? && req.message.prompt.Some?
  {
    StartNewTurn(Registered(b, SessionFor(req, world, base)), req.id, req.message.prompt.value, inbox, world)
  }

  function AfterLaunch(b: Broker, req: Request, inbox: seq<Arrival>, world: World, base: Option<Session>): Execution
    requires world.client.Some? && req.message.prompt.Some?
  {
    var sent := [ThreadRequest(base, world.thread)];
    if world.thread == None then Fails(b, sent, [world.client.value])
    else Then([], sent, AfterThread(b, req, inbox, world, base))
  }

  /** What `execute` still does, with nothing of other tasks in between. */
  ghost function Rest(m: Moment, req: Request, inbox: seq<Arrival>, world: World): Execution
    requires Sound(m, req, inbox, world)
  {
    var b, id := m.broker, req.id;
    match m.at
    case Fresh => Then(Opening(req), [], Execute(b, req, inbox, world))
    case Based(base) => if world.client == None then Fails(b, [], []) else AfterLaunch(b, req, inbox, world, base)
    case Launched(base) => AfterLaunch(b, req, inbox, world, base)
    case Threaded(base) => AfterThread(b, req, inbox, world, base)
    case Bound => StartNewTurn(b, id, req.message.prompt.value, inbox, world)
    case Sent =>
      if world.turn == None then Aborted(b, id, false, [])
      else Then([Status(Working, None)], [], ConsumeTurn(Turning(b, id, world.turn.value), id, inbox))
    case Asking => ResumeInputRequired(b, id, inbox, req.message, world)
    case Answered => Then([Status(Working, None)], [], ConsumeTurn(Resumed(b, id), id, inbox))
    case Looping => ConsumeTurn(b, id, inbox[m.used..])
    case Leaving(ok) => Execution(Finished(b, id, true), 0, [], [], Handed(ClientOf(b, id)), ok)
    case Erring => Fails(b, [], [])
    case Over => Execution(b, 0, [], [], [], true)
  }

  /** What is done by now and what is still to be done, together. */
  function Joined(m: Moment, x: Execution): Execution {
    Execution(x.broker, m.used + x.used, m.events + x.events, m.wire + x.wire, m.closed + x.closed, true)
  }

  ghost function Total(m: Moment, req: Request, inbox: seq<Arrival>, world: World): Execution
    requires Sound(m, req, inbox, world)
  {
    Joined(m, Closing(req, Rest(m, req, inbox, world)))
  }

  // ----- A step does not change the total -----

  /** Work that moves from what is still to be done to what is done. */
  lemma Shift(
    req: Request, m: Moment, m': Moment, x: Execution, y: Execution,
    used: nat, events: seq<Event>, wire: seq<Wire>, closed: seq<ClientId>)
    requires m'.used == m.used + used && m'.events == m.events + events
    requires m'.wire == m.wire + wire && m'.closed == m.closed + closed
    requires x == Execution(y.broker, used + y.used, events + y.events, wire + y.wire, closed + y.closed, y.ok)
    ensures Joined(m', Closing(req, y)) == Joined(m, Closing(req, x))
  {
    var xc, yc := Closing(req, x), Closing(req, y);
    assert xc.events == events + yc.events && xc.closed == closed + yc.closed;
    assert m.events + events + yc.events == m.events + (events + yc.events);
    assert m.wire + wire + yc.wire == m.wire + (wire + yc.wire);
    assert m.closed + closed + yc.closed == m.closed + (closed + yc.closed);
  }

  /** The next moment is sound, and the total is the same. */
  ghost predicate Advances(m: Moment, m': Moment, req: Request, inbox: seq<Arrival>, world: World)
    requires Sound(m, req, inbox, world)
  {
    Sound(m', req, inbox, world) && Total(m', req, inbox, world) == Total(m, req, inbox, world)
  }

  /** `execute` is what is left after the first step of a new task. */
  lemma NewIsRest(m: Moment, req: Request, inbox: seq<Arrival>, world: World)
    requires Sound(m, req, inbox, world) && m.at.Fresh? && req.stored == None && req.id !in m.broker.tasks
    ensures var m' := FromFresh(m, req, world);
            Sound(m', req, inbox, world) && Rest(m', req, inbox, world) == Execute(m.broker, req, inbox, world)
  {
  }

  lemma StoredIsRest(m: Moment, req: Request, inbox: seq<Arrival>, world: World)
    requires Sound(m, req, inbox, world) && m.at.Fresh? && req.stored.Some?
    ensures var m' := FromFresh(m, req, world);
            Sound(m', req, inbox, world) && Rest(m', req, inbox, world) == Execute(m.broker, req, inbox, world)
  {
  }

  /** The first step only announces a new task. */
  lemma FirstAnnounces(m: Moment, req: Request, world: World)
    requires Ready(m.broker, req, world) && m == Begin(m.broker)
    ensures var m' := FromFresh(m, req, world);
            && m'.used == 0 && m'.events == Opening(req) && m'.wire == [] && m'.closed == []
  {
  }

  lemma FreshAdvances(m: Moment, req: Request, inbox: seq<Arrival>, world: World)
    requires Sound(m, req, inbox, world) && m.at.Fresh?
    requires req.stored == None ==> req.id !in m.broker.tasks
    ensures Advances(m, FromFresh(m, req, world), req, inbox, world)
  {
    var m' := FromFresh(m, req, world);
    if req.stored == None {
      NewIsRest(m, req, inbox, world);
    } else {
      StoredIsRest(m, req, inbox, world);
    }
    FirstAnnounces(m, req, world);
    AnnouncedShifts(req, m, m', Execute(m.broker, req, inbox, world));
  }

  lemma AnnouncedShifts(req: Request, m: Moment, m': Moment, e: Execution)
    requires m == Begin(m.broker)
    requires m'.used == 0 && m'.events == Opening(req) && m'.wire == [] && m'.closed == []
    ensures Joined(m', Closing(req, e)) == Joined(m, Closing(req, Then(Opening(req), [], e)))
  {
    assert [] + e.wire == e.wire && [] + e.closed == e.closed;
    Shift(req, m, m', Then(Opening(req), [], e), e, 0, Opening(req), [], []);
  }

  lemma LaunchedAdvances(m: Moment, req: Request, inbox: seq<Arrival>, world: World)
    requires Sound(m, req, inbox, world) && m.at.Launched?
    ensures Advances(m, FromLaunched(m, world), req, inbox, world)
  {
    var m' := FromLaunched(m, world);
    var x, y := Rest(m, req, inbox, world), Rest(m', req, inbox, world);
    if world.thread == None {
      Shift(req, m, m', x, y, 0, [], x.wire, x.closed);
    } else {
      Shift(req, m, m', x, y, 0, [], [ThreadRequest(m.at.base, world.thread)], []);
    }
  }

  lemma TurnIsSentFirst(m: Moment, req: Request, inbox: seq<Arrival>, world: World, sent: Wire)
    requires Sound(m, req, inbox, world) && m.at.Bound?
    requires sent == SentTurnStart(ContextOf(m.broker, req.contextId)[req.id].threadId, req.message.prompt.value,
                              world.turn.Some?)
    ensures var x, y := StartNewTurn(m.broker, req.id, req.message.prompt.value, inbox, world),
                        Rest(m.(at := Sent, wire := m.wire + [sent]), req, inbox, world);
            x == Execution(y.broker, y.used, [] + y.events, [sent] + y.wire, [] + y.closed, y.ok)
  {
  }

  lemma BoundAdvances(m: Moment, req: Request, inbox: seq<Arrival>, world: World)
    requires Sound(m, req, inbox, world) && m.at.Bound?
    ensures Advances(m, Next(m, req, inbox, world), req, inbox, world)
  {
    var m' := Next(m, req, inbox, world);
    var sent := SentTurnStart(ContextOf(m.broker, req.contextId)[req.id].threadId, req.message.prompt.value,
                              world.turn.Some?);
    TurnIsSentFirst(m, req, inbox, world, sent);
    Shift(req, m, m', Rest(m, req, inbox, world), Rest(m', req, inbox, world), 0, [], [sent], []);
  }

  lemma SentAdvances(m: Moment, req: Request, inbox: seq<Arrival>, world: World)
    requires Sound(m, req, inbox, world) && m.at.Sent?
    ensures Advances(m, FromSent(m, req, world), req, inbox, world)
  {
    var m' := FromSent(m, req, world);
    var x, y := Rest(m, req, inbox, world), Rest(m', req, inbox, world);
    if world.turn == None {
      Shift(req, m, m', x, y, 0, [], [], Handed(ClientOf(m.broker, req.id)));
    } else {
      assert inbox[0..] == inbox;
      Shift(req, m, m', x, y, 0, [Status(Working, None)], [], []);
    }
  }

  lemma AskingAdvances(m: Moment, req: Request, inbox: seq<Arrival>, world: World)
    requires Sound(m, req, inbox, world) && m.at.Asking?
    ensures Advances(m, FromAsking(m, req, world), req, inbox, world)
  {
    var m' := FromAsking(m, req, world);
    var x, y := Rest(m, req, inbox, world), Rest(m', req, inbox, world);
    var pending := m.broker.tasks[req.id].pending.value;
    match ResponseForPending(req.message, pending.kind)
    case None => Shift(req, m, m', x, y, 0, x.events, [], []);
    case Some(answer) =>
      if world.responds {
        Shift(req, m, m', x, y, 0, [], [SentResponse(pending.id, answer)], []);
      } else {
        Shift(req, m, m', x, y, 0, [], [], Handed(ClientOf(m.broker, req.id)));
      }
  }

  lemma AnsweredAdvances(m: Moment, req: Request, inbox: seq<Arrival>, world: World)
    requires Sound(m, req, inbox, world) && m.at.Answered?
    ensures Advances(m, Next(m, req, inbox, world), req, inbox, world)
  {
    var m' := Next(m, req, inbox, world);
    assert inbox[0..] == inbox;
    Shift(req, m, m', Rest(m, req, inbox, world), Rest(m', req, inbox, world), 0, [Status(Working, None)], [], []);
  }

  lemma LeavingAdvances(m: Moment, req: Request, inbox: seq<Arrival>, world: World)
    requires Sound(m, req, inbox, world) && (m.at.Leaving? || m.at.Erring?)
    ensures Advances(m, Next(m, req, inbox, world), req, inbox, world)
  {
    var m' := Next(m, req, inbox, world);
    var x, y := Rest(m, req, inbox, world), Rest(m', req, inbox, world);
    if m.at.Leaving? {
      Shift(req, m, m', x, y, 0, [], [], Handed(ClientOf(m.broker, req.id)));
    } else {
      assert Total(m', req, inbox, world).broker == Finished(m.broker, req.id, true);
    }
  }

  // One message

  lemma HandlingKeepsIdentity(runtime: Runtime, message: Message)
    requires !message.ServerRequest? && HandleNotification(runtime, message).Some?
    ensures var h := HandleNotification(runtime, message).value;
            h.runtime.taskId == runtime.taskId && h.runtime.contextId == runtime.contextId
  {
  }

  lemma WithTaskTwice(b: Broker, id: TaskId, first: Runtime, second: Runtime)
    ensures WithTask(WithTask(b, id, first), id, second) == WithTask(b, id, second)
  {
  }

  /** The loop on the messages that are left, one message on. */
  lemma LoopGoesOn(b: Broker, id: TaskId, inbox: seq<Arrival>, used: nat)
    requires id in b.tasks && used < |inbox| && !inbox[used].message.ServerRequest?
    requires var h := HandleNotification(Noticed(b.tasks[id], inbox[used]), inbox[used].message);
             h.Some? && h.value.outcome.Continue?
    ensures var h := HandleNotification(Noticed(b.tasks[id], inbox[used]), inbox[used].message).value;
            var x, y := ConsumeTurn(b, id, inbox[used..]), ConsumeTurn(WithTask(b, id, h.runtime), id,
                                                                       inbox[used + 1..]);
            x == Execution(y.broker, 1 + y.used, h.events + y.events, [Got(inbox[used].message)] + y.wire, y.closed,
                           y.ok)
  {
    var h := HandleNotification(Noticed(b.tasks[id], inbox[used]), inbox[used].message).value;
    var rest := Consume(h.runtime, inbox[used + 1..]);
    assert inbox[used..][0] == inbox[used] && inbox[used..][1..] == inbox[used + 1..];
    WithTaskTwice(b, id, h.runtime, rest.runtime);
  }

  lemma LoopingStaysSound(m: Moment, req: Request, inbox: seq<Arrival>, world: World)
    requires Sound(m, req, inbox, world) && m.at.Looping?
    ensures Sound(FromLooping(m, req, inbox), req, inbox, world)
  {
    if m.used < |inbox| {
      var now, message := Noticed(m.broker.tasks[req.id], inbox[m.used]), inbox[m.used].message;
      if !message.ServerRequest? && HandleNotification(now, message).Some? {
        HandlingKeepsIdentity(now, message);
      }
    }
  }

  lemma LastMessageAdvances(m: Moment, req: Request, inbox: seq<Arrival>, world: World)
    requires Sound(m, req, inbox, world) && m.at.Looping? && m.used == |inbox|
    ensures Advances(m, FromLooping(m, req, inbox), req, inbox, world)
  {
    var m' := FromLooping(m, req, inbox);
    assert inbox[m.used..] == [];
    assert WithTask(m.broker, req.id, m.broker.tasks[req.id]) == m.broker;
    Shift(req, m, m', Rest(m, req, inbox, world), Rest(m', req, inbox, world), 0, [], [], []);
  }

  lemma QuietMessageAdvances(m: Moment, req: Request, inbox: seq<Arrival>, world: World)
    requires Sound(m, req, inbox, world) && m.at.Looping? && m.used < |inbox|
    requires FromLooping(m, req, inbox).at.Looping?
    ensures Advances(m, FromLooping(m, req, inbox), req, inbox, world)
  {
    var m' := FromLooping(m, req, inbox);
    var h := HandleNotification(Noticed(m.broker.tasks[req.id], inbox[m.used]), inbox[m.used].message).value;
    LoopingStaysSound(m, req, inbox, world);
    LoopGoesOn(m.broker, req.id, inbox, m.used);
    Shift(req, m, m', Rest(m, req, inbox, world), Rest(m', req, inbox, world), 1, h.events,
          [Got(inbox[m.used].message)], []);
  }

  /** The loop on the messages that are left, when it consumes one. */
  lemma {:induction false} OneConsumed(b: Broker, id: TaskId, inbox: seq<Arrival>, used: nat, c: Consumed)
    requires id in b.tasks && used < |inbox| && c == Consume(b.tasks[id], inbox[used..]) && c.used == 1
    ensures var b' := WithTask(b, id, c.runtime);
            ConsumeTurn(b, id, inbox[used..]) ==
            Execution(if c.ending.Paused? then b' else Finished(b', id, true), 1, c.events, [Got(inbox[used].message)],
                      if c.ending.Paused? then [] else Handed(ClientOf(b', id)), c.ending.Paused? || c.ending.Ended?)
  {
    assert GotAll(inbox[used + 1..][..0]) == [];
  }

  /** The moment after a message that the loop stops on, and what is left to do then. */
  lemma {:induction false} StopIsSeen(m: Moment, req: Request, inbox: seq<Arrival>, c: Consumed)
    requires req.id in m.broker.tasks && m.used < |inbox| && c == Consume(m.broker.tasks[req.id], inbox[m.used..])
    requires !FromLooping(m, req, inbox).at.Looping?
    ensures c.used == 1
    ensures FromLooping(m, req, inbox) ==
            Moment(WithTask(m.broker, req.id, c.runtime), if c.ending.Paused? then Over else Leaving(c.ending.Ended?),
                   m.used + 1, m.events + c.events, m.wire + [Got(inbox[m.used].message)], m.closed)
  {
  }

  lemma StopAdvances(m: Moment, req: Request, inbox: seq<Arrival>, world: World)
    requires Sound(m, req, inbox, world) && m.at.Looping? && m.used < |inbox|
    requires !FromLooping(m, req, inbox).at.Looping?
    ensures Advances(m, FromLooping(m, req, inbox), req, inbox, world)
  {
    var m' := FromLooping(m, req, inbox);
    var c := Consume(m.broker.tasks[req.id], inbox[m.used..]);
    LoopingStaysSound(m, req, inbox, world);
    StopIsSeen(m, req, inbox, c);
    OneConsumed(m.broker, req.id, inbox, m.used, c);
    Shift(req, m, m', Rest(m, req, inbox, world), Rest(m', req, inbox, world), 1, c.events,
          [Got(inbox[m.used].message)], []);
  }

  /** No step changes what the execution comes to. */
  lemma StepAdvances(m: Moment, req: Request, inbox: seq<Arrival>, world: World)
    requires Sound(m, req, inbox, world) && !m.at.Over?
    requires m.at.Fresh? && req.stored == None ==> req.id !in m.broker.tasks
    ensures Advances(m, Next(m, req, inbox, world), req, inbox, world)
  {
    match m.at
    case Fresh => FreshAdvances(m, req, inbox, world);
    case Based(_) =>
    case Launched(_) => LaunchedAdvances(m, req, inbox, world);
    case Threaded(_) =>
    case Bound => BoundAdvances(m, req, inbox, world);
    case Sent => SentAdvances(m, req, inbox, world);
    case Asking => AskingAdvances(m, req, inbox, world);
    case Answered => AnsweredAdvances(m, req, inbox, world);
    case Looping =>
      if m.used == |inbox| {
        LastMessageAdvances(m, req, inbox, world);
      } else if FromLooping(m, req, inbox).at.Looping? {
        QuietMessageAdvances(m, req, inbox, world);
      } else {
        StopAdvances(m, req, inbox, world);
      }
    case _ => LeavingAdvances(m, req, inbox, world);
  }

  // ----- Other tasks do not change the total -----

  /** An active task has its session in its context. */
  ghost predicate Local(b: Broker, id: TaskId, c: ContextId) {
    id in b.tasks ==> b.tasks[id].contextId == c && id in ContextOf(b, c)
  }

  /** The same work, on brokers that other tasks have made different. */
  ghost predicate Alike(x: Execution, y: Execution, id: TaskId, c: ContextId) {
    && x.used == y.used && x.events == y.events && x.wire == y.wire && x.closed == y.closed && x.ok == y.ok
    && SameTask(x.broker, y.broker, id, c) && Local(x.broker, id, c)
  }

  lemma FinishAlike(b: Broker, b': Broker, id: TaskId, c: ContextId, preserve: bool)
    requires SameTask(b, b', id, c) && Local(b, id, c)
    ensures SameTask(Finished(b, id, preserve), Finished(b', id, preserve), id, c)
    ensures Local(Finished(b, id, preserve), id, c) && ClientOf(b, id) == ClientOf(b', id)
  {
  }

  lemma TurnAlike(b: Broker, b': Broker, id: TaskId, c: ContextId, inbox: seq<Arrival>)
    requires SameTask(b, b', id, c) && Local(b, id, c) && id in b.tasks
    ensures Alike(ConsumeTurn(b, id, inbox), ConsumeTurn(b', id, inbox), id, c)
  {
    var consumed := Consume(b.tasks[id], inbox);
    ConsumeKeepsIdentity(b.tasks[id], inbox);
    FinishAlike(WithTask(b, id, consumed.runtime), WithTask(b', id, consumed.runtime), id, c, true);
  }

  lemma {:induction false} ConsumeKeepsIdentity(runtime: Runtime, inbox: seq<Arrival>)
    ensures Consume(runtime, inbox).runtime.contextId == runtime.contextId
    ensures Consume(runtime, inbox).runtime.taskId == runtime.taskId
    decreases |inbox|
  {
    if inbox != [] && !inbox[0].message.ServerRequest? {
      var now, message := Noticed(runtime, inbox[0]), inbox[0].message;
      var h := HandleNotification(now, message);
      if h.Some? {
        HandlingKeepsIdentity(now, message);
        if h.value.outcome.Continue? {
          ConsumeKeepsIdentity(h.value.runtime, inbox[1..]);
        }
      }
    }
  }

  lemma NewTurnAlike(
    b: Broker, b': Broker, id: TaskId, c: ContextId, prompt: string, inbox: seq<Arrival>, world: World)
    requires SameTask(b, b', id, c) && Local(b, id, c) && id in b.tasks
    ensures SessionOf(b, id).Some? && SessionOf(b', id).Some?
    ensures Alike(StartNewTurn(b, id, prompt, inbox, world), StartNewTurn(b', id, prompt, inbox, world), id, c)
  {
    FinishAlike(b, b', id, c, false);
    if world.turn.Some? {
      TurningAlike(b, b', id, c, inbox, world.turn.value);
    }
  }

  lemma ResumeAlike(
    b: Broker, b': Broker, id: TaskId, c: ContextId, inbox: seq<Arrival>, message: UserMessage, world: World)
    requires SameTask(b, b', id, c) && Local(b, id, c) && id in b.tasks && b.tasks[id].pending.Some?
    ensures Alike(ResumeInputRequired(b, id, inbox, message, world), ResumeInputRequired(b', id, inbox, message, world),
                  id, c)
  {
    FinishAlike(b, b', id, c, true);
    ResumedAlike(b, b', id, c, inbox);
  }

  lemma ThreadedAlike(b: Broker, b': Broker, req: Request, inbox: seq<Arrival>, world: World, base: Option<Session>)
    requires SameTask(b, b', req.id, req.contextId) && world.thread.Some? && req.message.prompt.Some?
    ensures Alike(AfterThread(b, req, inbox, world, base), AfterThread(b', req, inbox, world, base), req.id,
                  req.contextId)
  {
    var session := SessionFor(req, world, base);
    NewTurnAlike(Registered(b, session), Registered(b', session), req.id, req.contextId, req.message.prompt.value,
                 inbox,
                 world);
  }

  lemma LaunchedAlike(b: Broker, b': Broker, req: Request, inbox: seq<Arrival>, world: World, base: Option<Session>)
    requires SameTask(b, b', req.id, req.contextId) && world.client.Some? && req.message.prompt.Some?
    requires req.id !in b.tasks
    ensures Alike(AfterLaunch(b, req, inbox, world, base), AfterLaunch(b', req, inbox, world, base), req.id,
                  req.contextId)
  {
    if world.thread.Some? {
      ThreadedAlike(b, b', req, inbox, world, base);
    }
  }

  lemma TurningAlike(b: Broker, b': Broker, id: TaskId, c: ContextId, inbox: seq<Arrival>, turn: string)
    requires SameTask(b, b', id, c) && Local(b, id, c) && id in b.tasks
    ensures Alike(ConsumeTurn(Turning(b, id, turn), id, inbox), ConsumeTurn(Turning(b', id, turn), id, inbox), id, c)
  {
    TurnAlike(Turning(b, id, turn), Turning(b', id, turn), id, c, inbox);
  }

  lemma ResumedAlike(b: Broker, b': Broker, id: TaskId, c: ContextId, inbox: seq<Arrival>)
    requires SameTask(b, b', id, c) && Local(b, id, c) && id in b.tasks
    ensures Alike(ConsumeTurn(Resumed(b, id), id, inbox), ConsumeTurn(Resumed(b', id), id, inbox), id, c)
  {
    TurnAlike(Resumed(b, id), Resumed(b', id), id, c, inbox);
  }

  lemma RestAlike(m: Moment, b': Broker, req: Request, inbox: seq<Arrival>, world: World)
    requires Sound(m, req, inbox, world) && !m.at.Fresh? && SameTask(m.broker, b', req.id, req.contextId)
    ensures Sound(m.(broker := b'), req, inbox, world)
    ensures Alike(Rest(m, req, inbox, world), Rest(m.(broker := b'), req, inbox, world), req.id, req.contextId)
  {
    var b, id, c := m.broker, req.id, req.contextId;
    match m.at
    case Based(base) =>
      if world.client.Some? {
        LaunchedAlike(b, b', req, inbox, world, base);
      }
    case Launched(base) => LaunchedAlike(b, b', req, inbox, world, base);
    case Threaded(base) => ThreadedAlike(b, b', req, inbox, world, base);
    case Bound => NewTurnAlike(b, b', id, c, req.message.prompt.value, inbox, world);
    case Sent =>
      FinishAlike(b, b', id, c, false);
      if world.turn.Some? {
        TurningAlike(b, b', id, c, inbox, world.turn.value);
      }
    case Asking => ResumeAlike(b, b', id, c, inbox, req.message, world);
    case Answered => ResumedAlike(b, b', id, c, inbox);
    case Looping => TurnAlike(b, b', id, c, inbox[m.used..]);
    case Leaving(_) => FinishAlike(b, b', id, c, true);
    case _ =>
  }

  /** The same outcome, but for the broker. */
  lemma OthersKeepTotal(m: Moment, b': Broker, req: Request, inbox: seq<Arrival>, world: World)
    requires Sound(m, req, inbox, world) && !m.at.Fresh? && SameTask(m.broker, b', req.id, req.contextId)
    ensures Sound(m.(broker := b'), req, inbox, world)
    ensures Alike(Total(m, req, inbox, world), Total(m.(broker := b'), req, inbox, world), req.id, req.contextId)
  {
    RestAlike(m, b', req, inbox, world);
    var x, y := Rest(m, req, inbox, world), Rest(m.(broker := b'), req, inbox, world);
    FinishAlike(x.broker, y.broker, req.id, req.contextId, true);
  }
}
