/** What one execution leaves. */
module ExecutorRuns {
  // The last status, the runtime, the broker and the client agree.

  import opened Wrappers
  import opened A2A
  import opened BrokerModel
  import opened ExecutorModel

  // ----- What a turn ends on -----

  /** The messages that stop the consuming loop of a healthy turn. */
  predicate Stops(message: Message) {
    message.ServerRequest? || message.TurnEnded?
  }

  /** The last status among some events. */
  function LastStatus(events: seq<Event>): (last: Option<Event>)
    ensures last.Some? ==> last.value.Status?
  {
    if events == [] then None
    else if events[|events| - 1].Status? then Some(events[|events| - 1])
    else LastStatus(events[..|events| - 1])
  }

  lemma {:induction false} LastStatusOfSum(a: seq<Event>, b: seq<Event>)
    ensures LastStatus(a + b) == if LastStatus(b).Some? then LastStatus(b) else LastStatus(a)
  {
    if b == [] {
      assert a + b == a;
    } else {
      assert (a + b)[..|a + b| - 1] == a + b[..|b| - 1];
      if !b[|b| - 1].Status? {
        LastStatusOfSum(a, b[..|b| - 1]);
      }
    }
  }

  /** A request that waits for the user, and the message that asked. */
  predicate AskedBy(pending: Pending, message: Message) {
    && message.ServerRequest? && message.decodes && pending.id == message.id && pending.raw == message.raw
    && match pending.kind
       case CommandApproval => message.asks == CommandApprovalRequest
       case FileApproval => message.asks == FileApprovalRequest
       case Elicitation => message.asks == ElicitationRequest
  }

  /** A message the loop fails on. */
  predicate Breaks(message: Message) {
    message.Undecodable? || (message.ServerRequest? && (!message.decodes || message.asks.UnsupportedRequest?))
  }

  /** What the loop leaves when it stops at `last`. It pauses on a request, which is announced with its
      kind and then pending, or on the completion of the turn. An interrupted turn is announced as
      canceled unless the user asked for it, any other end as failed. */
  ghost predicate EndsOn(runtime: Runtime, c: Consumed, last: Message) {
    match c.ending
    case Paused =>
      && LastStatus(c.events) == Some(Status(InputRequired, KindOf(c.runtime)))
      && if c.runtime.pending.Some? then AskedBy(c.runtime.pending.value, last) &&
          c.runtime.turnActive == runtime.turnActive
         else last == TurnEnded(TurnDone) && !c.runtime.turnActive
    case Ended =>
      || (last == TurnEnded(TurnInterrupted) && c.runtime.cancelRequested && LastStatus(c.events) == None)
      || (last == TurnEnded(TurnInterrupted) && !c.runtime.cancelRequested &&
          LastStatus(c.events) == Some(Status(Canceled, None)))
      || ((last == TurnEnded(TurnFailed) || last == TurnEnded(TurnUnknown)) &&
          LastStatus(c.events) == Some(Status(Failed, None)))
    case Broken => Breaks(last) && LastStatus(c.events) == None
  }

  /** What the loop leaves behind. It stops at the first message that stops it or that it fails on, and
      consumes nothing after; otherwise it fails when the messages have run out. */
  ghost predicate Settled(runtime: Runtime, inbox: seq<Arrival>, c: Consumed) {
    && c.used <= |inbox|
    && c.runtime.taskId == runtime.taskId && c.runtime.contextId == runtime.contextId
    && c.runtime.turnId == runtime.turnId
    && (c.runtime.cancelRequested <==> CanceledBy(runtime, inbox, c.used))
    && (forall i :: 0 <= i < c.used - 1 ==> !Stops(inbox[i].message) && !Breaks(inbox[i].message))
    && if c.used > 0 && (Stops(inbox[c.used - 1].message) || Breaks(inbox[c.used - 1].message))
       then EndsOn(runtime, c, inbox[c.used - 1].message)
       else c.used == |inbox| && c.ending == Broken && LastStatus(c.events) == None
  }

  /** `Cancel` had stored its flag by the time the first `used` messages were handled. */
  ghost predicate CanceledBy(runtime: Runtime, inbox: seq<Arrival>, used: nat)
    requires used <= |inbox|
  {
    runtime.cancelRequested || exists i :: 0 <= i < used && inbox[i].canceled
  }

  function KindOf(runtime: Runtime): Option<PendingKind> {
    if runtime.pending.Some? then Some(runtime.pending.value.kind) else None
  }

  /** Stopping at the first message. */
  lemma StopSettles(runtime: Runtime, inbox: seq<Arrival>, c: Consumed)
    requires inbox != [] && c.used == 1 && (Stops(inbox[0].message) || Breaks(inbox[0].message))
    requires c.runtime.taskId == runtime.taskId && c.runtime.contextId == runtime.contextId
    requires c.runtime.turnId == runtime.turnId
    requires c.runtime.cancelRequested == (runtime.cancelRequested || inbox[0].canceled)
    requires EndsOn(runtime, c, inbox[0].message)
    ensures Settled(runtime, inbox, c)
  {
  }

  lemma {:induction false} FirstEnds(runtime: Runtime, inbox: seq<Arrival>)
    requires runtime.pending == None && inbox != []
    requires Stops(inbox[0].message) || Breaks(inbox[0].message)
    ensures var c := Consume(runtime, inbox); c.used == 1 && EndsOn(runtime, c, inbox[0].message)
  {
    if inbox[0].message.ServerRequest? {
      RequestEnds(runtime, inbox);
    } else {
      NotificationEnds(runtime, inbox);
    }
  }

  lemma {:induction false} RequestEnds(runtime: Runtime, inbox: seq<Arrival>)
    requires runtime.pending == None && inbox != [] && inbox[0].message.ServerRequest?
    ensures var c := Consume(runtime, inbox); c.used == 1 && EndsOn(runtime, c, inbox[0].message)
  {
  }

  lemma {:induction false} NotificationEnds(runtime: Runtime, inbox: seq<Arrival>)
    requires runtime.pending == None && inbox != [] && (inbox[0].message.TurnEnded? || inbox[0].message.Undecodable?)
    ensures var c := Consume(runtime, inbox); c.used == 1 && EndsOn(runtime, c, inbox[0].message)
  {
  }

  /** Consuming one more message that does not stop the loop. */
  lemma ContinueSettles(runtime: Runtime, inbox: seq<Arrival>, h: Handled, rest: Consumed, c: Consumed)
    requires inbox != [] && !Stops(inbox[0].message) && !Breaks(inbox[0].message) &&
        Quiet(Noticed(runtime, inbox[0]), h)
    requires Settled(h.runtime, inbox[1..], rest)
    requires c == rest.(events := h.events + rest.events, used := 1 + rest.used)
    ensures Settled(runtime, inbox, c)
  {
    LastStatusOfSum(h.events, rest.events);
    forall i | 0 <= i < c.used - 1 ensures !Stops(inbox[i].message) {
      assert i > 0 ==> inbox[i] == inbox[1..][i - 1];
    }
    if CanceledBy(h.runtime, inbox[1..], rest.used) && !h.runtime.cancelRequested {
      var i :| 0 <= i < rest.used && inbox[1..][i].canceled;
      assert inbox[i + 1].canceled;
    }
  }

  /** The same runtime but for the accumulated texts. */
  ghost predicate SameButTexts(runtime: Runtime, runtime': Runtime) {
    && runtime'.taskId == runtime.taskId && runtime'.contextId == runtime.contextId
    && runtime'.turnId == runtime.turnId && runtime'.pending == runtime.pending
    && runtime'.turnActive == runtime.turnActive && runtime'.cancelRequested == runtime.cancelRequested
  }

  /** Handling that only accumulates and shows artifacts. */
  ghost predicate Quiet(runtime: Runtime, h: Handled) {
    LastStatus(h.events) == None && SameButTexts(runtime, h.runtime)
  }

  lemma HandlingKeepsRuntime(runtime: Runtime, message: Message)
    requires !message.ServerRequest?
    ensures var h := HandleNotification(runtime, message);
            h.Some? && h.value.outcome.Continue? ==> SameButTexts(runtime, h.value.runtime) && !Stops(message)
  {
  }

  lemma HandlingShowsArtifacts(runtime: Runtime, message: Message)
    requires !message.ServerRequest?
    ensures var h := HandleNotification(runtime, message);
            h.Some? && h.value.outcome.Continue? ==>
              |h.value.events| <= 1 && forall e :: e in h.value.events ==> e.Artifact?
  {
  }

  lemma HandlingIsQuiet(runtime: Runtime, message: Message)
    requires !message.ServerRequest?
    ensures var h := HandleNotification(runtime, message);
            h.Some? && h.value.outcome.Continue? ==> Quiet(runtime, h.value) && !Stops(message)
  {
    var h := HandleNotification(runtime, message);
    if h.Some? && h.value.outcome.Continue? {
      HandlingKeepsRuntime(runtime, message);
      HandlingShowsArtifacts(runtime, message);
      NoStatusAmong(h.value.events);
    }
  }

  lemma {:induction false} NoStatusAmong(events: seq<Event>)
    ensures |events| <= 1 && (forall e :: e in events ==> e.Artifact?) ==> LastStatus(events) == None
  {
    if |events| == 1 && events[0].Artifact? {
      assert events[..0] == [];
    }
  }

  lemma {:induction false} NothingSettles(runtime: Runtime)
    ensures Settled(runtime, [], Consume(runtime, []))
  {
  }

  lemma {:induction false} FirstSettles(runtime: Runtime, inbox: seq<Arrival>)
    requires runtime.pending == None && inbox != []
    requires Stops(inbox[0].message) || Breaks(inbox[0].message)
    ensures Settled(runtime, inbox, Consume(runtime, inbox))
  {
    FirstEnds(runtime, inbox);
    FirstKeeps(runtime, inbox);
    StopSettles(runtime, inbox, Consume(runtime, inbox));
  }

  /** What the message that the loop stops on leaves as it was. */
  lemma {:induction false} FirstKeeps(runtime: Runtime, inbox: seq<Arrival>)
    requires inbox != [] && (Stops(inbox[0].message) || Breaks(inbox[0].message))
    ensures var c := Consume(runtime, inbox);
            && c.runtime.taskId == runtime.taskId && c.runtime.contextId == runtime.contextId
            && c.runtime.turnId == runtime.turnId
            && c.runtime.cancelRequested == (runtime.cancelRequested || inbox[0].canceled)
  {
  }

  lemma {:induction false} RestSettles(runtime: Runtime, inbox: seq<Arrival>)
    requires inbox != [] && !Stops(inbox[0].message) && !Breaks(inbox[0].message)
    ensures HandleNotification(Noticed(runtime, inbox[0]), inbox[0].message).Some?
    ensures var h := HandleNotification(Noticed(runtime, inbox[0]), inbox[0].message).value;
            && (runtime.pending == None ==> h.runtime.pending == None)
            && (Settled(h.runtime, inbox[1..], Consume(h.runtime, inbox[1..])) ==>
                  Settled(runtime, inbox, Consume(runtime, inbox)))
  {
    var now, message := Noticed(runtime, inbox[0]), inbox[0].message;
    HandlingIsQuiet(now, message);
    var h := HandleNotification(now, message).value;
    var rest := Consume(h.runtime, inbox[1..]);
    if Settled(h.runtime, inbox[1..], rest) {
      ContinueSettles(runtime, inbox, h, rest, Consume(runtime, inbox));
    }
  }

  lemma {:induction false} ConsumeSettles(runtime: Runtime, inbox: seq<Arrival>)
    requires runtime.pending == None
    ensures Settled(runtime, inbox, Consume(runtime, inbox))
    decreases |inbox|
  {
    if inbox == [] {
      NothingSettles(runtime);
    } else if Stops(inbox[0].message) || Breaks(inbox[0].message) {
      FirstSettles(runtime, inbox);
    } else {
      RestSettles(runtime, inbox);
      ConsumeSettles(HandleNotification(Noticed(runtime, inbox[0]), inbox[0].message).value.runtime, inbox[1..]);
    }
  }

  // ----- Where an execution leaves its task -----

  /** The broker has let go of the task: no runtime, and no client on its session. */
  ghost predicate Gone(b: Broker, id: TaskId, contextId: ContextId) {
    && id !in b.tasks
    && (id in ContextOf(b, contextId) ==> ContextOf(b, contextId)[id].client == None)
  }

  /** The broker holds the task between executions: a turn is active exactly when a request waits
      for the user. */
  ghost predicate Held(b: Broker, id: TaskId, contextId: ContextId) {
    && id in b.tasks && b.tasks[id].taskId == id && b.tasks[id].contextId == contextId
    && ClientOf(b, id).Some?
    && b.tasks[id].turnActive == b.tasks[id].pending.Some?
  }

  ghost predicate AtRest(b: Broker, id: TaskId, contextId: ContextId) {
    Held(b, id, contextId) || Gone(b, id, contextId)
  }

  /** The task is new: the broker has never seen it. */
  ghost predicate Unseen(b: Broker, id: TaskId, contextId: ContextId) {
    id !in b.tasks && id !in ContextOf(b, contextId)
  }

  /** A task in the middle of a turn. */
  ghost predicate InTurn(b: Broker, id: TaskId, contextId: ContextId) {
    && id in b.tasks && b.tasks[id].taskId == id && b.tasks[id].contextId == contextId
    && ClientOf(b, id).Some?
    && b.tasks[id].turnActive && b.tasks[id].pending == None
  }

  /** The user has canceled the task by the end of an execution that started from `b`. */
  ghost predicate UserCanceled(b: Broker, id: TaskId, inbox: seq<Arrival>, x: Execution) {
    (id in b.tasks && b.tasks[id].cancelRequested) || exists i :: 0 <= i < x.used <= |inbox| && inbox[i].canceled
  }

  /** An ending the user asked for: the interrupted turn says nothing more. */
  ghost predicate CanceledQuietly(b: Broker, id: TaskId, inbox: seq<Arrival>, x: Execution) {
    && x.ok && UserCanceled(b, id, inbox, x)
    && x.wire != [] && x.wire[|x.wire| - 1] == Got(TurnEnded(TurnInterrupted))
  }

  /** The three views after an execution from `b`: the last status, the runtime and the broker
      agree. `quiet` is the last status an ending without a status of its own leaves. */
  ghost predicate Agrees(
    b: Broker, inbox: seq<Arrival>, x: Execution, id: TaskId, contextId: ContextId, quiet: Option<Event>)
  {
    var last := LastStatus(x.events);
    || (x.ok && Held(x.broker, id, contextId) &&
        last == Some(Status(InputRequired, KindOf(x.broker.tasks[id]))))
    || (Gone(x.broker, id, contextId) && (last == Some(Status(Failed, None)) || last == Some(Status(Canceled, None))))
    || (Gone(x.broker, id, contextId) && last == quiet && CanceledQuietly(b, id, inbox, x))
  }

  lemma FinishLetsGo(b: Broker, id: TaskId, contextId: ContextId, preserve: bool)
    requires id in b.tasks && b.tasks[id].contextId == contextId
    ensures Gone(Finished(b, id, preserve), id, contextId)
  {
  }

  lemma {:induction false} TurnAgrees(b: Broker, id: TaskId, contextId: ContextId, inbox: seq<Arrival>)
    requires InTurn(b, id, contextId)
    ensures var x := ConsumeTurn(b, id, inbox);
            if x.ok then Agrees(b, inbox, x, id, contextId, None)
            else Gone(x.broker, id, contextId) && LastStatus(x.events) == None
  {
    ConsumeSettles(b.tasks[id], inbox);
    var c := Consume(b.tasks[id], inbox);
    var b' := b.(tasks := b.tasks[id := c.runtime]);
    RuntimeKeepsClient(b, id, c.runtime);
    if !c.ending.Paused? {
      FinishLetsGo(b', id, contextId, true);
    }
  }

  /** Announcing that work goes on, before the turn, changes no last status but a missing one. */
  lemma {:induction false} WorkingFirst(
    b: Broker, inbox: seq<Arrival>, wire: seq<Wire>, x: Execution, id: TaskId, contextId: ContextId)
    requires if x.ok then Agrees(b, inbox, x, id, contextId, None)
             else Gone(x.broker, id, contextId) && LastStatus(x.events) == None
    ensures var y := Then([Status(Working, None)], wire, x);
            if x.ok then Agrees(b, inbox, y, id, contextId, Some(Status(Working, None)))
            else Gone(y.broker, id, contextId)
  {
    var working := [Status(Working, None)];
    LastStatusOfSum(working, x.events);
    assert LastStatus(working) == Some(Status(Working, None));
    if x.wire != [] {
      assert (wire + x.wire)[|wire + x.wire| - 1] == x.wire[|x.wire| - 1];
    }
  }

  lemma NewTurnAgrees(
    b: Broker, id: TaskId, contextId: ContextId, prompt: string, inbox: seq<Arrival>, world: World)
    requires Held(b, id, contextId) && b.tasks[id].pending == None
    ensures var x := StartNewTurn(b, id, prompt, inbox, world);
            if x.ok then Agrees(b, inbox, x, id, contextId, Some(Status(Working, None)))
            else Gone(x.broker, id, contextId)
  {
    if world.turn == None {
      FinishLetsGo(b, id, contextId, false);
    } else {
      var runtime := b.tasks[id].(turnId := world.turn.value, turnActive := true);
      var b' := b.(tasks := b.tasks[id := runtime]);
      RuntimeKeepsClient(b, id, runtime);
      TurnAgrees(b', id, contextId, inbox);
      WorkingFirst(b, inbox, [SentTurnStart(SessionOf(b, id).value.threadId, prompt, true)],
                   ConsumeTurn(b', id, inbox), id, contextId);
    }
  }

  lemma ResumeAgrees(
    b: Broker, id: TaskId, contextId: ContextId, inbox: seq<Arrival>, message: UserMessage, world: World)
    requires Held(b, id, contextId) && b.tasks[id].pending.Some?
    ensures var x := ResumeInputRequired(b, id, inbox, message, world);
            if x.ok then Agrees(b, inbox, x, id, contextId, Some(Status(Working, None)))
            else Gone(x.broker, id, contextId)
  {
    var pending := b.tasks[id].pending.value;
    var answer := ResponseForPending(message, pending.kind);
    if answer == None {
      var x := ResumeInputRequired(b, id, inbox, message, world);
      assert LastStatus(x.events) == Some(x.events[1]);
    } else if !world.responds {
      FinishLetsGo(b, id, contextId, true);
    } else {
      var runtime := b.tasks[id].(pending := None);
      var b' := b.(tasks := b.tasks[id := runtime]);
      RuntimeKeepsClient(b, id, runtime);
      TurnAgrees(b', id, contextId, inbox);
      WorkingFirst(b, inbox, [SentResponse(pending.id, answer.value)],
                   ConsumeTurn(b', id, inbox), id, contextId);
    }
  }

  /** A started task is held, idle, with the launched client. */
  lemma StartedIsHeld(b: Broker, req: Request, world: World)
    requires Ready(b, req, world) && Unseen(b, req.id, req.contextId)
    ensures var started := StartTask(b, req, world);
            if started.ok
            then Held(started.broker, req.id, req.contextId) &&
                 started.broker.tasks[req.id] == NewRuntime(req.id, req.contextId) &&
                 ClientOf(started.broker, req.id) == world.client
            else started.broker == b
  {
  }

  /** From `b` to `b'` a task was started: its session is on the thread Codex made for it and has the launched
      client. Its parent is a task that neither ran a turn nor waited, and whose thread was forked; or it has
      none, and its thread is new. */
  ghost predicate RightlyStarted(b: Broker, b': Broker, req: Request, world: World, sent: seq<Wire>) {
    && req.id in ContextOf(b', req.contextId) && world.thread.Some? && world.client.Some?
    && var ctx, session := ContextOf(b, req.contextId), ContextOf(b', req.contextId)[req.id];
    && session.taskId == req.id && session.contextId == req.contextId && session.childCount == 0
    && session.threadId == world.thread.value && session.client == world.client
    && if session.parent == NO_TASK then sent == [SentThread(None, world.thread)]
       else
         && session.parent in ctx && sent == [SentThread(Some(ctx[session.parent].threadId), world.thread)]
         && (session.parent in b.tasks ==>
               !b.tasks[session.parent].turnActive && b.tasks[session.parent].pending == None)
  }

  lemma StartedSession(b: Broker, req: Request, world: World)
    requires ContextKeyed(ContextOf(b, req.contextId), req.contextId) &&
        Visits(ContextOf(b, req.contextId), world.order)
    ensures var started := StartTask(b, req, world);
            started.ok ==> RightlyStarted(b, started.broker, req, world, started.sent)
  {
    ResolvesToIdle(b, req.contextId, req.references, world.order);
  }

  /** A request the A2A library can make: a task without a stored state is new, and a task with one
      was left at rest. */
  ghost predicate Comes(b: Broker, req: Request, world: World) {
    && Ready(b, req, world)
    && (if req.stored == None then Unseen(b, req.id, req.contextId) else AtRest(b, req.id, req.contextId))
  }

  /** What was sent before a turn changes nothing of this. */
  lemma LaterAgrees(
    b: Broker, b': Broker, inbox: seq<Arrival>, sent: seq<Wire>, x: Execution, id: TaskId, contextId: ContextId)
    requires id !in b'.tasks || !b'.tasks[id].cancelRequested
    requires x.ok ==> Agrees(b', inbox, x, id, contextId, Some(Status(Working, None)))
    ensures x.ok ==> Agrees(b, inbox, Then([], sent, x), id, contextId, Some(Status(Working, None)))
  {
    assert [] + x.events == x.events;
    if x.wire != [] {
      assert (sent + x.wire)[|sent + x.wire| - 1] == x.wire[|x.wire| - 1];
    }
  }

  lemma ExecuteAgrees(b: Broker, req: Request, inbox: seq<Arrival>, world: World)
    requires Comes(b, req, world)
    ensures var x := Execute(b, req, inbox, world);
            if x.ok then Agrees(b, inbox, x, req.id, req.contextId, Some(Status(Working, None)))
            else AtRest(x.broker, req.id, req.contextId)
  {
    if req.stored == None && req.message.prompt.Some? {
      StartedIsHeld(b, req, world);
      var started := StartTask(b, req, world);
      if started.ok {
        var prompt := req.message.prompt.value;
        NewTurnAgrees(started.broker, req.id, req.contextId, prompt, inbox, world);
        LaterAgrees(b, started.broker, inbox, started.sent, StartNewTurn(started.broker, req.id, prompt, inbox, world),
                    req.id, req.contextId);
      }
    } else if req.stored == Some(InputRequired) && req.id in b.tasks {
      if b.tasks[req.id].pending.Some? {
        ResumeAgrees(b, req.id, req.contextId, inbox, req.message, world);
      } else if req.message.prompt.Some? {
        NewTurnAgrees(b, req.id, req.contextId, req.message.prompt.value, inbox, world);
      }
    }
  }

  /** Lifecycle agreement. After every execution, with no close in between, either the last status
      is input-required and the broker holds the runtime, a turn active exactly when a request is
      pending and a request pending exactly when the status says which kind; or the last status is
      failed or canceled and the broker has let go of runtime and client; or the user canceled, the
      interrupted turn emitted no closing status, and the broker has let go as well. */
  lemma {:induction false} LifecycleAgreement(b: Broker, req: Request, inbox: seq<Arrival>, world: World)
    requires Comes(b, req, world)
    ensures var x := ExecuteStream(b, req, inbox, world);
            && Agrees(b, inbox, x, req.id, req.contextId, Some(Status(Working, None)))
            && AtRest(x.broker, req.id, req.contextId)
  {
    ExecuteAgrees(b, req, inbox, world);
    var x := Execute(b, req, inbox, world);
    var first := if req.stored == None then [Status(Submitted, None)] else [];
    LastStatusOfSum(first, x.events);
    if !x.ok {
      LastStatusOfSum(first + x.events, [Status(Failed, None)]);
      if req.id in x.broker.tasks {
        FinishLetsGo(x.broker, req.id, req.contextId, true);
      }
    }
  }

  // ----- Clients -----

  /** The client an execution launches, if it gets that far. */
  function LaunchedIn(b: Broker, req: Request, world: World): seq<ClientId>
    requires forall t :: t in world.order ==> t in ContextOf(b, req.contextId)
  {
    if req.stored == None && req.message.prompt.Some? &&
       Resolve(b, req.contextId, req.references, world.order).Ok?
    then Handed(world.client) else []
  }

  /** Of the client a task had, or was launched with, an execution either closes it or leaves it with
      the task. */
  ghost predicate Accounted(had: seq<ClientId>, x: Execution, id: TaskId) {
    had == x.closed + Handed(ClientOf(x.broker, id))
  }

  lemma FinishReleases(b: Broker, id: TaskId, preserve: bool)
    requires id in b.tasks
    ensures ClientOf(Finished(b, id, preserve), id) == None
  {
  }

  lemma TurnAccounts(b: Broker, id: TaskId, contextId: ContextId, inbox: seq<Arrival>)
    requires InTurn(b, id, contextId)
    ensures Accounted(Handed(ClientOf(b, id)), ConsumeTurn(b, id, inbox), id)
  {
    ConsumeSettles(b.tasks[id], inbox);
    var c := Consume(b.tasks[id], inbox);
    RuntimeKeepsClient(b, id, c.runtime);
    FinishReleases(b.(tasks := b.tasks[id := c.runtime]), id, true);
  }

  lemma NewTurnAccounts(
    b: Broker, id: TaskId, contextId: ContextId, prompt: string, inbox: seq<Arrival>, world: World)
    requires Held(b, id, contextId) && b.tasks[id].pending == None
    ensures Accounted(Handed(ClientOf(b, id)), StartNewTurn(b, id, prompt, inbox, world), id)
  {
    if world.turn == None {
      FinishReleases(b, id, false);
    } else {
      var runtime := b.tasks[id].(turnId := world.turn.value, turnActive := true);
      RuntimeKeepsClient(b, id, runtime);
      TurnAccounts(b.(tasks := b.tasks[id := runtime]), id, contextId, inbox);
    }
  }

  lemma ResumeAccounts(
    b: Broker, id: TaskId, contextId: ContextId, inbox: seq<Arrival>, message: UserMessage, world: World)
    requires Held(b, id, contextId) && b.tasks[id].pending.Some?
    ensures Accounted(Handed(ClientOf(b, id)), ResumeInputRequired(b, id, inbox, message, world), id)
  {
    if ResponseForPending(message, b.tasks[id].pending.value.kind).Some? {
      if !world.responds {
        FinishReleases(b, id, true);
      } else {
        var runtime := b.tasks[id].(pending := None);
        RuntimeKeepsClient(b, id, runtime);
        TurnAccounts(b.(tasks := b.tasks[id := runtime]), id, contextId, inbox);
      }
    }
  }

  /** An execution closes its client exactly when it lets go of the task, and then once: what the
      task had, or was launched with, is what was closed and what the task still has. */
  lemma {:induction false} ExecutionAccountsForClients(b: Broker, req: Request, inbox: seq<Arrival>, world: World)
    requires Comes(b, req, world)
    ensures Accounted(Handed(ClientOf(b, req.id)) + LaunchedIn(b, req, world),
                      ExecuteStream(b, req, inbox, world), req.id)
  {
    var x := Execute(b, req, inbox, world);
    var had := Handed(ClientOf(b, req.id)) + LaunchedIn(b, req, world);
    if req.stored == None && req.message.prompt.Some? {
      StartedIsHeld(b, req, world);
      var started := StartTask(b, req, world);
      if started.ok {
        NewTurnAccounts(started.broker, req.id, req.contextId, req.message.prompt.value, inbox, world);
      }
    } else if req.stored == Some(InputRequired) && req.id in b.tasks {
      if b.tasks[req.id].pending.Some? {
        ResumeAccounts(b, req.id, req.contextId, inbox, req.message, world);
      } else if req.message.prompt.Some? {
        NewTurnAccounts(b, req.id, req.contextId, req.message.prompt.value, inbox, world);
      }
    }
    assert Accounted(had, x, req.id);
    if !x.ok && req.id in x.broker.tasks {
      FinishReleases(x.broker, req.id, true);
    }
  }
}
