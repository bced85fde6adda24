/** The discipline on the wire between one task and its Codex client. */
module WireDiscipline {
  import opened Wrappers
  import A2A
  import opened BrokerModel
  import opened ExecutorModel
  import opened ExecutorRuns

  /** What the protocol allows next: the client is new, nothing is running on its thread, a turn runs
      there, a server request waits for the response under its ID, or the client is done for. */
  datatype Mode =
    | New
    | Idle(thread: ThreadId)
    | Running(thread: ThreadId)
    | Waiting(thread: ThreadId, id: string, asks: RequestKind)
    | Over

  /** An answer of the form the request asks for. */
  predicate HasForm(asks: RequestKind, answer: Answer) {
    asks == ElicitationRequest <==> answer.Action?
  }

  /** One wire event; none when the protocol forbids it. The client's first request makes its thread, a
      turn starts only on that thread and when it is idle, Codex is read only while a turn runs, and a
      response answers the request that waits, in its form. */
  function Advance(mode: Mode, w: Wire): Option<Mode> {
    match w
    case SentThread(_, made) =>
      if mode.New? then Some(if made.Some? then Idle(made.value) else Over) else None
    case SentTurnStart(thread, _, accepted) =>
      if mode == Idle(thread) then Some(if accepted then Running(thread) else Over) else None
    case SentResponse(id, answer) =>
      if mode.Waiting? && mode.id == id && HasForm(mode.asks, answer) then Some(Running(mode.thread)) else None
    case Got(message) =>
      if !mode.Running? then None
      else if Breaks(message) then Some(Over)
      else if message.ServerRequest? then Some(Waiting(mode.thread, message.id, message.asks))
      else if message == TurnEnded(TurnDone) then Some(Idle(mode.thread))
      else if message.TurnEnded? then Some(Over)
      else Some(mode)
  }

  /** A whole log, from its first event on. */
  function Track(mode: Mode, wire: seq<Wire>): Option<Mode>
    decreases |wire|
  {
    if wire == [] then Some(mode)
    else
      var next := Advance(mode, wire[0]);
      if next == None then None else Track(next.value, wire[1..])
  }

  lemma {:induction false} TrackOfSum(mode: Mode, a: seq<Wire>, b: seq<Wire>)
    requires Track(mode, a).Some?
    ensures Track(mode, a + b) == Track(Track(mode, a).value, b)
    decreases |a|
  {
    if a == [] {
      assert a + b == b;
    } else {
      assert (a + b)[1..] == a[1..] + b;
      TrackOfSum(Advance(mode, a[0]).value, a[1..], b);
    }
  }

  /** A part of a log that keeps the discipline keeps it. */
  lemma {:induction false} TrackOfPrefix(mode: Mode, a: seq<Wire>, b: seq<Wire>)
    requires Track(mode, a + b).Some?
    ensures Track(mode, a).Some?
    decreases |a|
  {
    if a != [] {
      assert (a + b)[1..] == a[1..] + b;
      TrackOfPrefix(Advance(mode, a[0]).value, a[1..], b);
    }
  }

  /** The request that asks for this kind of input. */
  function AsksFor(kind: PendingKind): RequestKind {
    match kind
    case CommandApproval => CommandApprovalRequest
    case FileApproval => FileApprovalRequest
    case Elicitation => ElicitationRequest
  }

  /** The mode a runtime believes in. */
  function ModeOf(runtime: Runtime, thread: ThreadId): Mode {
    if runtime.pending.Some? then Waiting(thread, runtime.pending.value.id, AsksFor(runtime.pending.value.kind))
    else if runtime.turnActive then Running(thread)
    else Idle(thread)
  }

  /** The mode of the task in the broker, when it is held. */
  ghost predicate InMode(b: Broker, id: TaskId, mode: Option<Mode>) {
    && mode.Some?
    && (id in b.tasks ==>
          SessionOf(b, id).Some? && mode == Some(ModeOf(b.tasks[id], SessionOf(b, id).value.threadId)))
  }

  /** The mode an execution goes on from. */
  function ModeBefore(b: Broker, id: TaskId): Mode {
    if SessionOf(b, id).Some? then ModeOf(b.tasks[id], SessionOf(b, id).value.threadId) else New
  }

  /** A message that the loop goes on after. */
  ghost predicate GoesOn(now: Runtime, message: Message) {
    && !message.ServerRequest? && HandleNotification(now, message).Some?
    && HandleNotification(now, message).value.outcome.Continue?
  }

  lemma GoingOnIsDisciplined(now: Runtime, message: Message, thread: ThreadId)
    requires GoesOn(now, message)
    ensures Advance(Running(thread), Got(message)) == Some(Running(thread))
    ensures var next := HandleNotification(now, message).value.runtime;
            next.turnActive == now.turnActive && next.pending == now.pending
  {
    HandlingIsQuiet(now, message);
  }

  lemma {:induction false} StopIsDisciplined(runtime: Runtime, inbox: seq<Arrival>, thread: ThreadId)
    requires runtime.turnActive && runtime.pending == None
    requires inbox != [] && !GoesOn(Noticed(runtime, inbox[0]), inbox[0].message)
    ensures var c := Consume(runtime, inbox);
            var mode := Track(Running(thread), [Got(inbox[0].message)]);
            c.used == 1 && mode.Some? && (c.ending.Paused? ==> mode == Some(ModeOf(c.runtime, thread)))
  {
    assert [Got(inbox[0].message)][1..] == [];
  }

  lemma {:induction false} ConsumeIsDisciplined(runtime: Runtime, inbox: seq<Arrival>, thread: ThreadId)
    requires runtime.turnActive && runtime.pending == None
    ensures var c := Consume(runtime, inbox);
            var mode := Track(Running(thread), GotAll(inbox[..c.used]));
            mode.Some? && (c.ending.Paused? ==> mode == Some(ModeOf(c.runtime, thread)))
    decreases |inbox|
  {
    if inbox != [] {
      var now, message := Noticed(runtime, inbox[0]), inbox[0].message;
      var used := Consume(runtime, inbox).used;
      if GoesOn(now, message) {
        var next := HandleNotification(now, message).value.runtime;
        GoingOnIsDisciplined(now, message, thread);
        ConsumeIsDisciplined(next, inbox[1..], thread);
        assert GotAll(inbox[..used]) == [Got(message)] + GotAll(inbox[1..][..used - 1]);
      } else {
        StopIsDisciplined(runtime, inbox, thread);
        assert GotAll(inbox[..used]) == [Got(message)];
      }
    }
  }

  lemma {:induction false} TurnIsDisciplined(b: Broker, id: TaskId, contextId: ContextId, inbox: seq<Arrival>)
    requires InTurn(b, id, contextId)
    ensures var x := ConsumeTurn(b, id, inbox);
            InMode(x.broker, id, Track(Running(SessionOf(b, id).value.threadId), x.wire))
  {
    ConsumeIsDisciplined(b.tasks[id], inbox, SessionOf(b, id).value.threadId);
    ConsumeSettles(b.tasks[id], inbox);
  }

  lemma {:induction false} NewTurnIsDisciplined(
    b: Broker, id: TaskId, contextId: ContextId, prompt: string, inbox: seq<Arrival>, world: World)
    requires Held(b, id, contextId) && b.tasks[id].pending == None
    ensures var x := StartNewTurn(b, id, prompt, inbox, world);
            InMode(x.broker, id, Track(Idle(SessionOf(b, id).value.threadId), x.wire))
  {
    if world.turn == None {
      FinishLetsGo(b, id, contextId, false);
    } else {
      var b' := Turning(b, id, world.turn.value);
      TurnIsDisciplined(b', id, contextId, inbox);
    }
  }

  /** An answer has the form of what waits. */
  lemma AnswersFit(message: UserMessage, kind: PendingKind)
    ensures var answer := ResponseForPending(message, kind);
            answer.Some? ==> HasForm(AsksFor(kind), answer.value)
  {
  }

  lemma {:induction false} ResumeIsDisciplined(
    b: Broker, id: TaskId, contextId: ContextId, inbox: seq<Arrival>, message: UserMessage, world: World)
    requires Held(b, id, contextId) && b.tasks[id].pending.Some?
    ensures var x := ResumeInputRequired(b, id, inbox, message, world);
            InMode(x.broker, id, Track(ModeBefore(b, id), x.wire))
  {
    var pending := b.tasks[id].pending.value;
    AnswersFit(message, pending.kind);
    var answer := ResponseForPending(message, pending.kind);
    if answer.Some? {
      if !world.responds {
        FinishLetsGo(b, id, contextId, true);
      } else {
        var b' := Resumed(b, id);
        TurnIsDisciplined(b', id, contextId, inbox);
      }
    }
  }

  lemma {:induction false} NewTaskIsDisciplined(b: Broker, req: Request, inbox: seq<Arrival>, world: World)
    requires Comes(b, req, world) && req.stored == None && req.message.prompt.Some?
    ensures var x := Execute(b, req, inbox, world); InMode(x.broker, req.id, Track(New, x.wire))
  {
    StartedIsHeld(b, req, world);
    var started := StartTask(b, req, world);
    if started.ok {
      NewTurnIsDisciplined(started.broker, req.id, req.contextId, req.message.prompt.value, inbox, world);
      var x := StartNewTurn(started.broker, req.id, req.message.prompt.value, inbox, world);
      assert started.sent[1..] == [];
      TrackOfSum(New, started.sent, x.wire);
    } else if started.sent != [] {
      assert started.sent[1..] == [];
    }
  }

  lemma {:induction false} ExecuteIsDisciplined(b: Broker, req: Request, inbox: seq<Arrival>, world: World)
    requires Comes(b, req, world)
    ensures var x := Execute(b, req, inbox, world);
            InMode(x.broker, req.id, Track(ModeBefore(b, req.id), x.wire))
  {
    if req.stored == None && req.message.prompt.Some? {
      NewTaskIsDisciplined(b, req, inbox, world);
    } else if req.stored == Some(A2A.InputRequired) && req.id in b.tasks {
      if b.tasks[req.id].pending.Some? {
        ResumeIsDisciplined(b, req.id, req.contextId, inbox, req.message, world);
      } else if req.message.prompt.Some? {
        NewTurnIsDisciplined(b, req.id, req.contextId, req.message.prompt.value, inbox, world);
      }
    }
  }

  /** Wire discipline of one execution: its wire log goes on from the mode of the runtime it found,
      and leaves the wire in the mode of the runtime it leaves, if it leaves one. */
  lemma {:induction false} ExecutionIsDisciplined(b: Broker, req: Request, inbox: seq<Arrival>, world: World)
    requires Comes(b, req, world)
    ensures var x := ExecuteStream(b, req, inbox, world);
            InMode(x.broker, req.id, Track(ModeBefore(b, req.id), x.wire))
  {
    ExecuteIsDisciplined(b, req, inbox, world);
    ExecuteAgrees(b, req, inbox, world);
    var x := Execute(b, req, inbox, world);
    if !x.ok && req.id in x.broker.tasks {
      FinishLetsGo(x.broker, req.id, req.contextId, true);
    }
  }
}
