/** How a turn's end is told. */
module Endings {
  import opened Wrappers
  import opened A2A
  import opened BrokerModel
  import opened ExecutorModel
  import opened ExecutorRuns

  /** What an execution that consumed messages and succeeded comes to, by the last of them: a request for
      the user or the completion of the turn leaves the task with its runtime, any other end takes the
      runtime away. An interrupted turn is canceled, unless the user asked for that; a failed one, or one
      that ended in an unknown way, is failed. `working` is the last status when the end brings none. */
  ghost predicate EndsBy(x: Execution, id: TaskId, last: Message, canceled: bool, working: Option<Event>) {
    var status := LastStatus(x.events);
    match last
    case ServerRequest(_, _, _, _) =>
      && id in x.broker.tasks && x.broker.tasks[id].pending.Some? && AskedBy(x.broker.tasks[id].pending.value, last)
      && status == Some(Status(InputRequired, Some(x.broker.tasks[id].pending.value.kind)))
    case TurnEnded(end) =>
      (match end
       case TurnDone =>
         && id in x.broker.tasks && x.broker.tasks[id].pending == None && status == Some(Status(InputRequired, None))
       case TurnInterrupted =>
         id !in x.broker.tasks && status == if canceled then working else Some(Status(Canceled, None))
       case TurnFailed => id !in x.broker.tasks && status == Some(Status(Failed, None))
       case TurnUnknown => id !in x.broker.tasks && status == Some(Status(Failed, None)))
    case _ => false
  }

  /** The loop: it succeeds exactly when it stops at a message it does not fail on. */
  ghost predicate LoopEnds(x: Execution, id: TaskId, inbox: seq<Arrival>, canceled: bool, working: Option<Event>) {
    && x.used <= |inbox|
    && (x.ok <==> x.used > 0 && Stops(inbox[x.used - 1].message) && !Breaks(inbox[x.used - 1].message))
    && (!x.ok ==> x.used == |inbox| || (x.used > 0 && Breaks(inbox[x.used - 1].message)))
    && if x.ok then EndsBy(x, id, inbox[x.used - 1].message, canceled, working) else LastStatus(x.events) == working
  }

  ghost predicate CanceledIn(b: Broker, id: TaskId, inbox: seq<Arrival>, used: nat)
    requires used <= |inbox|
  {
    (id in b.tasks && b.tasks[id].cancelRequested) || exists i :: 0 <= i < used && inbox[i].canceled
  }

  lemma TurnEndsWell(b: Broker, id: TaskId, contextId: ContextId, inbox: seq<Arrival>)
    requires InTurn(b, id, contextId)
    ensures var x := ConsumeTurn(b, id, inbox); LoopEnds(x, id, inbox, CanceledIn(b, id, inbox, x.used), None)
  {
    ConsumeSettles(b.tasks[id], inbox);
    var c := Consume(b.tasks[id], inbox);
    if !c.ending.Paused? {
      FinishLetsGo(WithTask(b, id, c.runtime), id, contextId, true);
    }
  }

  lemma WorkingThenEnds(x: Execution, sent: seq<Wire>, id: TaskId, inbox: seq<Arrival>, canceled: bool)
    requires LoopEnds(x, id, inbox, canceled, None)
    ensures LoopEnds(Then([Status(Working, None)], sent, x), id, inbox, canceled, Some(Status(Working, None)))
  {
    LastStatusOfSum([Status(Working, None)], x.events);
    assert LastStatus([Status(Working, None)]) == Some(Status(Working, None));
  }

  /** A new turn: it fails at once when Codex refuses it. */
  lemma NewTurnEnds(b: Broker, id: TaskId, contextId: ContextId, prompt: string, inbox: seq<Arrival>, world: World)
    requires Held(b, id, contextId) && b.tasks[id].pending == None
    ensures var x := StartNewTurn(b, id, prompt, inbox, world);
            if world.turn == None then !x.ok && x.used == 0
            else LoopEnds(x, id, inbox, CanceledIn(b, id, inbox, x.used), Some(Status(Working, None)))
  {
    if world.turn.Some? {
      var b' := Turning(b, id, world.turn.value);
      var sent := SentTurnStart(SessionOf(b, id).value.threadId, prompt, true);
      TurnEndsWell(b', id, contextId, inbox);
      var x := ConsumeTurn(b', id, inbox);
      WorkingThenEnds(x, [sent], id, inbox, CanceledIn(b', id, inbox, x.used));
    }
  }

  /** A reply to what waits: when it gives no answer the task is as it was and the user is asked again;
      when the answer cannot be written the execution fails at once. */
  lemma {:induction false} ResumeEnds(
    b: Broker, id: TaskId, contextId: ContextId, inbox: seq<Arrival>, message: UserMessage, world: World)
    requires Held(b, id, contextId) && b.tasks[id].pending.Some?
    ensures var x, pending := ResumeInputRequired(b, id, inbox, message, world), b.tasks[id].pending.value;
            if ResponseForPending(message, pending.kind) == None
            then x.ok && x.used == 0 && x.broker == b &&
                 LastStatus(x.events) == Some(Status(InputRequired, Some(pending.kind)))
            else if !world.responds then !x.ok && x.used == 0
            else LoopEnds(x, id, inbox, CanceledIn(b, id, inbox, x.used), Some(Status(Working, None)))
  {
    var pending := b.tasks[id].pending.value;
    var x := ResumeInputRequired(b, id, inbox, message, world);
    match ResponseForPending(message, pending.kind)
    case None => assert LastStatus(x.events) == Some(x.events[1]);
    case Some(answer) =>
      if world.responds {
        var b' := Resumed(b, id);
        TurnEndsWell(b', id, contextId, inbox);
        var y := ConsumeTurn(b', id, inbox);
        WorkingThenEnds(y, [SentResponse(pending.id, answer)], id, inbox, CanceledIn(b', id, inbox, y.used));
      }
  }

  /** What an execution comes to: it fails, and is told as failed; or it asked again without consuming
      anything; or it stopped at its last message, which decides. */
  ghost predicate Ends(b: Broker, inbox: seq<Arrival>, x: Execution, id: TaskId, contextId: ContextId) {
    && x.used <= |inbox|
    && if !x.ok then x.used > 0 ==> Breaks(inbox[x.used - 1].message) || x.used == |inbox|
       else if x.used == 0 then
         && x.broker == b && Held(b, id, contextId) && b.tasks[id].pending.Some?
         && LastStatus(x.events) == Some(Status(InputRequired, Some(b.tasks[id].pending.value.kind)))
       else EndsBy(x, id, inbox[x.used - 1].message, CanceledIn(b, id, inbox, x.used), Some(Status(Working, None)))
  }

  lemma NewTaskEnds(b: Broker, req: Request, inbox: seq<Arrival>, world: World)
    requires Comes(b, req, world) && req.stored == None && req.message.prompt.Some?
    ensures Ends(b, inbox, Execute(b, req, inbox, world), req.id, req.contextId)
  {
    var started := StartTask(b, req, world);
    StartedIsHeld(b, req, world);
    if started.ok {
      var x := StartNewTurn(started.broker, req.id, req.message.prompt.value, inbox, world);
      NewTurnEnds(started.broker, req.id, req.contextId, req.message.prompt.value, inbox, world);
      ThreadFirstEnds(b, started.broker, inbox, started.sent, x, req.id, req.contextId, world.turn == None);
    }
  }

  /** A thread request changes nothing of how the execution ends. */
  lemma ThreadFirstEnds(
    b: Broker, b': Broker, inbox: seq<Arrival>, sent: seq<Wire>, x: Execution, id: TaskId, contextId: ContextId,
    refused: bool)
    requires id !in b.tasks && (id in b'.tasks ==> !b'.tasks[id].cancelRequested)
    requires x.used <= |inbox|
    requires if refused then !x.ok && x.used == 0
             else LoopEnds(x, id, inbox, CanceledIn(b', id, inbox, x.used), Some(Status(Working, None)))
    ensures Ends(b, inbox, Then([], sent, x), id, contextId)
  {
    assert [] + x.events == x.events;
  }

  lemma ExecuteEnds(b: Broker, req: Request, inbox: seq<Arrival>, world: World)
    requires Comes(b, req, world)
    ensures Ends(b, inbox, Execute(b, req, inbox, world), req.id, req.contextId)
  {
    if req.stored == None && req.message.prompt.Some? {
      NewTaskEnds(b, req, inbox, world);
    } else if req.stored == Some(InputRequired) && req.id in b.tasks {
      if b.tasks[req.id].pending.Some? {
        ResumeEnds(b, req.id, req.contextId, inbox, req.message, world);
      } else if req.message.prompt.Some? {
        NewTurnEnds(b, req.id, req.contextId, req.message.prompt.value, inbox, world);
      }
    }
  }

  lemma {:induction false} ReportedEnds(b: Broker, req: Request, inbox: seq<Arrival>, x: Execution)
    requires Ends(b, inbox, x, req.id, req.contextId)
    ensures Ends(b, inbox, Reported(req, x), req.id, req.contextId)
    ensures !x.ok ==> LastStatus(Reported(req, x).events) == Some(Status(Failed, None))
  {
    LastStatusOfSum(Opening(req), x.events);
    if !x.ok {
      LastStatusOfSum(Opening(req) + x.events, [Status(Failed, None)]);
    }
  }

  /** The closing status of an execution is decided by the last message it consumed. */
  lemma {:induction false} ExecutionEnds(b: Broker, req: Request, inbox: seq<Arrival>, world: World)
    requires Comes(b, req, world)
    ensures var x := ExecuteStream(b, req, inbox, world);
            Ends(b, inbox, x, req.id, req.contextId) && (!x.ok ==> LastStatus(x.events) == Some(Status(Failed, None)))
  {
    ExecuteEnds(b, req, inbox, world);
    ReportedEnds(b, req, inbox, Execute(b, req, inbox, world));
  }

  /** A status that tells the end. */
  ghost predicate Tells(b: Broker, inbox: seq<Arrival>, x: Execution, id: TaskId) {
    var status := LastStatus(x.events);
    && x.used <= |inbox|
    && var interrupted := x.ok && x.used > 0 && inbox[x.used - 1].message == TurnEnded(TurnInterrupted);
    && (status == Some(Status(Canceled, None)) <==> interrupted && !CanceledIn(b, id, inbox, x.used))
    && (status == Some(Status(Working, None)) <==> interrupted && CanceledIn(b, id, inbox, x.used))
    && (status == Some(Status(Failed, None)) <==>
          || !x.ok
          || (x.used > 0 && inbox[x.used - 1].message == TurnEnded(TurnFailed))
          || (x.used > 0 && inbox[x.used - 1].message == TurnEnded(TurnUnknown)))
    && (status == Some(Status(InputRequired, None)) <==>
          x.ok && x.used > 0 && inbox[x.used - 1].message == TurnEnded(TurnDone))
  }

  lemma {:induction false} EndsTell(b: Broker, inbox: seq<Arrival>, x: Execution, id: TaskId, contextId: ContextId)
    requires Ends(b, inbox, x, id, contextId)
    requires !x.ok ==> LastStatus(x.events) == Some(Status(Failed, None))
    ensures Tells(b, inbox, x, id)
  {
  }

  /** So a task is told as canceled exactly after an interrupted turn that nobody canceled, it says nothing
      more than that it works exactly after an interrupted turn that the user canceled, it is told as failed
      exactly after an error, a failed end or an unknown one, and as ready exactly after a completed one. */
  lemma StatusTellsTheEnd(b: Broker, req: Request, inbox: seq<Arrival>, world: World)
    requires Comes(b, req, world)
    ensures Tells(b, inbox, ExecuteStream(b, req, inbox, world), req.id)
  {
    ExecutionEnds(b, req, inbox, world);
    EndsTell(b, inbox, ExecuteStream(b, req, inbox, world), req.id, req.contextId);
  }

  // ----- What becomes of the session -----

  /** Codex refused a turn, or made a thread, by the wire log. */
  ghost predicate Refused(wire: seq<Wire>) {
    exists w :: w in wire && w.SentTurnStart? && !w.accepted
  }

  ghost predicate GotThread(wire: seq<Wire>) {
    exists w :: w in wire && w.SentThread? && w.made.Some?
  }

  /** The session is kept unless the turn was refused. */
  ghost predicate KeepsSession(x: Execution, id: TaskId, contextId: ContextId, had: bool) {
    id in ContextOf(x.broker, contextId) <==> had && !Refused(x.wire)
  }

  lemma TurnKeepsSession(b: Broker, id: TaskId, contextId: ContextId, inbox: seq<Arrival>)
    requires InTurn(b, id, contextId)
    ensures KeepsSession(ConsumeTurn(b, id, inbox), id, contextId, true)
    ensures !Refused(ConsumeTurn(b, id, inbox).wire)
  {
    ConsumeSettles(b.tasks[id], inbox);
  }

  lemma FirstNotRefused(sent: Wire, wire: seq<Wire>)
    requires !Refused(wire) && (sent.SentTurnStart? ==> sent.accepted)
    ensures !Refused([sent] + wire)
  {
  }

  lemma NewTurnKeepsSession(
    b: Broker, id: TaskId, contextId: ContextId, prompt: string, inbox: seq<Arrival>, world: World)
    requires Held(b, id, contextId) && b.tasks[id].pending == None
    ensures KeepsSession(StartNewTurn(b, id, prompt, inbox, world), id, contextId, true)
  {
    var sent := SentTurnStart(SessionOf(b, id).value.threadId, prompt, world.turn.Some?);
    if world.turn == None {
      assert sent in [sent];
    } else {
      var b' := Turning(b, id, world.turn.value);
      TurnKeepsSession(b', id, contextId, inbox);
      FirstNotRefused(sent, ConsumeTurn(b', id, inbox).wire);
    }
  }

  lemma ResumeKeepsSession(
    b: Broker, id: TaskId, contextId: ContextId, inbox: seq<Arrival>, message: UserMessage, world: World)
    requires Held(b, id, contextId) && b.tasks[id].pending.Some?
    ensures KeepsSession(ResumeInputRequired(b, id, inbox, message, world), id, contextId, true)
  {
    var pending := b.tasks[id].pending.value;
    var answer := ResponseForPending(message, pending.kind);
    if answer.Some? && world.responds {
      var b' := Resumed(b, id);
      TurnKeepsSession(b', id, contextId, inbox);
      FirstNotRefused(SentResponse(pending.id, answer.value), ConsumeTurn(b', id, inbox).wire);
    }
  }

  lemma NewTaskKeepsSession(b: Broker, req: Request, inbox: seq<Arrival>, world: World)
    requires Comes(b, req, world) && req.stored == None && req.message.prompt.Some?
    ensures var x := Execute(b, req, inbox, world); KeepsSession(x, req.id, req.contextId, GotThread(x.wire))
  {
    var started := StartTask(b, req, world);
    StartedIsHeld(b, req, world);
    if started.ok {
      var x := StartNewTurn(started.broker, req.id, req.message.prompt.value, inbox, world);
      NewTurnKeepsSession(started.broker, req.id, req.contextId, req.message.prompt.value, inbox, world);
      assert started.sent[0] in started.sent + x.wire;
      assert forall w :: w in started.sent + x.wire <==> w in started.sent || w in x.wire;
    }
  }

  lemma ExecuteKeepsSession(b: Broker, req: Request, inbox: seq<Arrival>, world: World)
    requires Comes(b, req, world)
    ensures var x := Execute(b, req, inbox, world);
            KeepsSession(x, req.id, req.contextId, req.id in ContextOf(b, req.contextId) || GotThread(x.wire))
  {
    if req.stored == None && req.message.prompt.Some? {
      NewTaskKeepsSession(b, req, inbox, world);
    } else if req.stored == Some(InputRequired) && req.id in b.tasks {
      if b.tasks[req.id].pending.Some? {
        ResumeKeepsSession(b, req.id, req.contextId, inbox, req.message, world);
      } else if req.message.prompt.Some? {
        NewTurnKeepsSession(b, req.id, req.contextId, req.message.prompt.value, inbox, world);
      }
    }
  }

  /** After an execution the broker keeps the task's session, for others to branch from, exactly when it had one
      or Codex made its thread, and Codex did not refuse to start its turn. */
  lemma ExecutionKeepsSession(b: Broker, req: Request, inbox: seq<Arrival>, world: World)
    requires Comes(b, req, world)
    ensures var x := ExecuteStream(b, req, inbox, world);
            req.id in ContextOf(x.broker, req.contextId) <==>
              (req.id in ContextOf(b, req.contextId) || GotThread(x.wire)) && !Refused(x.wire)
  {
    ExecuteKeepsSession(b, req, inbox, world);
    ExecuteAgrees(b, req, inbox, world);
  }
}
