/** What a client is told: the events of a task as a function of the messages that arrived for it. */
module Telling {
  import opened Wrappers
  import opened A2A
  import opened BrokerModel
  import opened ExecutorModel
  import opened ExecutorRuns
  import opened Artifacts
  import opened Endings

  // ----- One arrival -----

  ghost predicate AnyCanceled(arrivals: seq<Arrival>) {
    exists i :: 0 <= i < |arrivals| && arrivals[i].canceled
  }

  function TextIfAny(text: string): seq<Part> {
    if text == "" then [] else [TextPart(text)]
  }

  /** A finished item: its data, and its text where it has one. */
  function ToldOfItem(item: Item, messages: seq<Message>): seq<Event> {
    match item.kind
    case AgentMessage => if item.text == "" then [] else [Artifact("assistant:" + item.id, false,
                                                                   [TextPart(item.text)])]
    case CommandExecution =>
      var output := if item.aggregatedOutput.Some? && item.aggregatedOutput.value != "" then item.aggregatedOutput.value
                    else Text(Command, messages, item.id);
      [Artifact("command:" + item.id, false, [DataPart(CommandResult(item.details, output))] + TextIfAny(output))]
    case FileChange =>
      var diff := Text(FileDiff, messages, item.id);
      [Artifact("file-change:" + item.id, false, [DataPart(FileChanges(item.details))] + TextIfAny(diff))]
    case McpToolCall => [Artifact("mcpToolCall:" + item.id, false, [DataPart(WholeItem(item))])]
    case Reasoning => [Artifact("reasoning:" + item.id, false, [DataPart(WholeItem(item))])]
    case WebSearch => [Artifact("webSearch:" + item.id, false, [DataPart(WholeItem(item))])]
    case OtherItem => []
  }

  /** How the client is asked for input, and why again. */
  function ToldToReply(kind: PendingKind, raw: string, note: string): seq<Event> {
    [Artifact("pending:user-input", false, [DataPart(PendingInput(kind, raw, note))]),
     Status(InputRequired, Some(kind))]
  }

  /** What one arrival tells, by all that arrived before it. */
  ghost function Told(before: seq<Arrival>, arrival: Arrival): seq<Event> {
    var messages := MessagesOf(before);
    match arrival.message
    case ServerRequest(_, asks, decodes, raw) =>
      if !decodes then []
      else (match asks
            case CommandApprovalRequest => ToldToReply(CommandApproval, raw, "")
            case FileApprovalRequest => ToldToReply(FileApproval, raw, "")
            case ElicitationRequest => ToldToReply(Elicitation, raw, "")
            case UnsupportedRequest => [])
    case TurnEnded(end) =>
      (match end
       case TurnDone => [Status(InputRequired, None)]
       case TurnInterrupted => if AnyCanceled(before + [arrival]) then [] else [Status(Canceled, None)]
       case TurnFailed => [Status(Failed, None)]
       case TurnUnknown => [Status(Failed, None)])
    case DiffUpdated(diff) => [Artifact("turn:diff", false, [TextPart(diff)])]
    case PlanUpdated(plan) => [Artifact("turn:plan", false, [DataPart(Plan(plan))])]
    case AgentDelta(itemId, delta) =>
      [Artifact("assistant:" + itemId, false, [TextPart(Text(Assistant, messages, itemId) + delta)])]
    case CommandDelta(itemId, delta) => [Artifact("command:" + itemId, true, [TextPart(delta)])]
    case FileChangeDelta(itemId, delta) => [Artifact("file-change:" + itemId, true, [TextPart(delta)])]
    case ItemStarted(item) =>
      if item.kind == CommandExecution then [Artifact("command:" + item.id, false,
                                                      [DataPart(CommandState(item.details))])]
      else if item.kind == FileChange then
        [Artifact("file-change:" + item.id, false, [DataPart(FileChanges(item.details))])]
      else []
    case ItemCompleted(item) => ToldOfItem(item, messages)
    case _ => []
  }

  /** What some arrivals tell, one after the other. */
  ghost function ToldAll(before: seq<Arrival>, arrivals: seq<Arrival>): seq<Event>
    decreases |arrivals|
  {
    if arrivals == [] then [] else Told(before, arrivals[0]) + ToldAll(before + [arrivals[0]], arrivals[1..])
  }

  // ----- The runtime remembers enough -----

  /** A runtime has accumulated the texts of all that arrived, and whether the user canceled. */
  ghost predicate Remembers(runtime: Runtime, before: seq<Arrival>) {
    && (runtime.cancelRequested <==> AnyCanceled(before))
    && forall stream, itemId ::
         TextOf(Accumulated(stream, runtime), itemId) == Text(stream, MessagesOf(before), itemId)
  }

  lemma CanceledOneMore(before: seq<Arrival>, arrival: Arrival)
    ensures AnyCanceled(before + [arrival]) <==> AnyCanceled(before) || arrival.canceled
  {
    var all := before + [arrival];
    assert all[|before|] == arrival;
    forall i | 0 <= i < |before| ensures all[i] == before[i] {
    }
    if AnyCanceled(before) {
      var i :| 0 <= i < |before| && before[i].canceled;
      assert all[i].canceled;
    }
  }

  lemma {:induction false} TextOneMore(before: seq<Arrival>, arrival: Arrival)
    ensures forall stream, itemId ::
              Text(stream, MessagesOf(before + [arrival]), itemId) ==
              Text(stream, MessagesOf(before), itemId) + DeltaOf(stream, arrival.message, itemId)
  {
    assert MessagesOf(before + [arrival]) == MessagesOf(before) + [arrival.message];
    forall stream, itemId
      ensures Text(stream, MessagesOf(before + [arrival]), itemId) ==
              Text(stream, MessagesOf(before), itemId) + DeltaOf(stream, arrival.message, itemId)
    {
      LastMessage(stream, MessagesOf(before), arrival.message, itemId);
    }
  }

  /** Handling a message accumulates its delta and nothing else. */
  lemma HandlingAccumulates(runtime: Runtime, message: Message, stream: Stream, itemId: string)
    requires !message.ServerRequest? && HandleNotification(runtime, message).Some?
    ensures var h := HandleNotification(runtime, message).value;
            && TextOf(Accumulated(stream, h.runtime), itemId) ==
               TextOf(Accumulated(stream, runtime), itemId) + DeltaOf(stream, message, itemId)
            && h.runtime.cancelRequested == runtime.cancelRequested
  {
  }

  lemma HandlingRemembers(runtime: Runtime, before: seq<Arrival>, arrival: Arrival)
    requires Remembers(runtime, before) && !arrival.message.ServerRequest?
    requires HandleNotification(Noticed(runtime, arrival), arrival.message).Some?
    ensures Remembers(HandleNotification(Noticed(runtime, arrival), arrival.message).value.runtime, before + [arrival])
  {
    var now := Noticed(runtime, arrival);
    CanceledOneMore(before, arrival);
    TextOneMore(before, arrival);
    HandlingAccumulates(now, arrival.message, Assistant, "");
    forall stream, itemId
      ensures TextOf(Accumulated(stream, HandleNotification(now, arrival.message).value.runtime), itemId) ==
              Text(stream, MessagesOf(before + [arrival]), itemId)
    {
      HandlingAccumulates(now, arrival.message, stream, itemId);
    }
  }

  /** Nothing more is said by a message that is not handled. */
  lemma NoticingRemembers(runtime: Runtime, before: seq<Arrival>, arrival: Arrival)
    requires Remembers(runtime, before)
    requires forall stream, itemId :: DeltaOf(stream, arrival.message, itemId) == ""
    ensures Remembers(Noticed(runtime, arrival), before + [arrival])
  {
    CanceledOneMore(before, arrival);
    TextOneMore(before, arrival);
  }

  lemma ArtifactsById(itemId: string)
    ensures ArtifactId("assistant", itemId) == "assistant:" + itemId
    ensures ArtifactId("command", itemId) == "command:" + itemId
    ensures ArtifactId("file-change", itemId) == "file-change:" + itemId
    ensures ArtifactId("mcpToolCall", itemId) == "mcpToolCall:" + itemId
    ensures ArtifactId("reasoning", itemId) == "reasoning:" + itemId
    ensures ArtifactId("webSearch", itemId) == "webSearch:" + itemId
  {
    assert "assistant" + ":" == "assistant:" && "command" + ":" == "command:" && "file-change" + ":" == "file-change:";
    assert "mcpToolCall" + ":" == "mcpToolCall:" && "reasoning" + ":" == "reasoning:" &&
        "webSearch" + ":" == "webSearch:";
  }

  lemma CompletionIsTold(runtime: Runtime, before: seq<Arrival>, item: Item)
    requires Remembers(runtime, before)
    ensures CompletedArtifactEvents(runtime, item) == ToldOfItem(item, MessagesOf(before))
  {
    ArtifactsById(item.id);
    assert TextOf(Accumulated(Command, runtime), item.id) == Text(Command, MessagesOf(before), item.id);
    assert TextOf(Accumulated(FileDiff, runtime), item.id) == Text(FileDiff, MessagesOf(before), item.id);
  }

  lemma HandlingIsTold(runtime: Runtime, before: seq<Arrival>, arrival: Arrival)
    requires Remembers(runtime, before) && !arrival.message.ServerRequest?
    ensures var h := HandleNotification(Noticed(runtime, arrival), arrival.message);
            if h == None then Told(before, arrival) == [] else h.value.events == Told(before, arrival)
  {
    var now := Noticed(runtime, arrival);
    match arrival.message
    case TurnEnded(_) => CanceledOneMore(before, arrival);
    case AgentDelta(itemId, _) =>
      ArtifactsById(itemId);
      assert TextOf(Accumulated(Assistant, runtime), itemId) == Text(Assistant, MessagesOf(before), itemId);
    case CommandDelta(itemId, _) => ArtifactsById(itemId);
    case FileChangeDelta(itemId, _) => ArtifactsById(itemId);
    case ItemStarted(item) => ArtifactsById(item.id);
    case ItemCompleted(item) =>
      CompletionIsTold(runtime, before, item);
      assert CompletedArtifactEvents(now, item) == CompletedArtifactEvents(runtime, item);
    case _ =>
  }

  // ----- The loop -----

  lemma {:induction false} ToldFirst(before: seq<Arrival>, inbox: seq<Arrival>, used: nat)
    requires 0 < used <= |inbox|
    ensures ToldAll(before, inbox[..used]) ==
            Told(before, inbox[0]) + ToldAll(before + [inbox[0]], inbox[1..][..used - 1])
    ensures before + inbox[..used] == before + [inbox[0]] + inbox[1..][..used - 1]
    ensures used == 1 ==> ToldAll(before, inbox[..used]) == Told(before, inbox[0])
    ensures used == 1 ==> before + inbox[..used] == before + [inbox[0]]
  {
    assert inbox[..used][1..] == inbox[1..][..used - 1];
  }

  /** What the loop makes of a request for the user. */
  lemma AskingIsTold(before: seq<Arrival>, arrival: Arrival)
    requires arrival.message.ServerRequest?
    ensures var pending := HandleServerRequest(arrival.message);
            Told(before, arrival) ==
            if pending == None then []
            else [PendingArtifact(pending.value, ""), InputRequiredStatus(pending.value)]
  {
  }

  lemma PendingRemembers(runtime: Runtime, before: seq<Arrival>, pending: Option<Pending>)
    requires Remembers(runtime, before)
    ensures Remembers(runtime.(pending := pending), before)
  {
    forall stream, itemId
      ensures TextOf(Accumulated(stream, runtime.(pending := pending)), itemId)
          == Text(stream, MessagesOf(before), itemId)
    {
      assert TextOf(Accumulated(stream, runtime), itemId) == Text(stream, MessagesOf(before), itemId);
    }
  }

  lemma {:induction false} RequestIsTold(runtime: Runtime, before: seq<Arrival>, inbox: seq<Arrival>)
    requires Remembers(runtime, before) && inbox != [] && inbox[0].message.ServerRequest?
    ensures var c := Consume(runtime, inbox);
            c.used == 1 && c.events == Told(before, inbox[0]) && Remembers(c.runtime, before + [inbox[0]])
  {
    var pending := HandleServerRequest(inbox[0].message);
    AskingIsTold(before, inbox[0]);
    NoticingRemembers(runtime, before, inbox[0]);
    PendingRemembers(Noticed(runtime, inbox[0]), before + [inbox[0]], pending);
  }

  /** The loop tells each message it consumes. */
  lemma {:induction false} ConsumeIsTold(runtime: Runtime, before: seq<Arrival>, inbox: seq<Arrival>)
    requires Remembers(runtime, before)
    ensures var c := Consume(runtime, inbox);
            c.events == ToldAll(before, inbox[..c.used]) && Remembers(c.runtime, before + inbox[..c.used])
    decreases |inbox|
  {
    if inbox == [] {
      assert before + inbox[..0] == before;
    } else {
      ToldFirst(before, inbox, 1);
      if inbox[0].message.ServerRequest? {
        RequestIsTold(runtime, before, inbox);
      } else {
        HandlingIsTold(runtime, before, inbox[0]);
        var h := HandleNotification(Noticed(runtime, inbox[0]), inbox[0].message);
        if h == None {
          NoticingRemembers(runtime, before, inbox[0]);
        } else {
          HandlingRemembers(runtime, before, inbox[0]);
          if h.value.outcome.Continue? {
            ConsumeIsTold(h.value.runtime, before + [inbox[0]], inbox[1..]);
            ToldFirst(before, inbox, Consume(runtime, inbox).used);
          }
        }
      }
    }
  }

  // ----- An execution -----

  /** A turn was started, or a request answered: the execution came to read messages. */
  ghost predicate Entered(wire: seq<Wire>) {
    exists i :: 0 <= i < |wire| && ((wire[i].SentTurnStart? && wire[i].accepted) || wire[i].SentResponse?)
  }

  /** What an execution tells between its first and its last event: that it works and what each message
      brings, once it reads messages; else how the user is asked again, or nothing. */
  ghost function ToldBetween(b: Broker, id: TaskId, before: seq<Arrival>, inbox: seq<Arrival>, x: Execution): seq<Event>
    requires x.used <= |inbox|
  {
    if Entered(x.wire) then [Status(Working, None)] + ToldAll(before, inbox[..x.used])
    else if x.ok && id in b.tasks && b.tasks[id].pending.Some? then
      ToldToReply(b.tasks[id].pending.value.kind, b.tasks[id].pending.value.raw, "invalid reply")
    else []
  }

  ghost predicate IsTold(b: Broker, id: TaskId, before: seq<Arrival>, inbox: seq<Arrival>, x: Execution) {
    && x.used <= |inbox| && x.events == ToldBetween(b, id, before, inbox, x)
    && (id in x.broker.tasks ==> Remembers(x.broker.tasks[id], before + inbox[..x.used]))
  }

  lemma NeverEntered(wire: seq<Wire>)
    requires forall w :: w in wire ==> w.Got? || w.SentThread? || (w.SentTurnStart? && !w.accepted)
    ensures !Entered(wire)
  {
    assert forall i :: 0 <= i < |wire| ==> wire[i] in wire;
  }

  lemma TurnIsTold(b: Broker, id: TaskId, contextId: ContextId, before: seq<Arrival>, inbox: seq<Arrival>, sent: Wire)
    requires InTurn(b, id, contextId) && Remembers(b.tasks[id], before)
    requires (sent.SentTurnStart? && sent.accepted) || sent.SentResponse?
    ensures var x := Then([Status(Working, None)], [sent], ConsumeTurn(b, id, inbox)); IsTold(b, id, before, inbox, x)
  {
    ConsumeIsTold(b.tasks[id], before, inbox);
    ConsumeSettles(b.tasks[id], inbox);
    var x := Then([Status(Working, None)], [sent], ConsumeTurn(b, id, inbox));
    assert x.wire[0] == sent;
    var c := Consume(b.tasks[id], inbox);
    if !c.ending.Paused? {
      FinishLetsGo(WithTask(b, id, c.runtime), id, contextId, true);
    }
  }

  lemma NewTurnIsTold(
    b: Broker, id: TaskId, contextId: ContextId, prompt: string, before: seq<Arrival>, inbox: seq<Arrival>,
        world: World)
    requires Held(b, id, contextId) && b.tasks[id].pending == None && Remembers(b.tasks[id], before)
    ensures IsTold(b, id, before, inbox, StartNewTurn(b, id, prompt, inbox, world))
  {
    var sent := SentTurnStart(SessionOf(b, id).value.threadId, prompt, world.turn.Some?);
    if world.turn == None {
      NeverEntered([sent]);
      FinishLetsGo(b, id, contextId, false);
    } else {
      var b' := Turning(b, id, world.turn.value);
      TurningRemembers(b.tasks[id], before, world.turn.value);
      TurnIsTold(b', id, contextId, before, inbox, sent);
    }
  }

  lemma TurningRemembers(runtime: Runtime, before: seq<Arrival>, turn: string)
    requires Remembers(runtime, before)
    ensures Remembers(runtime.(turnId := turn, turnActive := true), before)
  {
    var runtime' := runtime.(turnId := turn, turnActive := true);
    forall stream, itemId
      ensures TextOf(Accumulated(stream, runtime'), itemId) == Text(stream, MessagesOf(before), itemId)
    {
      assert TextOf(Accumulated(stream, runtime), itemId) == Text(stream, MessagesOf(before), itemId);
    }
  }

  lemma ResumeIsTold(
    b: Broker, id: TaskId, contextId: ContextId, before: seq<Arrival>, inbox: seq<Arrival>, message: UserMessage,
    world: World)
    requires Held(b, id, contextId) && b.tasks[id].pending.Some? && Remembers(b.tasks[id], before)
    ensures IsTold(b, id, before, inbox, ResumeInputRequired(b, id, inbox, message, world))
  {
    var pending := b.tasks[id].pending.value;
    match ResponseForPending(message, pending.kind)
    case None =>
      NeverEntered([]);
      assert before + inbox[..0] == before;
    case Some(answer) =>
      if !world.responds {
        NeverEntered([]);
        FinishLetsGo(b, id, contextId, true);
      } else {
        var b' := Resumed(b, id);
        PendingRemembers(b.tasks[id], before, None);
        TurnIsTold(b', id, contextId, before, inbox, SentResponse(pending.id, answer));
      }
  }

  lemma NewRemembers(id: TaskId, contextId: ContextId)
    ensures Remembers(NewRuntime(id, contextId), [])
  {
  }

  /** A thread request tells nothing. */
  lemma ThreadTellsNothing(
    b: Broker, b': Broker, id: TaskId, before: seq<Arrival>, inbox: seq<Arrival>, sent: seq<Wire>, x: Execution)
    requires IsTold(b', id, before, inbox, x) && id !in b.tasks
    requires id in b'.tasks ==> b'.tasks[id].pending == None
    requires forall w :: w in sent ==> w.SentThread?
    ensures IsTold(b, id, before, inbox, Then([], sent, x))
  {
    var y := Then([], sent, x);
    assert [] + x.events == x.events;
    forall i | 0 <= i < |sent| ensures y.wire[i].SentThread? {
      assert y.wire[i] == sent[i] && sent[i] in sent;
    }
    assert forall i :: 0 <= i < |x.wire| ==> y.wire[|sent| + i] == x.wire[i];
    assert Entered(y.wire) <==> Entered(x.wire);
  }

  lemma NewTaskIsTold(b: Broker, req: Request, inbox: seq<Arrival>, world: World)
    requires Comes(b, req, world) && req.stored == None && req.message.prompt.Some?
    ensures IsTold(b, req.id, [], inbox, Execute(b, req, inbox, world))
  {
    var started := StartTask(b, req, world);
    StartedIsHeld(b, req, world);
    NewRemembers(req.id, req.contextId);
    if started.ok {
      var prompt := req.message.prompt.value;
      NewTurnIsTold(started.broker, req.id, req.contextId, prompt, [], inbox, world);
      ThreadTellsNothing(b, started.broker, req.id, [], inbox, started.sent,
                         StartNewTurn(started.broker, req.id, prompt, inbox, world));
    } else {
      NeverEntered(started.sent);
    }
  }

  lemma ExecuteIsTold(b: Broker, req: Request, inbox: seq<Arrival>, world: World, before: seq<Arrival>)
    requires Comes(b, req, world) && (req.stored == None ==> before == [])
    requires req.id in b.tasks ==> Remembers(b.tasks[req.id], before)
    ensures IsTold(b, req.id, before, inbox, Execute(b, req, inbox, world))
  {
    NeverEntered([]);
    assert before + inbox[..0] == before;
    if req.stored == None && req.message.prompt.Some? {
      NewTaskIsTold(b, req, inbox, world);
    } else if req.stored == Some(InputRequired) && req.id in b.tasks {
      if b.tasks[req.id].pending.Some? {
        ResumeIsTold(b, req.id, req.contextId, before, inbox, req.message, world);
      } else if req.message.prompt.Some? {
        NewTurnIsTold(b, req.id, req.contextId, req.message.prompt.value, before, inbox, world);
      }
    }
  }

  /** Everything an execution tells its client is a function of what arrived for the task, before and
      during it: a new task is announced, then comes what is told between, and last of all an error. */
  lemma ExecutionIsTold(b: Broker, req: Request, inbox: seq<Arrival>, world: World, before: seq<Arrival>)
    requires Comes(b, req, world) && (req.stored == None ==> before == [])
    requires req.id in b.tasks ==> Remembers(b.tasks[req.id], before)
    ensures var x := ExecuteStream(b, req, inbox, world);
            && x.events ==
               (if req.stored == None then [Status(Submitted, None)] else [])
               + ToldBetween(b, req.id, before, inbox, x)
               + (if x.ok then [] else [Status(Failed, None)])
            && (req.id in x.broker.tasks ==> Remembers(x.broker.tasks[req.id], before + inbox[..x.used]))
  {
    ExecuteIsTold(b, req, inbox, world, before);
    ExecuteAgrees(b, req, inbox, world);
    var x := Execute(b, req, inbox, world);
    if !x.ok && req.id in x.broker.tasks {
      FinishLetsGo(x.broker, req.id, req.contextId, true);
    }
  }
}
