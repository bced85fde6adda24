/** The executor as the program has it: methods that consume a client's messages, change the runtime and
    the broker and write events. Each is proved against the function of the same name. */
module ExecutorObjects {
  import opened Wrappers
  import opened A2A
  import opened BrokerModel
  import EM = ExecutorModel
  import opened ExecutorModel
  import opened BrokerObjects
  import opened ExecutorRuns
  import opened Replies
  import opened Telling

  /** The sink of events; it accepts every one. */
  class EventQueue {
    var events: seq<Event>

    constructor ()
      ensures events == []
    {
      events := [];
    }

    method Write(event: Event)
      modifies this
      ensures events == old(events) + [event]
    {
      events := events + [event];
    }

    /** `writeEvents` */
    method WriteAll(written: seq<Event>)
      modifies this
      ensures events == old(events) + written
    {
      for i := 0 to |written|
        invariant events == old(events) + written[..i]
      {
        Write(written[i]);
      }
    }
  }

  /** What consuming amounts to when some messages are consumed already and the rest is to come. */
  function After(events: seq<Event>, used: nat, rest: Consumed): Consumed {
    rest.(events := events + rest.events, used := used + rest.used)
  }

  /** What is still to come of a loop that goes on, or has ended. */
  ghost function ToCome(runtime: Runtime, inbox: seq<Arrival>, ending: Option<Ending>): Consumed {
    match ending
    case None => EM.Consume(runtime, inbox)
    case Some(e) => Consumed(runtime, [], 0, e)
  }

  lemma AfterOneMore(events: seq<Event>, used: nat, written: seq<Event>, more: nat, rest: Consumed)
    ensures After(events, used, After(written, more, rest)) == After(events + written, used + more, rest)
  {
    assert events + (written + rest.events) == events + written + rest.events;
  }

  /** Everything outside that an execution changes: the broker, the events that left and the client. */
  datatype Outside = Outside(broker: Broker, events: seq<Event>, feed: Feed)

  /** What an execution makes of it. */
  function Followed(before: Outside, x: Execution): Outside {
    Outside(x.broker, before.events + x.events,
            Feed(if x.used <= |before.feed.inbox| then before.feed.inbox[x.used..] else [],
                 before.feed.wire + x.wire,
                 before.feed.closed || x.closed != []))
  }

  /** Sending and announcing first, and following then. */
  function Announced(before: Outside, events: seq<Event>, wire: seq<Wire>): Outside {
    before.(events := before.events + events, feed := before.feed.(wire := before.feed.wire + wire))
  }

  /** Sending first. */
  function Sending(before: Outside, wire: seq<Wire>): Outside {
    before.(feed := before.feed.(wire := before.feed.wire + wire))
  }

  /** An execution that consumes and emits nothing. */
  lemma FollowedQuietly(before: Outside, x: Execution)
    requires x.used == 0 && x.events == []
    ensures Followed(before, x) ==
            Outside(x.broker, before.events,
                    Feed(before.feed.inbox, before.feed.wire + x.wire, before.feed.closed || x.closed != []))
    ensures x.wire == [] ==> Sending(before, x.wire) == before
  {
    assert before.events + [] == before.events;
    assert before.feed.inbox[0..] == before.feed.inbox;
    assert before.feed.wire + [] == before.feed.wire;
  }

  lemma AnnouncedFirst(before: Outside, events: seq<Event>, wire: seq<Wire>, x: Execution)
    ensures Followed(Announced(before, events, wire), x) == Followed(before, Then(events, wire, x))
  {
    assert before.events + events + x.events == before.events + (events + x.events);
    assert before.feed.wire + wire + x.wire == before.feed.wire + (wire + x.wire);
  }

  lemma OpenedFirst(before: Outside, events: seq<Event>, x: Execution)
    ensures Followed(Announced(before, events, []), x) == Followed(before, x.(events := events + x.events))
  {
    assert before.events + events + x.events == before.events + (events + x.events);
    assert before.feed.wire + [] == before.feed.wire;
  }

  /** An execution leaves its own broker. */
  lemma BrokerIsReplaced(before: Outside, b: Broker, x: Execution)
    ensures Followed(before.(broker := b), x) == Followed(before, x)
  {
  }

  /** A new task's thread is made first. */
  lemma SentFirst(before: Outside, b: Broker, sent: seq<Wire>, x: Execution)
    ensures Followed(Sending(before, sent).(broker := b), x) == Followed(before, Then([], sent, x))
  {
    assert [] + x.events == x.events;
    assert before.feed.wire + sent + x.wire == before.feed.wire + (sent + x.wire);
  }

  /** The task is finished, and its client closed. */
  function TaskEnded(at: Outside, id: TaskId): Outside {
    at.(broker := Finished(at.broker, id, true),
        feed := at.feed.(closed := at.feed.closed || Handed(ClientOf(at.broker, id)) != []))
  }

  lemma ReportedFails(before: Outside, req: Request, x: Execution)
    requires !x.ok
    ensures var ended := TaskEnded(Followed(before, x.(events := Opening(req) + x.events)), req.id);
            Followed(before, Reported(req, x)) == ended.(events := ended.events + [Status(Failed, None)])
  {
    var first := Opening(req) + x.events;
    assert before.events + first + [Status(Failed, None)] == before.events + (first + [Status(Failed, None)]);
  }

  /** The feed of a client that may not be there. */
  ghost function FeedOf(client: Client?): Feed
    reads client
  {
    if client == null then Feed([], [], false) else client.State()
  }

  /** The broker's runtimes but for one that may have been dropped. */
  ghost predicate Kept(was: map<TaskId, TaskRuntime>, tasks: map<TaskId, TaskRuntime>, id: TaskId) {
    tasks == was || tasks == was - {id}
  }

  class Executor {
    const broker: TaskBroker

    constructor (broker: TaskBroker)
      ensures this.broker == broker
    {
      this.broker := broker;
    }

    /** `handleNotification`: the runtime takes in the message. */
    static method HandleNotification(runtime: TaskRuntime, message: Message)
      returns (events: seq<Event>, outcome: Outcome, ok: bool)
      requires !message.ServerRequest?
      modifies runtime
      ensures var handled := EM.HandleNotification(old(runtime.View()), message);
              if handled == None then !ok && runtime.View() == old(runtime.View())
              else ok && handled == Some(Handled(runtime.View(), events, outcome))
      ensures ok <==> message != Undecodable
      ensures outcome == if !message.TurnEnded? then Continue else if message.end == TurnDone then Pause else Finish
      ensures message.TurnEnded? ==>
                events == match message.end
                          case TurnDone => [Status(InputRequired, None)]
                          case TurnInterrupted => if old(runtime.cancelRequested) then [] else [Status(Canceled, None)]
                          case TurnFailed => [Status(Failed, None)]
                          case TurnUnknown => [Status(Failed, None)]
      ensures forall before ::
                Remembers(old(runtime.View()), before) ==> events == Told(before, Arrival(message, false))
    {
      forall before | Remembers(runtime.View(), before)
        ensures var handled := EM.HandleNotification(runtime.View(), message);
                Told(before, Arrival(message, false)) == if handled == None then [] else handled.value.events
      {
        HandlingIsTold(runtime.View(), before, Arrival(message, false));
      }
      events, outcome, ok := [], Continue, true;
      match message
      case TurnEnded(end) =>
        match end {
          case TurnDone =>
            runtime.FinishTurnForNextMessage();
            events, outcome := [Status(InputRequired, None)], Pause;
          case TurnInterrupted =>
            events, outcome := if runtime.cancelRequested then [] else [Status(Canceled, None)], Finish;
          case TurnFailed =>
            events, outcome := [Status(Failed, None)], Finish;
          case TurnUnknown =>
            events, outcome := [Status(Failed, None)], Finish;
        }
      case DiffUpdated(diff) =>
        events := [ReplaceArtifact(DIFF_ARTIFACT, [TextPart(diff)])];
      case PlanUpdated(plan) =>
        events := [ReplaceArtifact(PLAN_ARTIFACT, [DataPart(Plan(plan))])];
      case AgentDelta(itemId, delta) =>
        var text := runtime.AppendAssistantText(itemId, delta);
        events := [ReplaceArtifact(ArtifactId("assistant", itemId), [TextPart(text)])];
      case CommandDelta(itemId, delta) =>
        runtime.AppendCommandOutput(itemId, delta);
        events := [AppendArtifact(ArtifactId("command", itemId), [TextPart(delta)])];
      case FileChangeDelta(itemId, delta) =>
        runtime.AppendFileChangeDiff(itemId, delta);
        events := [AppendArtifact(ArtifactId("file-change", itemId), [TextPart(delta)])];
      case ItemStarted(item) =>
        events := StartArtifactEvents(item);
      case ItemCompleted(item) =>
        events := CompletedArtifactEvents(runtime.View(), item);
      case Undecodable =>
        ok := false;
      case _ =>
    }

    /** A server request: the runtime waits for the user, unless the request is refused. */
    static method TakeRequest(runtime: TaskRuntime, queue: EventQueue, message: Message) returns (ok: bool)
      requires message.ServerRequest?
      modifies runtime, queue
      ensures var pending := HandleServerRequest(message);
              && ok == pending.Some? && (ok <==> !Breaks(message)) && (ok ==> AskedBy(pending.value, message))
              && runtime.View() == (if ok then old(runtime.View()).(pending := pending) else old(runtime.View()))
              && queue.events == old(queue.events) +
                   (if ok then [PendingArtifact(pending.value, ""), InputRequiredStatus(pending.value)] else [])
    {
      var pending := HandleServerRequest(message);
      ok := pending.Some?;
      if ok {
        queue.WriteAll([PendingArtifact(pending.value, ""), InputRequiredStatus(pending.value)]);
        runtime.SetPending(pending.value);
      }
    }

    /** One round of the loop of `consumeTurn`; none when it goes on. */
    static method ConsumeOne(runtime: TaskRuntime, client: Client, queue: EventQueue)
      returns (ending: Option<Ending>, ghost events: seq<Event>, ghost used: nat)
      modifies runtime, client`inbox, client`wire, queue
      ensures used <= |old(client.inbox)| && client.inbox == old(client.inbox)[used..]
      ensures ending == None ==> used == 1
      ensures ToCome(old(runtime.View()), old(client.inbox), None) ==
              After(events, used, ToCome(runtime.View(), client.inbox, ending))
      ensures queue.events == old(queue.events) + events
      ensures client.wire == old(client.wire) + GotAll(old(client.inbox)[..used])
    {
      var arrival := client.Next();
      if arrival == None {
        return Some(Broken), [], 0;
      }
      var message := arrival.value.message;
      runtime.cancelRequested := runtime.cancelRequested || arrival.value.canceled;
      assert old(client.inbox)[0] == arrival.value;
      if message.ServerRequest? {
        var ok := TakeRequest(runtime, queue, message);
        return Some(if ok then Paused else Broken), queue.events[|old(queue.events)|..], 1;
      }
      var written, outcome, ok := HandleNotification(runtime, message);
      if !ok {
        return Some(Broken), [], 1;
      }
      queue.WriteAll(written);
      ending := match outcome
        case Continue => None
        case Pause => Some(Paused)
        case Finish => Some(Ended);
      return ending, written, 1;
    }

    /** The loop of `consumeTurn`. */
    static method Consume(runtime: TaskRuntime, client: Client, queue: EventQueue)
      returns (ending: Ending, ghost c: Consumed)
      modifies runtime, client`inbox, client`wire, queue
      ensures c == EM.Consume(old(runtime.View()), old(client.inbox))
      ensures runtime.View() == c.runtime && ending == c.ending
      ensures queue.events == old(queue.events) + c.events
      ensures client.inbox == old(client.inbox)[c.used..]
      ensures client.wire == old(client.wire) + GotAll(old(client.inbox)[..c.used])
    {
      ghost var whole := ToCome(runtime.View(), client.inbox, None);
      ghost var inbox := client.inbox;
      ghost var events: seq<Event> := [];
      ghost var used: nat := 0;
      var end: Option<Ending> := None;
      while end == None
        invariant used <= |inbox| && client.inbox == inbox[used..]
        invariant whole == After(events, used, ToCome(runtime.View(), client.inbox, end))
        invariant queue.events == old(queue.events) + events
        invariant client.wire == old(client.wire) + GotAll(inbox[..used])
        decreases end == None, |client.inbox|
      {
        ghost var written, more;
        end, written, more := ConsumeOne(runtime, client, queue);
        AfterOneMore(events, used, written, more, ToCome(runtime.View(), client.inbox, end));
        events, used := events + written, used + more;
      }
      ending := end.value;
      c := Consumed(runtime.View(), events, used, ending);
    }

    /** The loop on the runtime of an active task, which the broker's view follows. */
    method ConsumeNoted(id: TaskId, runtime: TaskRuntime, queue: EventQueue) returns (ending: Ending, ghost c: Consumed)
      requires broker.Valid() && id in broker.tasks && runtime == broker.tasks[id]
      modifies broker`runtimes, runtime, runtime.client`inbox, runtime.client`wire, queue
      ensures broker.Valid()
      ensures c == EM.Consume(old(broker.View()).tasks[id], old(runtime.client.inbox))
      ensures broker.View() == WithTask(old(broker.View()), id, c.runtime) && ending == c.ending
      ensures queue.events == old(queue.events) + c.events
      ensures runtime.client.inbox == old(runtime.client.inbox)[c.used..]
      ensures runtime.client.wire == old(runtime.client.wire) + GotAll(old(runtime.client.inbox)[..c.used])
    {
      assert forall t :: t in broker.tasks ==> broker.Filed(t);
      ending, c := Consume(runtime, runtime.client, queue);
      broker.Note(id);
    }

    /** The broker, the events and the client as they are. */
    ghost function Now(queue: EventQueue, client: Client?): Outside
      reads broker, queue, client
    {
      Outside(broker.View(), queue.events, FeedOf(client))
    }

    /** The end of `consumeTurn`: the task is finished unless the loop paused. */
    method Settle(id: TaskId, runtime: TaskRuntime, queue: EventQueue, ending: Ending, ghost before: Outside,
                  ghost c: Consumed)
      returns (ok: bool, ghost x: Execution)
      requires broker.Valid() && id in broker.tasks && runtime == broker.tasks[id]
      requires c.used <= |before.feed.inbox| && ending == c.ending
      requires Now(queue, runtime.client) ==
               Outside(WithTask(before.broker, id, c.runtime), before.events + c.events,
                       Feed(before.feed.inbox[c.used..], before.feed.wire + GotAll(before.feed.inbox[..c.used]),
                            before.feed.closed))
      modifies broker, runtime.client`closed
      ensures broker.Valid() && Kept(old(broker.tasks), broker.tasks, id)
      ensures x == AfterConsuming(before.broker, id, before.feed.inbox, c) && ok == x.ok
      ensures Now(queue, runtime.client) == Followed(before, x)
    {
      assert broker.Filed(id);
      x := AfterConsuming(before.broker, id, before.feed.inbox, c);
      if ending != Paused {
        var _ := broker.FinishTaskWithPolicy(id, true);
      }
      ok := ending != Broken;
    }

    /** `consumeTurn` */
    method ConsumeTurn(id: TaskId, runtime: TaskRuntime, queue: EventQueue) returns (ok: bool, ghost x: Execution)
      requires broker.Valid() && id in broker.tasks && runtime == broker.tasks[id]
      modifies broker, runtime, runtime.client, queue
      ensures broker.Valid() && Kept(old(broker.tasks), broker.tasks, id)
      ensures x == EM.ConsumeTurn(old(broker.View()), id, old(runtime.client.inbox)) && ok == x.ok
      ensures Now(queue, runtime.client) == Followed(old(Now(queue, runtime.client)), x)
    {
      ghost var before := Now(queue, runtime.client);
      var ending;
      ghost var c;
      ending, c := ConsumeNoted(id, runtime, queue);
      ok, x := Settle(id, runtime, queue, ending, before, c);
    }

    /** The status and the loop that follow a turn's start or an answer, which was sent already. */
    method GoOn(id: TaskId, runtime: TaskRuntime, queue: EventQueue, ghost before: Outside, ghost sent: Wire)
      returns (ok: bool, ghost x: Execution)
      requires broker.Valid() && id in broker.tasks && runtime == broker.tasks[id]
      requires Now(queue, runtime.client) == Sending(before, [sent])
      modifies broker, runtime, runtime.client, queue
      ensures broker.Valid() && Kept(old(broker.tasks), broker.tasks, id)
      ensures x == Then([Status(Working, None)], [sent], EM.ConsumeTurn(before.broker, id, before.feed.inbox)) &&
          ok == x.ok
      ensures Now(queue, runtime.client) == Followed(before, x)
    {
      queue.Write(Status(Working, None));
      assert Now(queue, runtime.client) == Announced(before, [Status(Working, None)], [sent]);
      ok, x := ConsumeTurn(id, runtime, queue);
      AnnouncedFirst(before, [Status(Working, None)], [sent], x);
      x := Then([Status(Working, None)], [sent], x);
    }

    /** A turn of the runtime is started, which the broker's view follows. */
    method BeginTurn(id: TaskId, runtime: TaskRuntime, turn: string)
      requires broker.Valid() && id in broker.tasks && runtime == broker.tasks[id]
      modifies broker`runtimes, runtime
      ensures broker.Valid()
      ensures broker.View() == Turning(old(broker.View()), id, turn)
    {
      assert forall t :: t in broker.tasks ==> broker.Filed(t);
      runtime.StartTurn(turn);
      broker.Note(id);
    }

    /** The pending request of the runtime is answered. */
    method EndPending(id: TaskId, runtime: TaskRuntime)
      requires broker.Valid() && id in broker.tasks && runtime == broker.tasks[id]
      modifies broker`runtimes, runtime
      ensures broker.Valid()
      ensures broker.View() == Resumed(old(broker.View()), id)
    {
      assert forall t :: t in broker.tasks ==> broker.Filed(t);
      runtime.ClearPending();
      broker.Note(id);
    }

    /** The execution fails before the loop: the task is finished, or discarded. */
    method Abort(id: TaskId, runtime: TaskRuntime, preserve: bool, ghost queue: EventQueue, ghost before: Outside,
                 ghost sent: seq<Wire>)
      returns (ghost x: Execution)
      requires broker.Valid() && id in broker.tasks && runtime == broker.tasks[id]
      requires Now(queue, runtime.client) == Sending(before, sent)
      modifies broker, runtime.client`closed
      ensures broker.Valid() && Kept(old(broker.tasks), broker.tasks, id)
      ensures x == Aborted(before.broker, id, preserve, sent)
      ensures Now(queue, runtime.client) == Followed(before, x)
    {
      assert broker.Filed(id);
      x := Aborted(before.broker, id, preserve, sent);
      FollowedQuietly(before, x);
      var _ := broker.FinishTaskWithPolicy(id, preserve);
    }

    /** A reply that does not answer: the request is shown again. */
    method AskAgain(id: TaskId, runtime: TaskRuntime, queue: EventQueue) returns (ghost x: Execution)
      requires broker.Valid() && runtime.pending.Some?
      modifies queue
      ensures broker.Valid() && Kept(old(broker.tasks), broker.tasks, id)
      ensures x == Asked(broker.View(), runtime.pending.value)
      ensures Now(queue, runtime.client) == Followed(old(Now(queue, runtime.client)), x)
    {
      x := Asked(broker.View(), runtime.pending.value);
      queue.WriteAll([PendingArtifact(runtime.pending.value, "invalid reply"),
                      InputRequiredStatus(runtime.pending.value)]);
    }

    /** The answer is sent and the loop goes on. */
    method AnswerPending(id: TaskId, runtime: TaskRuntime, answer: Answer, queue: EventQueue)
      returns (ok: bool, ghost x: Execution)
      requires broker.Valid() && id in broker.tasks && runtime == broker.tasks[id] && runtime.pending.Some?
      modifies broker, runtime, runtime.client, queue
      ensures broker.Valid() && Kept(old(broker.tasks), broker.tasks, id)
      ensures x == Then([Status(Working, None)], [SentResponse(old(runtime.pending.value.id), answer)],
                        EM.ConsumeTurn(Resumed(old(broker.View()), id), id, old(runtime.client.inbox)))
      ensures ok == x.ok && Now(queue, runtime.client) == Followed(old(Now(queue, runtime.client)), x)
    {
      ghost var before := Now(queue, runtime.client);
      ghost var sent := SentResponse(runtime.pending.value.id, answer);
      runtime.client.Respond(runtime.pending.value.id, answer);
      EndPending(id, runtime);
      ghost var before' := before.(broker := Resumed(before.broker, id));
      assert Now(queue, runtime.client) == Sending(before', [sent]);
      ok, x := GoOn(id, runtime, queue, before', sent);
      BrokerIsReplaced(before, before'.broker, x);
    }

    /** The turn is started and the loop entered. */
    method EnterTurn(id: TaskId, runtime: TaskRuntime, turn: string, queue: EventQueue, ghost before: Outside,
                     ghost sent: Wire)
      returns (ok: bool, ghost x: Execution)
      requires broker.Valid() && id in broker.tasks && runtime == broker.tasks[id]
      requires Now(queue, runtime.client) == Sending(before, [sent])
      modifies broker, runtime, runtime.client, queue
      ensures broker.Valid() && Kept(old(broker.tasks), broker.tasks, id)
      ensures id in before.broker.tasks
      ensures x == Then([Status(Working, None)], [sent],
                        EM.ConsumeTurn(Turning(before.broker, id, turn), id, before.feed.inbox))
      ensures ok == x.ok && Now(queue, runtime.client) == Followed(before, x)
    {
      BeginTurn(id, runtime, turn);
      ghost var before' := before.(broker := Turning(before.broker, id, turn));
      assert Now(queue, runtime.client) == Sending(before', [sent]);
      ok, x := GoOn(id, runtime, queue, before', sent);
      BrokerIsReplaced(before, before'.broker, x);
    }

    /** The `turn/start` request for the thread of the task's session. */
    method SendTurnStart(id: TaskId, runtime: TaskRuntime, prompt: string, turn: Option<string>,
                         ghost queue: EventQueue)
      returns (ghost sent: Wire)
      requires broker.Valid() && id in broker.tasks && runtime == broker.tasks[id]
      modifies runtime.client`wire
      ensures broker.Valid() && SessionOf(broker.View(), id).Some?
      ensures sent == SentTurnStart(SessionOf(broker.View(), id).value.threadId, prompt, turn.Some?)
      ensures Now(queue, runtime.client) == Sending(old(Now(queue, runtime.client)), [sent])
    {
      assert broker.Filed(id);
      var threadId := broker.contexts[runtime.contextId][id].threadId;
      sent := SentTurnStart(threadId, prompt, turn.Some?);
      runtime.client.StartTurn(threadId, prompt, turn);
    }

    /** `startNewTurn`; `turn` is what Codex answers. */
    method StartNewTurn(id: TaskId, runtime: TaskRuntime, prompt: string, queue: EventQueue, turn: Option<string>,
                        ghost world: World)
      returns (ok: bool, ghost x: Execution)
      requires broker.Valid() && id in broker.tasks && runtime == broker.tasks[id]
      requires world.turn == turn
      modifies broker, runtime, runtime.client, queue
      ensures broker.Valid() && Kept(old(broker.tasks), broker.tasks, id)
      ensures SessionOf(old(broker.View()), id).Some?
      ensures x == EM.StartNewTurn(old(broker.View()), id, prompt, old(runtime.client.inbox), world) && ok == x.ok
      ensures Now(queue, runtime.client) == Followed(old(Now(queue, runtime.client)), x)
    {
      ghost var before := Now(queue, runtime.client);
      ghost var sent := SendTurnStart(id, runtime, prompt, turn, queue);
      if turn == None {
        x := Abort(id, runtime, false, queue, before, [sent]);
        ok := false;
      } else {
        ok, x := EnterTurn(id, runtime, turn.value, queue, before, sent);
      }
    }

    /** An answer is written, or the task is finished. */
    method Reply(id: TaskId, runtime: TaskRuntime, answer: Answer, responds: bool, queue: EventQueue)
      returns (ok: bool, ghost x: Execution)
      requires broker.Valid() && id in broker.tasks && runtime == broker.tasks[id] && runtime.pending.Some?
      modifies broker, runtime, runtime.client, queue
      ensures broker.Valid() && Kept(old(broker.tasks), broker.tasks, id)
      ensures x == if !responds then Aborted(old(broker.View()), id, true, [])
                   else Then([Status(Working, None)], [SentResponse(old(runtime.pending.value.id), answer)],
                             EM.ConsumeTurn(Resumed(old(broker.View()), id), id, old(runtime.client.inbox)))
      ensures ok == x.ok && Now(queue, runtime.client) == Followed(old(Now(queue, runtime.client)), x)
    {
      if responds {
        ok, x := AnswerPending(id, runtime, answer, queue);
      } else {
        ghost var before := Now(queue, runtime.client);
        assert before.feed.wire + [] == before.feed.wire;
        x := Abort(id, runtime, true, queue, before, []);
        ok := false;
      }
    }

    /** `resumeInputRequired`; `responds` says whether the answer could be written. */
    method ResumeInputRequired(id: TaskId, runtime: TaskRuntime, message: UserMessage, queue: EventQueue,
                               responds: bool,
                               ghost world: World)
      returns (ok: bool, ghost x: Execution)
      requires broker.Valid() && id in broker.tasks && runtime == broker.tasks[id] && runtime.pending.Some?
      requires world.responds == responds
      modifies broker, runtime, runtime.client, queue
      ensures broker.Valid() && Kept(old(broker.tasks), broker.tasks, id)
      ensures old(broker.View()).tasks[id].pending.Some?
      ensures x == EM.ResumeInputRequired(old(broker.View()), id, old(runtime.client.inbox), message, world) &&
          ok == x.ok
      ensures AnswersOf(x.wire, old(runtime.pending.value), message, responds)
      ensures Now(queue, runtime.client) == Followed(old(Now(queue, runtime.client)), x)
    {
      assert broker.Filed(id) && runtime.View() == broker.View().tasks[id];
      ghost var b, inbox := broker.View(), runtime.client.inbox;
      match ResponseForPending(message, runtime.pending.value.kind) {
        case None =>
          x := AskAgain(id, runtime, queue);
          ok := true;
        case Some(answer) =>
          ok, x := Reply(id, runtime, answer, responds, queue);
      }
      ResumeAnswersAll(b, id, inbox, message, world);
    }

    /** The start of a task, or the failure of it. */
    method StartOrFail(req: Request, world: World, launched: Client?, ghost queue: EventQueue)
      returns (runtime: TaskRuntime?, ghost order: seq<TaskId>, ghost started: Started)
      requires broker.Valid() && req.id !in broker.tasks && world.client == IdOf(launched)
      modifies broker, (if launched == null then {} else {launched})`closed,
               (if launched == null then {} else {launched})`wire
      ensures broker.Valid() && Visits(ContextOf(old(broker.View()), req.contextId), order)
      ensures started == EM.StartTask(old(broker.View()), req, world.(order := order))
      ensures started.ok <==> runtime != null
      ensures runtime == null ==>
                req.id !in broker.tasks &&
                Now(queue, launched) ==
                Followed(old(Now(queue, launched)), Fails(started.broker, started.sent, started.closed))
      ensures runtime != null ==>
                && req.id in broker.tasks && broker.tasks[req.id] == runtime && runtime.client == launched &&
                    fresh(runtime)
                && Now(queue, launched) == Sending(old(Now(queue, launched)), started.sent).(broker := started.broker)
    {
      ghost var before := Now(queue, launched);
      runtime, order := broker.StartTask(req, world, launched);
      started := EM.StartTask(before.broker, req, world.(order := order));
      if runtime == null {
        FollowedQuietly(before, Fails(started.broker, started.sent, started.closed));
      }
    }

    /** A request that starts a task. `launched` is the client that launch returns, if it does. */
    method ExecuteNew(req: Request, queue: EventQueue, world: World, launched: Client?)
      returns (ok: bool, ghost order: seq<TaskId>, ghost x: Execution)
      requires broker.Valid() && req.stored == None && req.id !in broker.tasks && world.client == IdOf(launched)
      modifies broker, queue, (if launched == null then {} else {launched})
      ensures broker.Valid() && Ready(old(broker.View()), req, world.(order := order))
      ensures x == EM.Execute(old(broker.View()), req, old(FeedOf(launched)).inbox, world.(order := order)) &&
          ok == x.ok
      ensures req.id in broker.tasks ==> broker.tasks[req.id].client == launched
      ensures Now(queue, launched) == Followed(old(Now(queue, launched)), x)
    {
      ghost var before := Now(queue, launched);
      order := Enumeration(ContextOf(broker.View(), req.contextId).Keys);
      if req.message.prompt == None {
        x := Fails(broker.View(), [], []);
        FollowedQuietly(before, x);
        return false, order, x;
      }
      var runtime;
      ghost var started;
      runtime, order, started := StartOrFail(req, world, launched, queue);
      if runtime == null {
        ok, x := false, Fails(started.broker, started.sent, started.closed);
      } else {
        ok, x := StartNewTurn(req.id, runtime, req.message.prompt.value, queue, world.turn, world.(order := order));
        SentFirst(before, started.broker, started.sent, x);
        x := Then([], started.sent, x);
      }
    }

    /** A request that continues a task; `client` is the client of its runtime. */
    method ExecuteStored(req: Request, queue: EventQueue, world: World, ghost client: Client?)
      returns (ok: bool, ghost order: seq<TaskId>, ghost x: Execution)
      requires broker.Valid() && req.stored.Some? && client == broker.ClientFor(req.id)
      modifies broker, queue, (if client == null then {} else {client}),
               (set t | t in broker.tasks && t == req.id :: broker.tasks[t])
      ensures broker.Valid() && Ready(old(broker.View()), req, world.(order := order))
      ensures x == EM.Execute(old(broker.View()), req, old(FeedOf(client)).inbox, world.(order := order)) && ok == x.ok
      ensures req.id in broker.tasks ==> broker.tasks[req.id].client == client
      ensures Now(queue, client) == Followed(old(Now(queue, client)), x)
    {
      order := Enumeration(ContextOf(broker.View(), req.contextId).Keys);
      ghost var failed := Fails(broker.View(), [], []);
      FollowedQuietly(Now(queue, client), failed);
      assert req.id in broker.tasks ==> broker.Filed(req.id);
      assert Ready(broker.View(), req, world.(order := order));
      if req.stored.value != InputRequired {
        return false, order, failed;
      }
      var runtime := broker.Task(req.id);
      if runtime == null {
        return false, order, failed;
      }
      assert broker.Filed(req.id);
      if runtime.pending.Some? {
        ok, x := ResumeInputRequired(req.id, runtime, req.message, queue, world.responds, world.(order := order));
      } else if req.message.prompt == None {
        return false, order, failed;
      } else {
        ok, x := StartNewTurn(req.id, runtime, req.message.prompt.value, queue, world.turn, world.(order := order));
      }
    }

    /** `execute`. The client that serves the task is the launched one for a new task, else that of its
        runtime. */
    method Execute(req: Request, queue: EventQueue, world: World, launched: Client?, ghost client: Client?)
      returns (ok: bool, ghost order: seq<TaskId>, ghost x: Execution)
      requires broker.Valid() && (req.stored == None ==> req.id !in broker.tasks) && world.client == IdOf(launched)
      requires client == if req.stored == None then launched else broker.ClientFor(req.id)
      modifies broker, queue, (if launched == null then {} else {launched}), (if client == null then {} else {client}),
               (set t | t in broker.tasks && t == req.id :: broker.tasks[t])
      ensures broker.Valid() && Ready(old(broker.View()), req, world.(order := order))
      ensures x == EM.Execute(old(broker.View()), req, old(FeedOf(client)).inbox, world.(order := order)) && ok == x.ok
      ensures req.id in broker.tasks ==> broker.tasks[req.id].client == client
      ensures Now(queue, client) == Followed(old(Now(queue, client)), x)
    {
      if req.stored == None {
        ok, order, x := ExecuteNew(req, queue, world, launched);
      } else {
        ok, order, x := ExecuteStored(req, queue, world, client);
      }
    }

    /** `finishTask`, after an error. */
    method FinishAfterError(id: TaskId, ghost queue: EventQueue, ghost client: Client?)
      requires broker.Valid() && (id in broker.tasks ==> broker.tasks[id].client == client)
      modifies broker, (if client == null then {} else {client})`closed
      ensures broker.Valid() && Now(queue, client) == TaskEnded(old(Now(queue, client)), id)
    {
      assert id in broker.tasks ==> broker.Filed(id);
      assert Handed(ClientOf(broker.View(), id)) == if id in broker.tasks then [client.id] else [];
      var _ := broker.FinishTaskWithPolicy(id, true);
    }

    /** An error of `execute`: the task is finished if it is still there, and failed. */
    method Fail(req: Request, queue: EventQueue, ghost client: Client?, ghost before: Outside, ghost x: Execution)
      requires broker.Valid() && !x.ok
      requires req.id in broker.tasks ==> broker.tasks[req.id].client == client
      requires Now(queue, client) == Followed(before, x.(events := Opening(req) + x.events))
      modifies broker, queue, (if client == null then {} else {client})`closed
      ensures broker.Valid() && Now(queue, client) == Followed(before, Reported(req, x))
    {
      FinishAfterError(req.id, queue, client);
      queue.Write(Status(Failed, None));
      ReportedFails(before, req, x);
    }

    /** The first event of a new task. */
    method Open(req: Request, queue: EventQueue, ghost client: Client?)
      requires broker.Valid()
      modifies queue
      ensures broker.Valid() && Now(queue, client) == Announced(old(Now(queue, client)), Opening(req), [])
    {
      if req.stored == None {
        queue.Write(Status(Submitted, None));
      }
    }

    /** `executeStream` */
    method ExecuteStream(req: Request, queue: EventQueue, world: World, launched: Client?, ghost client: Client?)
      returns (ghost order: seq<TaskId>, ghost x: Execution)
      requires broker.Valid() && (req.stored == None ==> req.id !in broker.tasks) && world.client == IdOf(launched)
      requires client == if req.stored == None then launched else broker.ClientFor(req.id)
      modifies broker, queue, (if launched == null then {} else {launched}), (if client == null then {} else {client}),
               (set t | t in broker.tasks && t == req.id :: broker.tasks[t])
      ensures broker.Valid() && Ready(old(broker.View()), req, world.(order := order))
      ensures x == EM.ExecuteStream(old(broker.View()), req, old(FeedOf(client)).inbox, world.(order := order))
      ensures Now(queue, client) == Followed(old(Now(queue, client)), x)
    {
      ghost var before := Now(queue, client);
      Open(req, queue, client);
      var ok;
      ok, order, x := Execute(req, queue, world, launched, client);
      OpenedFirst(before, Opening(req), x);
      if !ok {
        Fail(req, queue, client, before, x);
      }
      x := Reported(req, x);
    }
  }
}
