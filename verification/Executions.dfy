/** One execution, for the life of its task: what a client has seen by its end, where it stops and what it reads. */
module Executions {
  import opened Wrappers
  import opened A2A
  import opened BrokerModel
  import opened ExecutorModel
  import opened ExecutorRuns
  import opened Artifacts

  // ----- One execution, for the visible text -----

  /** A client's view of one item: the visible text is what the consumed messages make of it, and a
      held runtime has accumulated their deltas. */
  ghost predicate Seen(
    shown: Shown, b: Broker, id: TaskId, messages: seq<Message>, stream: Stream, itemId: string)
  {
    && Visible(shown, ArtifactId(Prefix(stream), itemId)) == View(stream, messages, itemId)
    && (id in b.tasks ==> TextOf(Accumulated(stream, b.tasks[id]), itemId) == Text(stream, messages, itemId))
  }

  lemma {:induction false} TurnIsSeen(
    shown: Shown, b: Broker, id: TaskId, inbox: seq<Arrival>, messages: seq<Message>, stream: Stream, itemId: string)
    requires id in b.tasks && Seen(shown, b, id, messages, stream, itemId)
    ensures var x := ConsumeTurn(b, id, inbox);
            Seen(ApplyAll(shown, x.events), x.broker, id, messages + MessagesOf(inbox[..x.used]), stream, itemId)
  {
    ConsumeInStep(shown, b.tasks[id], messages, inbox, stream, itemId);
    TurnLeaves(b, id, inbox);
  }

  /** The loop leaves its runtime, or none. */
  lemma {:induction false} TurnLeaves(b: Broker, id: TaskId, inbox: seq<Arrival>)
    requires id in b.tasks
    ensures var x, c := ConsumeTurn(b, id, inbox), Consume(b.tasks[id], inbox);
            && x.events == c.events && x.used == c.used
            && (id in x.broker.tasks ==> x.broker.tasks[id] == c.runtime)
  {
  }

  lemma NothingUsed(messages: seq<Message>, inbox: seq<Arrival>)
    ensures messages + MessagesOf(inbox[..0]) == messages
  {
  }

  lemma NothingFirst(x: Execution, sent: seq<Wire>)
    ensures Then([], sent, x).events == x.events && Then([], sent, x).used == x.used
  {
  }

  lemma {:induction false} NewTurnIsSeen(
    shown: Shown, b: Broker, id: TaskId, prompt: string, inbox: seq<Arrival>, world: World, messages: seq<Message>,
    stream: Stream, itemId: string)
    requires id in b.tasks && SessionOf(b, id).Some? && Seen(shown, b, id, messages, stream, itemId)
    ensures var x := StartNewTurn(b, id, prompt, inbox, world);
            Seen(ApplyAll(shown, x.events), x.broker, id, messages + MessagesOf(inbox[..x.used]), stream, itemId)
  {
    NothingUsed(messages, inbox);
    if world.turn.Some? {
      var b' := Turning(b, id, world.turn.value);
      TurnIsSeen(shown, b', id, inbox, messages, stream, itemId);
    }
  }

  lemma {:induction false} ResumeIsSeen(
    shown: Shown, b: Broker, id: TaskId, inbox: seq<Arrival>, message: UserMessage, world: World,
    messages: seq<Message>, stream: Stream, itemId: string)
    requires id in b.tasks && b.tasks[id].pending.Some? && Seen(shown, b, id, messages, stream, itemId)
    ensures var x := ResumeInputRequired(b, id, inbox, message, world);
            Seen(ApplyAll(shown, x.events), x.broker, id, messages + MessagesOf(inbox[..x.used]), stream, itemId)
  {
    NothingUsed(messages, inbox);
    var pending := b.tasks[id].pending.value;
    if ResponseForPending(message, pending.kind) == None {
      FixedArtifactsSpare(stream, itemId);
      SparedStays(shown, ResumeInputRequired(b, id, inbox, message, world).events, stream, itemId);
    } else if world.responds {
      var b' := Resumed(b, id);
      TurnIsSeen(shown, b', id, inbox, messages, stream, itemId);
    }
  }

  lemma {:induction false} ExecuteIsSeen(
    shown: Shown, b: Broker, req: Request, inbox: seq<Arrival>, world: World, messages: seq<Message>,
    stream: Stream, itemId: string)
    requires Comes(b, req, world) && (req.stored == None ==> messages == [])
    requires Seen(shown, b, req.id, messages, stream, itemId)
    ensures var x := Execute(b, req, inbox, world);
            Seen(ApplyAll(shown, x.events), x.broker, req.id, messages + MessagesOf(inbox[..x.used]), stream, itemId)
  {
    NothingUsed(messages, inbox);
    if req.stored == None && req.message.prompt.Some? {
      StartedIsHeld(b, req, world);
      var started := StartTask(b, req, world);
      if started.ok {
        var prompt := req.message.prompt.value;
        NewTurnIsSeen(shown, started.broker, req.id, prompt, inbox, world, messages, stream, itemId);
        NothingFirst(StartNewTurn(started.broker, req.id, prompt, inbox, world), started.sent);
      }
    } else if req.stored == Some(InputRequired) && req.id in b.tasks {
      if b.tasks[req.id].pending.Some? {
        ResumeIsSeen(shown, b, req.id, inbox, req.message, world, messages, stream, itemId);
      } else if req.message.prompt.Some? {
        NewTurnIsSeen(shown, b, req.id, req.message.prompt.value, inbox, world, messages, stream, itemId);
      }
    }
  }

  lemma {:induction false} ExecutionIsSeen(
    shown: Shown, b: Broker, req: Request, inbox: seq<Arrival>, world: World, messages: seq<Message>,
    stream: Stream, itemId: string)
    requires Comes(b, req, world) && (req.stored == None ==> messages == [])
    requires Seen(shown, b, req.id, messages, stream, itemId)
    ensures var x := ExecuteStream(b, req, inbox, world);
            Seen(ApplyAll(shown, x.events), x.broker, req.id, messages + MessagesOf(inbox[..x.used]), stream, itemId)
  {
    ExecuteIsSeen(shown, b, req, inbox, world, messages, stream, itemId);
    var x := Execute(b, req, inbox, world);
    var first := if req.stored == None then [Status(Submitted, None)] else [];
    assert [] + x.events == x.events;
    if !x.ok {
      ApplyAllOfSum(shown, first + x.events, [Status(Failed, None)]);
      assert [Status(Failed, None)] + [] == [Status(Failed, None)];
      if req.id in x.broker.tasks {
        assert req.id !in Finished(x.broker, req.id, true).tasks;
      }
    }
  }

  /** A successful execution that consumed anything stopped at its last message, and not before. */
  ghost predicate StopsWell(x: Execution, inbox: seq<Arrival>) {
    && x.used <= |inbox|
    && (forall i :: 0 <= i < x.used - 1 ==> !Stops(inbox[i].message))
    && (x.ok && x.used > 0 ==> Stops(inbox[x.used - 1].message))
  }

  lemma NewTurnStopsWell(b: Broker, id: TaskId, prompt: string, inbox: seq<Arrival>, world: World)
    requires id in b.tasks && SessionOf(b, id).Some? && b.tasks[id].pending == None
    ensures StopsWell(StartNewTurn(b, id, prompt, inbox, world), inbox)
  {
    if world.turn.Some? {
      ConsumeSettles(b.tasks[id].(turnId := world.turn.value, turnActive := true), inbox);
    }
  }

  lemma ResumeStopsWell(b: Broker, id: TaskId, inbox: seq<Arrival>, message: UserMessage, world: World)
    requires id in b.tasks && b.tasks[id].pending.Some?
    ensures StopsWell(ResumeInputRequired(b, id, inbox, message, world), inbox)
  {
    ConsumeSettles(b.tasks[id].(pending := None), inbox);
  }

  lemma NewTaskStopsWell(b: Broker, req: Request, inbox: seq<Arrival>, world: World)
    requires Comes(b, req, world) && req.stored == None && req.message.prompt.Some?
    ensures StopsWell(Execute(b, req, inbox, world), inbox)
  {
    StartedIsHeld(b, req, world);
    var started := StartTask(b, req, world);
    if started.ok {
      NewTurnStopsWell(started.broker, req.id, req.message.prompt.value, inbox, world);
    }
  }

  /** An execution that succeeds and consumes anything stops exactly at the first server request or
      end of a turn. */
  lemma ExecutionStopsAtBoundary(b: Broker, req: Request, inbox: seq<Arrival>, world: World)
    requires Comes(b, req, world)
    ensures StopsWell(ExecuteStream(b, req, inbox, world), inbox)
  {
    if req.stored == None && req.message.prompt.Some? {
      NewTaskStopsWell(b, req, inbox, world);
    } else if req.stored == Some(InputRequired) && req.id in b.tasks {
      if b.tasks[req.id].pending.Some? {
        ResumeStopsWell(b, req.id, inbox, req.message, world);
      } else if req.message.prompt.Some? {
        NewTurnStopsWell(b, req.id, req.message.prompt.value, inbox, world);
      }
    }
  }

  /** A reply that does not answer the pending request changes nothing but to ask again: neither the
      broker nor the stream nor the wire. */
  lemma {:induction false} MalformedReplyStutters(b: Broker, req: Request, inbox: seq<Arrival>, world: World)
    requires Comes(b, req, world) && req.stored == Some(InputRequired)
    requires req.id in b.tasks && b.tasks[req.id].pending.Some?
    requires ResponseForPending(req.message, b.tasks[req.id].pending.value.kind) == None
    ensures var x := ExecuteStream(b, req, inbox, world);
            && x.ok && x.broker == b && x.used == 0 && x.wire == [] && x.closed == []
            && LastStatus(x.events) == Some(Status(InputRequired, Some(b.tasks[req.id].pending.value.kind)))
  {
    var x := ExecuteStream(b, req, inbox, world);
    assert LastStatus(x.events) == Some(x.events[1]);
  }

  // ----- What is read from Codex -----

  /** The messages that were read from Codex, by the wire log. */
  function Read(wire: seq<Wire>): seq<Message> {
    if wire == [] then []
    else (if wire[0].Got? then [wire[0].message] else []) + Read(wire[1..])
  }

  lemma {:induction false} ReadOfSum(a: seq<Wire>, b: seq<Wire>)
    ensures Read(a + b) == Read(a) + Read(b)
  {
    if a == [] {
      assert a + b == b;
    } else {
      var first := if a[0].Got? then [a[0].message] else [];
      assert (a + b)[1..] == a[1..] + b && (a + b)[0] == a[0];
      ReadOfSum(a[1..], b);
      assert first + (Read(a[1..]) + Read(b)) == first + Read(a[1..]) + Read(b);
    }
  }

  lemma {:induction false} ReadOfGotAll(arrivals: seq<Arrival>)
    ensures Read(GotAll(arrivals)) == MessagesOf(arrivals)
  {
    if arrivals != [] {
      assert GotAll(arrivals)[1..] == GotAll(arrivals[1..]);
      ReadOfGotAll(arrivals[1..]);
      assert MessagesOf(arrivals) == [arrivals[0].message] + MessagesOf(arrivals[1..]);
    }
  }

  lemma {:induction false} ReadAfterSend(sent: Wire, arrivals: seq<Arrival>)
    requires !sent.Got?
    ensures Read([sent] + GotAll(arrivals)) == MessagesOf(arrivals)
    ensures Read([sent]) == []
  {
    assert [sent][1..] == [];
    ReadOfSum([sent], GotAll(arrivals));
    ReadOfGotAll(arrivals);
  }

  /** Nothing is read while a thread is made. */
  lemma {:induction false} SentReads(sent: seq<Wire>, wire: seq<Wire>)
    requires |sent| <= 1 && forall w :: w in sent ==> !w.Got?
    ensures Read(sent + wire) == Read(wire) && Read(sent) == []
  {
    ReadOfSum(sent, wire);
    if sent != [] {
      assert sent[0] in sent && sent[1..] == [];
    }
  }

  lemma {:induction false} NewTurnReads(b: Broker, id: TaskId, prompt: string, inbox: seq<Arrival>, world: World)
    requires id in b.tasks && SessionOf(b, id).Some?
    ensures var x := StartNewTurn(b, id, prompt, inbox, world); Read(x.wire) == MessagesOf(inbox[..x.used])
  {
    var x := StartNewTurn(b, id, prompt, inbox, world);
    ReadAfterSend(x.wire[0], inbox[..x.used]);
  }

  lemma {:induction false} ResumeReads(b: Broker, id: TaskId, inbox: seq<Arrival>, message: UserMessage, world: World)
    requires id in b.tasks && b.tasks[id].pending.Some?
    ensures var x := ResumeInputRequired(b, id, inbox, message, world); Read(x.wire) == MessagesOf(inbox[..x.used])
  {
    var pending := b.tasks[id].pending.value;
    var answer := ResponseForPending(message, pending.kind);
    if answer.Some? && world.responds {
      var x := ResumeInputRequired(b, id, inbox, message, world);
      ReadAfterSend(x.wire[0], inbox[..x.used]);
    }
  }

  /** The messages that one execution read from Codex are the ones it took from the inbox. */
  lemma {:induction false} ExecutionReads(b: Broker, req: Request, inbox: seq<Arrival>, world: World)
    requires Ready(b, req, world)
    ensures var x := ExecuteStream(b, req, inbox, world); Read(x.wire) == MessagesOf(inbox[..x.used])
  {
    if req.stored == None && req.message.prompt.Some? {
      var started := StartTask(b, req, world);
      if started.ok {
        NewTurnReads(started.broker, req.id, req.message.prompt.value, inbox, world);
      }
      SentReads(started.sent, if started.ok then StartNewTurn(started.broker, req.id, req.message.prompt.value, inbox,
                                                              world).wire else []);
    } else if req.stored == Some(InputRequired) && req.id in b.tasks {
      if b.tasks[req.id].pending.Some? {
        ResumeReads(b, req.id, inbox, req.message, world);
      } else if req.message.prompt.Some? {
        NewTurnReads(b, req.id, req.message.prompt.value, inbox, world);
      }
    }
  }

  // ----- An execution that has come to a message -----

  /** How far the loop comes does not depend on what arrives later, and neither does what it emits. */
  lemma {:induction false} ConsumeOfPrefix(runtime: Runtime, inbox: seq<Arrival>, k: nat)
    requires k <= Consume(runtime, inbox).used
    ensures Consume(runtime, inbox[..k]).used == k
    ensures Consume(runtime, inbox[..k]).events <= Consume(runtime, inbox).events
    decreases |inbox|
  {
    if k > 0 && !inbox[0].message.ServerRequest? {
      var h := HandleNotification(Noticed(runtime, inbox[0]), inbox[0].message);
      assert inbox[..k][1..] == inbox[1..][..k - 1];
      if h.Some? && h.value.outcome.Continue? {
        ConsumeOfPrefix(h.value.runtime, inbox[1..], k - 1);
      }
    }
  }

  lemma NewTurnOfPrefix(b: Broker, id: TaskId, prompt: string, inbox: seq<Arrival>, world: World, k: nat)
    requires id in b.tasks && SessionOf(b, id).Some? && k <= StartNewTurn(b, id, prompt, inbox, world).used
    ensures StartNewTurn(b, id, prompt, inbox[..k], world).used == k
  {
    if world.turn.Some? {
      var runtime := b.tasks[id].(turnId := world.turn.value, turnActive := true);
      ConsumeOfPrefix(runtime, inbox, k);
    }
  }

  lemma ResumeOfPrefix(b: Broker, id: TaskId, inbox: seq<Arrival>, message: UserMessage, world: World, k: nat)
    requires id in b.tasks && b.tasks[id].pending.Some? && k <= ResumeInputRequired(b, id, inbox, message, world).used
    ensures ResumeInputRequired(b, id, inbox[..k], message, world).used == k
  {
    if ResponseForPending(message, b.tasks[id].pending.value.kind).Some? && world.responds {
      ConsumeOfPrefix(b.tasks[id].(pending := None), inbox, k);
    }
  }

  lemma UsedOfPrefix(b: Broker, req: Request, inbox: seq<Arrival>, world: World, k: nat)
    requires Ready(b, req, world) && k <= ExecuteStream(b, req, inbox, world).used
    ensures ExecuteStream(b, req, inbox[..k], world).used == k
  {
    if req.stored == None && req.message.prompt.Some? {
      var started := StartTask(b, req, world);
      if started.ok {
        NewTurnOfPrefix(started.broker, req.id, req.message.prompt.value, inbox, world, k);
      }
    } else if req.stored == Some(InputRequired) && req.id in b.tasks {
      if b.tasks[req.id].pending.Some? {
        ResumeOfPrefix(b, req.id, inbox, req.message, world, k);
      } else if req.message.prompt.Some? {
        NewTurnOfPrefix(b, req.id, req.message.prompt.value, inbox, world, k);
      }
    }
  }
}
