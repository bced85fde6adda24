/** The broker as the program has it: an object whose methods update its maps and the runtime objects
    in them. Each method is one critical section of the broker's lock, or a run of them with nothing
    in between, proved against the operations on values. */
module BrokerObjects {
  import opened Wrappers
  import opened BrokerModel
  import opened ExecutorModel
  import opened ExecutorRuns

  /** What a client holds: the messages it has delivered, the log of its wire, and whether it is closed. */
  datatype Feed = Feed(inbox: seq<Arrival>, wire: seq<Wire>, closed: bool)

  /** The Codex client of a task. */
  class Client {
    const id: ClientId
    var inbox: seq<Arrival>
    var wire: seq<Wire>
    var closed: bool

    constructor (id: ClientId, inbox: seq<Arrival>)
      ensures this.id == id && this.inbox == inbox && wire == [] && !closed
    {
      this.id, this.inbox := id, inbox;
      wire, closed := [], false;
    }

    ghost function State(): Feed
      reads this
    {
      Feed(inbox, wire, closed)
    }

    method Close()
      modifies this`closed
      ensures closed
    {
      closed := true;
    }

    /** `next`: the message at the head of the queue; none when the client fails. */
    method Next() returns (arrival: Option<Arrival>)
      modifies this`inbox, this`wire
      ensures if old(inbox) == [] then arrival == None && inbox == [] && wire == old(wire)
              else
                && arrival == Some(old(inbox)[0]) && inbox == old(inbox)[1..]
                && wire == old(wire) + [Got(old(inbox)[0].message)]
    {
      if inbox == [] {
        return None;
      }
      arrival := Some(inbox[0]);
      wire := wire + [Got(inbox[0].message)];
      inbox := inbox[1..];
    }

    /** The `thread/start` request, or `thread/fork` of a parent's thread; `made` is what Codex answers. */
    method MakeThread(parent: Option<ThreadId>, made: Option<ThreadId>)
      modifies this`wire
      ensures wire == old(wire) + [SentThread(parent, made)]
    {
      wire := wire + [SentThread(parent, made)];
    }

    /** The `turn/start` request; `turn` is what Codex answers. */
    method StartTurn(threadId: ThreadId, prompt: string, turn: Option<string>)
      modifies this`wire
      ensures wire == old(wire) + [SentTurnStart(threadId, prompt, turn.Some?)]
    {
      wire := wire + [SentTurnStart(threadId, prompt, turn.Some?)];
    }

    /** `respond`, when the write succeeds. */
    method Respond(id: string, answer: Answer)
      modifies this`wire
      ensures wire == old(wire) + [SentResponse(id, answer)]
    {
      wire := wire + [SentResponse(id, answer)];
    }
  }

  function IdOf(client: Client?): Option<ClientId> {
    if client == null then None else Some(client.id)
  }

  class TaskRuntime {
    const taskId: TaskId
    const contextId: ContextId
    const client: Client
    var turnId: string
    var cancelRequested: bool
    var pending: Option<Pending>
    var turnActive: bool
    var assistantTexts: map<string, string>
    var commandOutputs: map<string, string>
    var fileChangeDiffs: map<string, string>

    constructor (taskId: TaskId, contextId: ContextId, client: Client)
      ensures View() == NewRuntime(taskId, contextId)
      ensures this.taskId == taskId && this.contextId == contextId && this.client == client
    {
      this.taskId, this.contextId, this.client := taskId, contextId, client;
      turnId, cancelRequested, pending, turnActive := "", false, None, false;
      assistantTexts, commandOutputs, fileChangeDiffs := map[], map[], map[];
    }

    function View(): Runtime
      reads this
    {
      Runtime(taskId, contextId, turnId, cancelRequested, pending, turnActive,
              assistantTexts, commandOutputs, fileChangeDiffs)
    }

    method SetPending(p: Pending)
      modifies this
      ensures View() == old(View()).(pending := Some(p))
    {
      pending := Some(p);
    }

    method ClearPending()
      modifies this
      ensures View() == old(View()).(pending := None)
    {
      pending := None;
    }

    method StartTurn(turnId: string)
      modifies this
      ensures View() == old(View()).(turnId := turnId, turnActive := true)
    {
      this.turnId := turnId;
      turnActive := true;
    }

    method FinishTurnForNextMessage()
      modifies this
      ensures View() == old(View()).(pending := None, turnActive := false)
    {
      pending := None;
      turnActive := false;
    }

    method BlocksBranching() returns (blocks: bool)
      ensures blocks == View().BlocksBranching() && (blocks <==> View().turnActive || View().pending.Some?)
    {
      blocks := turnActive || pending.Some?;
    }

    method AppendAssistantText(itemId: string, delta: string) returns (text: string)
      modifies this
      ensures View() == old(View()).(assistantTexts := Appended(old(assistantTexts), itemId, delta))
      ensures text == TextOf(old(assistantTexts), itemId) + delta
    {
      text := (if itemId in assistantTexts then assistantTexts[itemId] else "") + delta;
      assistantTexts := assistantTexts[itemId := text];
    }

    method AppendCommandOutput(itemId: string, delta: string)
      modifies this
      ensures View() == old(View()).(commandOutputs := Appended(old(commandOutputs), itemId, delta))
    {
      commandOutputs := commandOutputs[itemId := TextOf(commandOutputs, itemId) + delta];
    }

    method AppendFileChangeDiff(itemId: string, delta: string)
      modifies this
      ensures View() == old(View()).(fileChangeDiffs := Appended(old(fileChangeDiffs), itemId, delta))
    {
      fileChangeDiffs := fileChangeDiffs[itemId := TextOf(fileChangeDiffs, itemId) + delta];
    }
  }

  /** The sessions of a broker have the clients of these runtimes. */
  ghost predicate Links(b: Broker, tasks: map<TaskId, TaskRuntime>) {
    forall t :: t in tasks ==> ClientOf(b, t) == Some(tasks[t].client.id)
  }

  lemma RegisterLinks(b: Broker, session: Session, tasks: map<TaskId, TaskRuntime>)
    requires session.taskId in tasks && session.client == Some(tasks[session.taskId].client.id)
    requires Links(b, tasks - {session.taskId})
    ensures Links(Registered(b, session), tasks)
  {
    forall t | t in tasks ensures ClientOf(Registered(b, session), t) == Some(tasks[t].client.id) {
      if t != session.taskId {
        assert t in tasks - {session.taskId};
        RegisterKeepsClient(b, session, t);
      }
    }
  }

  lemma FinishLinks(b: Broker, id: TaskId, preserve: bool, tasks: map<TaskId, TaskRuntime>)
    requires Links(b, tasks) && tasks.Keys == Finished(b, id, preserve).tasks.Keys
    ensures Links(Finished(b, id, preserve), tasks)
  {
    forall t | t in tasks ensures ClientOf(Finished(b, id, preserve), t) == Some(tasks[t].client.id) {
      FinishKeepsOthers(b, id, preserve, t);
    }
  }

  lemma NoteLinks(b: Broker, id: TaskId, runtime: Runtime, tasks: map<TaskId, TaskRuntime>)
    requires Links(b, tasks) && id in b.tasks && runtime.contextId == b.tasks[id].contextId
    ensures Links(b.(tasks := b.tasks[id := runtime]), tasks)
  {
    RuntimeKeepsClient(b, id, runtime);
  }

  lemma FinishedTasks(b: Broker, id: TaskId, preserve: bool)
    requires id in b.tasks
    ensures Finished(b, id, preserve) == Broker(Finished(b, id, preserve).contexts, b.tasks - {id})
  {
  }

  /** The clients of these runtimes, in order. */
  ghost predicate ClientsOf(clients: seq<Client>, order: seq<TaskId>, tasks: map<TaskId, TaskRuntime>) {
    && |clients| == |order|
    && forall i :: 0 <= i < |order| ==> order[i] in tasks && clients[i] == tasks[order[i]].client
  }

  /** These runtimes are filed under their own IDs and have their sessions. */
  ghost predicate HaveSessions(b: Broker, tasks: map<TaskId, TaskRuntime>) {
    forall t :: t in tasks ==> HasSession(b, tasks, t)
  }

  ghost predicate HasSession(b: Broker, tasks: map<TaskId, TaskRuntime>, t: TaskId) {
    t in tasks && tasks[t].taskId == t && SessionOf(b, t).Some? && b.tasks[t].contextId == tasks[t].contextId
  }

  method CloseEach(clients: seq<Client>)
    modifies (set c | c in clients)`closed
    ensures forall c :: c in clients ==> c.closed
  {
    for i := 0 to |clients|
      invariant forall j :: 0 <= j < i ==> clients[j].closed
    {
      clients[i].Close();
    }
  }

  /** What `Close` has collected when it has visited these runtimes. */
  ghost predicate Gathered(b: Broker, tasks: map<TaskId, TaskRuntime>, visited: set<TaskId>,
                           contexts: map<ContextId, Context>, clients: seq<Client>, order: seq<TaskId>) {
    contexts == ClosedAmong(b, visited) && Enumerates(order, visited) && ClientsOf(clients, order, tasks)
  }

  ghost function Enumeration(keys: set<TaskId>): (order: seq<TaskId>)
    ensures Enumerates(order, keys)
  {
    if keys == {} then []
    else
      var t :| t in keys;
      Enumeration(keys - {t}) + [t]
  }

  lemma OneMore(order: seq<TaskId>, keys: set<TaskId>, id: TaskId)
    requires Enumerates(order, keys) && id !in keys
    ensures Enumerates(order + [id], keys + {id})
  {
    assert forall i :: 0 <= i < |order| ==> order[i] in order;
  }

  lemma Rejoined(done: seq<TaskId>, id: TaskId, rest: seq<TaskId>, keys: set<TaskId>, left: set<TaskId>)
    requires id in keys && id !in left && left <= keys
    requires Enumerates(done, keys - left - {id}) && Enumerates(rest, left)
    ensures Enumerates(done + [id], keys - left)
    ensures Enumerates(done + ([id] + rest), keys)
  {
    var order := done + ([id] + rest);
    assert forall t :: t in order <==> t in done || t == id || t in rest;
    forall i, j | 0 <= i < j < |order| ensures order[i] != order[j] {
      assert i < |done| ==> done[i] in done;
      assert j > |done| ==> rest[j - |done| - 1] in rest;
    }
  }

  /** A resolve that ends with the session of this task. */
  predicate Finds(resolved: Result<Option<Session>, ResolveError>, t: TaskId) {
    resolved.Ok? && resolved.value.Some? && resolved.value.value.taskId == t
  }

  class TaskBroker {
    var contexts: map<ContextId, Context>
    var tasks: map<TaskId, TaskRuntime>

    /** What the runtimes hold, and the objects they are. */
    ghost var runtimes: map<TaskId, Runtime>
    ghost var objects: set<TaskRuntime>

    ghost function View(): Broker
      reads this
    {
      Broker(contexts, runtimes)
    }

    /** A runtime is filed under its own ID and has the client of its session. */
    ghost predicate Filed(t: TaskId)
      requires t in tasks
      reads this
    {
      && tasks[t] in objects && tasks[t].taskId == t
      && t in runtimes && runtimes[t].contextId == tasks[t].contextId
      && ClientOf(View(), t) == Some(tasks[t].client.id)
    }

    /** Valid, but for what is said of the runtimes that are being worked on. */
    ghost predicate ValidExcept(busy: set<TaskId>)
      reads this, objects
    {
      && tasks.Keys == runtimes.Keys
      && (forall t :: t in tasks ==> Filed(t))
      && (forall t :: t in tasks && t !in busy ==> tasks[t].View() == runtimes[t])
    }

    ghost predicate Valid()
      reads this, objects
    {
      ValidExcept({})
    }

    constructor ()
      ensures Valid() && View() == EMPTY_BROKER && objects == {}
    {
      contexts, tasks, runtimes, objects := map[], map[], map[], {};
    }

    ghost function ClientFor(id: TaskId): Client?
      reads this
    {
      if id in tasks then tasks[id].client else null
    }

    /** `task` */
    method Task(id: TaskId) returns (runtime: TaskRuntime?)
      requires Valid()
      ensures runtime == null <==> id !in View().tasks
      ensures runtime != null ==> id in tasks && runtime == tasks[id] && runtime.View() == View().tasks[id]
    {
      runtime := if id in tasks then tasks[id] else null;
    }

    /** Valid means that the runtimes are filed and have the clients of their sessions. */
    lemma {:induction false} Refiled()
      requires ValidRuntimes() && Links(View(), tasks)
      ensures Valid()
    {
    }

    lemma {:induction false} ValidLinks()
      requires Valid()
      ensures ValidRuntimes() && Links(View(), tasks)
    {
      assert forall t :: t in tasks ==> Filed(t);
    }

    // ----- `resolveBaseSession` -----

    method IsBlocked(id: TaskId) returns (blocked: bool)
      requires Valid()
      ensures blocked == Blocked(View(), id)
      ensures blocked <==> id in View().tasks && (View().tasks[id].turnActive || View().tasks[id].pending.Some?)
    {
      if id !in tasks {
        return false;
      }
      blocked := tasks[id].BlocksBranching();
    }

    /** The loop over a context, in the order the map happens to be visited. */
    method ScanContext(sessions: Context)
      returns (resolved: Result<Option<Session>, ResolveError>, ghost order: seq<TaskId>)
      requires Valid()
      ensures Visits(sessions, order) && resolved == ScanLeaves(View(), sessions, order, None)
    {
      var left := sessions.Keys;
      var leaf: Option<Session> := None;
      order := [];
      while left != {}
        invariant left <= sessions.Keys && Enumerates(order, sessions.Keys - left)
        invariant ScanLeaves(View(), sessions, order, None) == Ok(leaf)
        decreases left
      {
        var id :| id in left;
        left := left - {id};
        var session := sessions[id];
        ghost var rest := Enumeration(left);
        ScanGoesOn(View(), sessions, order, [id], None, leaf);
        ScanGoesOn(View(), sessions, order, [id] + rest, None, leaf);
        Rejoined(order, id, rest, sessions.Keys, left);
        if session.childCount == 0 {
          var blocked := IsBlocked(session.taskId);
          if blocked {
            order := order + ([id] + rest);
            return Err(ActiveLeaf(session.taskId)), order;
          }
          if leaf.Some? {
            order := order + ([id] + rest);
            return Err(ManyBranches), order;
          }
          leaf := Some(session);
        }
        order := order + [id];
      }
      resolved := Ok(leaf);
    }

    /** `resolveBaseSession`: the decision for the order of the visit. What it finds without a
        reference does not depend on that order. */
    method ResolveBaseSession(contextId: ContextId, references: seq<TaskId>)
      returns (resolved: Result<Option<Session>, ResolveError>, ghost order: seq<TaskId>)
      requires Valid()
      ensures Visits(ContextOf(View(), contextId), order)
      ensures resolved == Resolve(View(), contextId, references, order)
      ensures |references| == 1 && resolved.Ok? ==>
                resolved.value == Some(ContextOf(View(), contextId)[references[0]])
      ensures references == [] && ContextKeyed(ContextOf(View(), contextId), contextId) ==>
                forall t :: Finds(resolved, t) <==>
                      && OnlyLeaf(ContextOf(View(), contextId), t)
                      && (t in View().tasks ==> !View().tasks[t].turnActive && View().tasks[t].pending == None)
      ensures resolved.Ok? && resolved.value.Some? && ContextKeyed(ContextOf(View(), contextId), contextId) ==>
                var t := resolved.value.value.taskId;
                t in View().tasks ==> !View().tasks[t].turnActive && View().tasks[t].pending == None
    {
      resolved, order := Decide(contextId, references);
      if references == [] && contextId in contexts && ContextKeyed(contexts[contextId], contextId) {
        forall t
          ensures Finds(resolved, t) <==>
                    && OnlyLeaf(contexts[contextId], t)
                    && (t in View().tasks ==> !View().tasks[t].turnActive && View().tasks[t].pending == None)
        {
          if contexts[contextId] != map[] {
            ResolutionOrderFree(View(), contextId, order, t);
          }
        }
      }
      if ContextKeyed(ContextOf(View(), contextId), contextId) {
        ResolvesToIdle(View(), contextId, references, order);
      }
    }

    method Decide(contextId: ContextId, references: seq<TaskId>)
      returns (resolved: Result<Option<Session>, ResolveError>, ghost order: seq<TaskId>)
      requires Valid()
      ensures Visits(ContextOf(View(), contextId), order)
      ensures resolved == Resolve(View(), contextId, references, order)
    {
      order := Enumeration(ContextOf(View(), contextId).Keys);
      if contextId !in contexts || |contexts[contextId]| == 0 {
        return if |references| > 0 then Err(NotInContext) else Ok(None), order;
      }
      var sessions := contexts[contextId];
      if |references| > 1 {
        return Err(ManyReferences), order;
      }
      if |references| == 1 {
        var id := references[0];
        if id !in sessions {
          return Err(NotInContext), order;
        }
        var blocked := IsBlocked(id);
        return if blocked then Err(StillActive(id)) else Ok(Some(sessions[id])), order;
      }
      resolved, order := ScanContext(sessions);
    }

    // ----- The registering section of `startTask` -----

    /** Files a session in its context and counts it with its parent. */
    method FileSession(session: Session)
      modifies `contexts
      ensures contexts == Registered(old(View()), session).contexts
    {
      var sessions: Context := if session.contextId in contexts then contexts[session.contextId] else map[];
      if session.parent != NO_TASK && session.parent in sessions {
        var parent := sessions[session.parent];
        sessions := sessions[session.parent := parent.(childCount := parent.childCount + 1)];
      }
      contexts := contexts[session.contextId := sessions[session.taskId := session]];
    }

    method FileRuntime(runtime: TaskRuntime)
      requires ValidRuntimes() && runtime.taskId !in tasks
      modifies `tasks, `runtimes, `objects
      ensures ValidRuntimes() && runtimes == old(runtimes)[runtime.taskId := runtime.View()]
      ensures tasks == old(tasks)[runtime.taskId := runtime] && objects == old(objects) + {runtime}
    {
      tasks := tasks[runtime.taskId := runtime];
      runtimes := runtimes[runtime.taskId := runtime.View()];
      objects := objects + {runtime};
    }

    /** The half of validity that does not look at the contexts. */
    ghost predicate RuntimesExcept(busy: set<TaskId>)
      reads this, objects
    {
      && tasks.Keys == runtimes.Keys
      && (forall t :: t in tasks ==>
            && tasks[t] in objects && tasks[t].taskId == t
            && runtimes[t].contextId == tasks[t].contextId
            && (t !in busy ==> tasks[t].View() == runtimes[t]))
    }

    ghost predicate ValidRuntimes()
      reads this, objects
    {
      RuntimesExcept({})
    }

    method Register(session: Session, client: Client) returns (runtime: TaskRuntime)
      requires Valid() && session.client == Some(client.id) && session.taskId !in tasks
      modifies this
      ensures Valid() && View() == Registered(old(View()), session)
      ensures fresh(runtime) && runtime.client == client
      ensures tasks == old(tasks)[session.taskId := runtime] && objects == old(objects) + {runtime}
    {
      runtime := new TaskRuntime(session.taskId, session.contextId, client);
      ghost var before := View();
      ValidLinks();
      assert tasks[session.taskId := runtime] - {session.taskId} == tasks;
      FileSession(session);
      FileRuntime(runtime);
      RegisterLinks(before, session, tasks);
      assert View() == Registered(before, session);
      Refiled();
    }

    /** `startTask` with nothing of other tasks in between. `launched` is the client that launch
        returns, if it does, and `world.thread` the thread Codex makes on it. */
    method StartTask(req: Request, world: World, launched: Client?)
      returns (runtime: TaskRuntime?, ghost order: seq<TaskId>)
      requires Valid() && req.id !in tasks && world.client == IdOf(launched)
      modifies this, (if launched == null then {} else {launched})`closed,
               (if launched == null then {} else {launched})`wire
      ensures Valid() && Visits(ContextOf(old(View()), req.contextId), order)
      ensures var started := ExecutorModel.StartTask(old(View()), req, world.(order := order));
              && View() == started.broker && (runtime != null <==> started.ok)
              && (launched != null ==>
                    && launched.wire == old(launched.wire) + started.sent
                    && launched.closed == (old(launched.closed) || started.closed != []))
      ensures if runtime == null then tasks == old(tasks)
              else fresh(runtime) && runtime.client == launched && tasks == old(tasks)[req.id := runtime]
      ensures launched != null ==> old(launched.wire) <= launched.wire
      ensures runtime != null && ContextKeyed(ContextOf(old(View()), req.contextId), req.contextId) ==>
                && launched != null && launched.id == world.client.value
                && RightlyStarted(old(View()), View(), req, world, launched.wire[|old(launched.wire)|..])
    {
      ghost var before := View();
      var resolved;
      resolved, order := ResolveBaseSession(req.contextId, req.references);
      if ContextKeyed(ContextOf(before, req.contextId), req.contextId) {
        StartedSession(before, req, world.(order := order));
      }
      if resolved.Err? || launched == null {
        return null, order;
      }
      runtime := ForkAndRegister(req, world, launched, resolved.value);
    }

    /** A new thread, or a fork of the base's, and then the registering section. */
    method ForkAndRegister(req: Request, world: World, launched: Client, base: Option<Session>)
      returns (runtime: TaskRuntime?)
      requires Valid() && req.id !in tasks && world.client == Some(launched.id)
      modifies this, launched`closed, launched`wire
      ensures Valid() && launched.wire == old(launched.wire) + [ThreadRequest(base, world.thread)]
      ensures runtime == null <==> world.thread == None
      ensures runtime == null ==> tasks == old(tasks) && View() == old(View()) && launched.closed
      ensures runtime != null ==>
                && View() == Registered(old(View()), SessionFor(req, world, base))
                && launched.closed == old(launched.closed)
                && fresh(runtime) && runtime.client == launched && tasks == old(tasks)[req.id := runtime]
    {
      launched.MakeThread(if base.Some? then Some(base.value.threadId) else None, world.thread);
      if world.thread == None {
        launched.Close();
        return null;
      }
      var parent := if base.Some? then base.value.taskId else NO_TASK;
      var session := Session(req.id, req.contextId, world.thread.value, parent, Some(launched.id), 0);
      runtime := Register(session, launched);
    }

    // ----- `finishTaskWithPolicy` -----

    /** What becomes of a context that a finished task leaves: its session without the client, or
        the context without the session. */
    static method Leave(sessions: Context, id: TaskId, preserveSession: bool) returns (left: Context)
      requires id in sessions
      ensures left == if preserveSession then Released(sessions, id) else Dropped(sessions, id)
    {
      var session := sessions[id];
      if preserveSession {
        return sessions[id := session.(client := None)];
      }
      left := sessions;
      if session.parent != NO_TASK && session.parent in left && left[session.parent].childCount > 0 {
        var parent := left[session.parent];
        left := left[session.parent := parent.(childCount := parent.childCount - 1)];
      }
      left := left - {id};
    }

    /** Puts a context back, or removes it when nothing is left of it. */
    method PutContext(contextId: ContextId, sessions: Context)
      modifies `contexts
      ensures contexts == WithContext(old(View()), contextId, sessions).contexts
    {
      if |sessions| == 0 {
        contexts := contexts - {contextId};
      } else {
        contexts := contexts[contextId := sessions];
      }
    }

    /** The contexts once a task is finished. */
    method LeaveContext(id: TaskId, preserveSession: bool)
      requires Valid() && id in tasks
      modifies `contexts
      ensures contexts == Finished(old(View()), id, preserveSession).contexts
    {
      var contextId := tasks[id].contextId;
      assert Filed(id);
      ghost var sessions := contexts[contextId];
      var left := Leave(contexts[contextId], id, preserveSession);
      PutContext(contextId, left);
    }

    method Forget(id: TaskId)
      requires ValidRuntimes()
      modifies `tasks, `runtimes
      ensures ValidRuntimes() && tasks == old(tasks) - {id} && runtimes == old(runtimes) - {id}
    {
      tasks := tasks - {id};
      runtimes := runtimes - {id};
    }

    /** The task's client is taken from it and closed. */
    method FinishTaskWithPolicy(id: TaskId, preserveSession: bool) returns (client: Client?)
      requires Valid()
      modifies `contexts, `tasks, `runtimes, (set t | t in tasks && t == id :: tasks[t].client)`closed
      ensures Valid() && View() == Finished(old(View()), id, preserveSession)
      ensures tasks == old(tasks) - {id}
      ensures if id in old(tasks) then client == old(tasks)[id].client && client.closed else client == null
      ensures id in old(tasks) ==> RightlyFinished(old(View()), View(), id, preserveSession)
    {
      client := null;
      if id !in tasks {
        assert tasks - {id} == tasks;
        return;
      }
      client := tasks[id].client;
      ghost var before := View();
      ValidLinks();
      FinishEffect(before, id, preserveSession);
      LeaveContext(id, preserveSession);
      Forget(id);
      FinishedTasks(before, id, preserveSession);
      assert View() == Finished(before, id, preserveSession);
      FinishLinks(before, id, preserveSession, tasks);
      Refiled();
      client.Close();
    }

    // ----- A runtime that was worked on -----

    lemma {:induction false} ExceptLinks(busy: set<TaskId>)
      requires ValidExcept(busy)
      ensures Links(View(), tasks) && RuntimesExcept(busy)
    {
      assert forall t :: t in tasks ==> Filed(t);
    }

    ghost method NoteRuntime(id: TaskId)
      requires RuntimesExcept({id}) && id in tasks
      modifies `runtimes
      ensures ValidRuntimes() && runtimes == old(runtimes)[id := tasks[id].View()]
    {
      runtimes := runtimes[id := tasks[id].View()];
    }

    /** Takes note of what a runtime holds now. */
    ghost method Note(id: TaskId)
      requires ValidExcept({id}) && id in tasks
      modifies `runtimes
      ensures Valid() && View() == old(View()).(tasks := old(View()).tasks[id := tasks[id].View()])
    {
      ghost var before := View();
      ExceptLinks({id});
      assert before.tasks[id].contextId == tasks[id].contextId;
      NoteRuntime(id);
      NoteLinks(before, id, tasks[id].View(), tasks);
      assert View() == before.(tasks := before.tasks[id := tasks[id].View()]);
      Refiled();
    }

    /** `cancel` */
    method Cancel(id: TaskId) returns (runtime: TaskRuntime?)
      requires Valid()
      modifies `runtimes, (set t | t in tasks && t == id :: tasks[t])`cancelRequested
      ensures Valid() && (runtime == null <==> id !in tasks)
      ensures View() == if id in old(View()).tasks
                        then WithTask(old(View()), id, old(View()).tasks[id].(cancelRequested := true))
                        else old(View())
    {
      runtime := Task(id);
      if runtime == null {
        return;
      }
      assert Filed(id);
      assert forall t :: t in tasks && t != id ==> Filed(t) && tasks[t] != runtime;
      runtime.cancelRequested := true;
      Note(id);
    }

    // ----- `Close` -----

    /** One round of the locked section: a session gives up its client. */
    method GiveUpClient(id: TaskId, clients: seq<Client>, ghost before: Broker, ghost visited: set<TaskId>,
                        ghost order: seq<TaskId>)
      returns (clients': seq<Client>)
      requires id !in visited && HasSession(before, tasks, id)
      requires Gathered(before, tasks, visited, contexts, clients, order)
      modifies `contexts
      ensures Gathered(before, tasks, visited + {id}, contexts, clients', order + [id])
    {
      ClosedOneMore(before, visited, id);
      var runtime := tasks[id];
      var sessions := contexts[runtime.contextId];
      contexts := contexts[runtime.contextId := sessions[id := sessions[id].(client := None)]];
      clients' := clients + [runtime.client];
      OneMore(order, visited, id);
    }

    /** The loop of the locked section: it collects the clients and every session gives up its own. */
    method GiveUpClients() returns (clients: seq<Client>, ghost order: seq<TaskId>)
      requires HaveSessions(View(), tasks)
      modifies `contexts
      ensures contexts == ClosedAmong(old(View()), tasks.Keys)
      ensures Enumerates(order, tasks.Keys) && ClientsOf(clients, order, tasks)
    {
      ghost var before := View();
      ghost var visited: set<TaskId> := {};
      var left := tasks.Keys;
      clients, order := [], [];
      ClosedAtFirst(before);
      while left != {}
        invariant left !! visited && left + visited == tasks.Keys
        invariant Gathered(before, tasks, visited, contexts, clients, order)
        decreases left
      {
        var id :| id in left;
        assert HasSession(before, tasks, id);
        clients := GiveUpClient(id, clients, before, visited, order);
        order := order + [id];
        left, visited := left - {id}, visited + {id};
      }
      assert visited == tasks.Keys;
    }

    /** The locked section: every session gives up its client and every runtime is dropped. */
    method CollectClients() returns (clients: seq<Client>, ghost order: seq<TaskId>)
      requires Valid()
      modifies `contexts, `tasks, `runtimes
      ensures Valid() && View() == Closed(old(View()))
      ensures Enumerates(order, old(tasks).Keys) && ClientsOf(clients, order, old(tasks))
    {
      assert forall t :: t in tasks ==> Filed(t);
      clients, order := GiveUpClients();
      tasks, runtimes := map[], map[];
    }

    /** Every client of an active task is closed, outside the lock. */
    method Close()
      requires Valid()
      modifies `contexts, `tasks, `runtimes, (set t | t in tasks :: tasks[t].client)`closed
      ensures Valid() && View() == Closed(old(View()))
      ensures forall t :: t in old(tasks) ==> old(tasks)[t].client.closed
    {
      ghost var was := tasks;
      var clients, order := CollectClients();
      assert forall c :: c in clients ==> exists t :: t in was && c == was[t].client;
      CloseEach(clients);
      forall t | t in was ensures was[t].client.closed {
        assert t in order;
        var i :| 0 <= i < |order| && order[i] == t;
        assert clients[i] in clients;
      }
    }
  }
}
