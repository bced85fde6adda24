/** The broker's interleaved system: the steps that overlapping starts, turns, finishes, discards and closes take, and
    the invariants that every step keeps. */
module BrokerSystem {
  import opened Wrappers
  import opened BrokerModel

  /** The session a start was resolved to fork from. */
  datatype Base = Base(taskId: TaskId, threadId: ThreadId)

  /** A `startTask` between its two critical sections: resolved, with a launched client, or with
      the thread that Codex made for it. */
  datatype Start =
    | Resolved(contextId: ContextId, base: Option<Base>)
    | Launched(contextId: ContextId, base: Option<Base>, client: ClientId)
    | Threaded(contextId: ContextId, base: Option<Base>, client: ClientId, threadId: ThreadId)

  /** The broker with everything around it. `launched` clients have been handed out so far, and `closed`
      were passed to `Close`. Codex keeps a history for each thread. The rest is
      a ledger: which thread each task was given, what the thread held then, which prompts the task
      completed since, and the order of registration. */
  datatype System = System(
    broker: Broker,
    starts: map<TaskId, Start>,
    used: set<TaskId>,
    launched: set<ClientId>,
    closed: seq<ClientId>,
    threads: map<ThreadId, seq<string>>,
    threadOf: map<TaskId, ThreadId>,
    inherited: map<TaskId, seq<string>>,
    completed: map<TaskId, seq<string>>,
    born: map<TaskId, nat>,
    now: nat)

  const EMPTY: System :=
    System(EMPTY_BROKER, map[], {}, {}, [], map[], map[], map[], map[], map[], 0)

  datatype Step =
    | Begin(id: TaskId, contextId: ContextId, references: seq<TaskId>, order: seq<TaskId>)
    | Launch(id: TaskId, client: Option<ClientId>)
    | MakeThread(id: TaskId, made: Option<ThreadId>)
    | Register(id: TaskId)
    | Finish(id: TaskId)
    | Discard(id: TaskId)
    | CloseAll(visited: seq<TaskId>)
    | SetRuntime(id: TaskId, runtime: Runtime)
    | CompleteTurn(id: TaskId, prompt: string)

  /** What the environment owes: new task IDs, new clients, new thread IDs, a visit of the whole map. */
  ghost predicate Enabled(s: System, step: Step) {
    match step
    case Begin(id, contextId, _, order) =>
      id != NO_TASK && id !in s.used && Visits(ContextOf(s.broker, contextId), order)
    case Launch(id, client) =>
      id in s.starts && s.starts[id].Resolved? && (client.Some? ==> client.value !in s.launched)
    case MakeThread(id, made) =>
      id in s.starts && s.starts[id].Launched? && (made.Some? ==> made.value !in s.threads)
    case Register(id) => id in s.starts && s.starts[id].Threaded?
    case Finish(_) => true
    case Discard(_) => true
    case CloseAll(visited) =>
      && (forall t :: t in s.broker.tasks <==> t in visited)
      && (forall i, j :: 0 <= i < j < |visited| ==> visited[i] != visited[j])
    case SetRuntime(id, runtime) =>
      id in s.broker.tasks && runtime.taskId == id && runtime.contextId == s.broker.tasks[id].contextId
    case CompleteTurn(id, _) => SessionOf(s.broker, id).Some? && SessionOf(s.broker, id).value.threadId in s.threads
  }

  function Shut(closed: seq<ClientId>, client: Option<ClientId>): seq<ClientId> {
    if client == None then closed else closed + [client.value]
  }

  /** The session a start registers. */
  function NewSession(id: TaskId, start: Start): Session
    requires start.Threaded?
  {
    Session(id, start.contextId, start.threadId, if start.base.Some? then start.base.value.taskId else NO_TASK,
            Some(start.client), 0)
  }

  ghost function Apply(s: System, step: Step): System
    requires Enabled(s, step)
  {
    match step
    case Begin(id, contextId, references, order) =>
      var s' := s.(used := s.used + {id});
      (match Resolve(s.broker, contextId, references, order)
       case Err(_) => s'
       case Ok(found) =>
         var base := if found.Some? then Some(Base(found.value.taskId, found.value.threadId)) else None;
         s'.(starts := s.starts[id := Resolved(contextId, base)]))
    case Launch(id, client) =>
      if client == None then s.(starts := s.starts - {id})
      else
        var start := s.starts[id];
        s.(starts := s.starts[id := Launched(start.contextId, start.base, client.value)],
           launched := s.launched + {client.value})
    case MakeThread(id, made) =>
      var start := s.starts[id];
      if made == None then
        s.(starts := s.starts - {id}, closed := s.closed + [start.client])
      else
        // thread/start begins an empty history, thread/fork copies the parent thread as it is now
        var history := if start.base.Some? && start.base.value.threadId in s.threads
                       then s.threads[start.base.value.threadId] else [];
        s.(starts := s.starts[id := Threaded(start.contextId, start.base, start.client, made.value)],
           threads := s.threads[made.value := history],
           threadOf := s.threadOf[id := made.value],
           inherited := s.inherited[id := history],
           completed := s.completed[id := []])
    case Register(id) =>
      s.(broker := Registered(s.broker, NewSession(id, s.starts[id])),
         starts := s.starts - {id},
         born := s.born[id := s.now],
         now := s.now + 1)
    case Finish(id) =>
      s.(broker := Finished(s.broker, id, true), closed := Shut(s.closed, ClientOf(s.broker, id)))
    case Discard(id) =>
      s.(broker := Finished(s.broker, id, false), closed := Shut(s.closed, ClientOf(s.broker, id)))
    case CloseAll(visited) =>
      s.(broker := Closed(s.broker), closed := s.closed + Collected(s.broker, visited))
    case SetRuntime(id, runtime) =>
      s.(broker := s.broker.(tasks := s.broker.tasks[id := runtime]))
    case CompleteTurn(id, prompt) =>
      // Codex appends the prompt to the thread; the runtime is ready for the next message
      var thread := SessionOf(s.broker, id).value.threadId;
      var runtime := s.broker.tasks[id].(turnActive := false, pending := None);
      s.(broker := s.broker.(tasks := s.broker.tasks[id := runtime]),
         threads := s.threads[thread := s.threads[thread] + [prompt]],
         completed := if id in s.completed then s.completed[id := s.completed[id] + [prompt]] else s.completed)
  }

  /** A run: the systems it passes through, one enabled step at a time. */
  ghost predicate IsRun(systems: seq<System>, steps: seq<Step>) {
    && |systems| == |steps| + 1
    && forall i :: 0 <= i < |steps| ==>
         Enabled(systems[i], steps[i]) && systems[i + 1] == Apply(systems[i], steps[i])
  }

  // ----- Invariants -----

  ghost predicate Has(b: Broker, c: ContextId, t: TaskId) {
    c in b.contexts && t in b.contexts[c]
  }

  /** A session is filed under its own ID, was registered after its parent, and holds a client only
      while its task is active. */
  ghost predicate SessionOk(s: System, c: ContextId, t: TaskId)
    requires Has(s.broker, c, t)
  {
    var session := s.broker.contexts[c][t];
    && session.taskId == t && session.contextId == c && t != NO_TASK
    && t in s.born
    && (session.parent != NO_TASK ==> session.parent in s.born && s.born[session.parent] < s.born[t])
    && (session.client.Some? ==> t in s.broker.tasks && s.broker.tasks[t].contextId == c)
  }

  /** An active task has its session, and the session its client. */
  ghost predicate TaskOk(s: System, t: TaskId)
    requires t in s.broker.tasks
  {
    s.broker.tasks[t].taskId == t && ClientOf(s.broker, t).Some?
  }

  /** A task that is starting is not registered yet; the base it will fork from was. */
  ghost predicate StartOk(s: System, t: TaskId)
    requires t in s.starts
  {
    && t in s.used && t != NO_TASK && t !in s.born
    && (s.starts[t].base.Some? ==>
          s.starts[t].base.value.taskId in s.born && s.starts[t].base.value.taskId != NO_TASK)
  }

  ghost predicate SessionsOk(s: System) {
    forall c, t :: Has(s.broker, c, t) ==> SessionOk(s, c, t)
  }

  ghost predicate TasksOk(s: System) {
    forall t :: t in s.broker.tasks ==> TaskOk(s, t)
  }

  ghost predicate StartsOk(s: System) {
    && (forall t :: t in s.starts ==> StartOk(s, t))
    && (forall t :: t in s.born ==> s.born[t] < s.now && t in s.used)
  }

  /** A context that is kept has sessions, and its index is right. */
  ghost predicate ContextsOk(b: Broker) {
    forall c :: c in b.contexts ==> b.contexts[c] != map[] && CountsOk(b.contexts[c])
  }

  ghost predicate Inv(s: System) {
    SessionsOk(s) && TasksOk(s) && StartsOk(s) && ContextsOk(s.broker)
  }

  // ----- Every step keeps them -----

  /** The sessions a resolve can return are sessions of the context as it is. */
  lemma {:induction false} ScanIsSession(b: Broker, ctx: Context, order: seq<TaskId>, leaf: Option<Session>)
    requires forall t :: t in order ==> t in ctx
    requires leaf.Some? ==> exists t :: t in ctx && leaf.value == ctx[t]
    ensures var r := ScanLeaves(b, ctx, order, leaf);
            r.Ok? && r.value.Some? ==> exists t :: t in ctx && r.value.value == ctx[t]
  {
    if order != [] {
      ScanIsSession(b, ctx, order[1..], leaf);
      ScanIsSession(b, ctx, order[1..], Some(ctx[order[0]]));
    }
  }

  lemma ResolvedIsSession(s: System, step: Step)
    requires SessionsOk(s) && Enabled(s, step) && step.Begin?
    ensures var r := Resolve(s.broker, step.contextId, step.references, step.order);
            r.Ok? && r.value.Some? ==>
              Has(s.broker, step.contextId, r.value.value.taskId) &&
              r.value.value == s.broker.contexts[step.contextId][r.value.value.taskId]
  {
    var ctx := ContextOf(s.broker, step.contextId);
    ScanIsSession(s.broker, ctx, step.order, None);
    forall t | t in ctx ensures Has(s.broker, step.contextId, t) && ctx[t].taskId == t {
      assert Has(s.broker, step.contextId, t);
    }
  }

  /** Sessions, tasks and contexts are judged by the broker and the birth order alone. */
  lemma BrokerFrame(s: System, s': System)
    requires Inv(s) && s'.broker == s.broker && s'.born == s.born
    ensures SessionsOk(s') && TasksOk(s') && ContextsOk(s'.broker)
  {
    assert forall c, t :: Has(s'.broker, c, t) ==> SessionOk(s, c, t);
    assert forall t :: t in s'.broker.tasks ==> TaskOk(s, t);
  }

  lemma StartsFrame(s: System, s': System)
    requires StartsOk(s) && s'.born == s.born && s'.now == s.now && s.used <= s'.used
    requires forall t :: t in s'.starts ==>
               (t in s.starts && s'.starts[t].base == s.starts[t].base) || StartOk(s', t)
    ensures StartsOk(s')
  {
    forall t | t in s'.starts ensures StartOk(s', t) {
      assert t in s.starts ==> StartOk(s, t);
    }
  }

  lemma BeginKeepsInv(s: System, step: Step)
    requires Inv(s) && Enabled(s, step) && step.Begin?
    ensures Inv(Apply(s, step))
  {
    var s' := Apply(s, step);
    BrokerFrame(s, s');
    ResolvedIsSession(s, step);
    var r := Resolve(s.broker, step.contextId, step.references, step.order);
    if r.Ok? && r.value.Some? {
      assert SessionOk(s, step.contextId, r.value.value.taskId);
    }
    StartsFrame(s, s');
  }

  lemma LaunchKeepsInv(s: System, id: TaskId, client: Option<ClientId>)
    requires Inv(s) && Enabled(s, Launch(id, client))
    ensures Inv(Apply(s, Launch(id, client)))
  {
    BrokerFrame(s, Apply(s, Launch(id, client)));
    StartsFrame(s, Apply(s, Launch(id, client)));
  }

  lemma RegisterKeepsSessions(s: System, id: TaskId)
    requires Inv(s) && Enabled(s, Register(id))
    ensures SessionsOk(Apply(s, Register(id)))
  {
    var s' := Apply(s, Register(id));
    var c0 := s.starts[id].contextId;
    assert StartOk(s, id);
    forall c, t | Has(s'.broker, c, t) ensures SessionOk(s', c, t) {
      if t != id || c != c0 {
        assert Has(s.broker, c, t);
        assert SessionOk(s, c, t);
        assert s'.broker.contexts[c][t].(childCount := 0) == s.broker.contexts[c][t].(childCount := 0);
      }
    }
  }

  lemma RegisterKeepsTasks(s: System, id: TaskId)
    requires Inv(s) && Enabled(s, Register(id))
    ensures TasksOk(Apply(s, Register(id)))
  {
    var s' := Apply(s, Register(id));
    assert StartOk(s, id);
    forall t | t in s'.broker.tasks ensures TaskOk(s', t) {
      if t != id {
        assert TaskOk(s, t);
        RegisterKeepsClient(s.broker, NewSession(id, s.starts[id]), t);
      }
    }
  }

  lemma RegisterKeepsContexts(s: System, id: TaskId)
    requires SessionsOk(s) && ContextsOk(s.broker) && id in s.starts && s.starts[id].Threaded? && StartOk(s, id)
    ensures ContextsOk(Registered(s.broker, NewSession(id, s.starts[id])))
  {
    var session := NewSession(id, s.starts[id]);
    var ctx := ContextOf(s.broker, session.contextId);
    forall t | t in ctx ensures t != id && t != NO_TASK && ctx[t].parent != id {
      assert Has(s.broker, session.contextId, t);
      assert SessionOk(s, session.contextId, t);
    }
    RegisterKeepsCounts(ctx, session);
    var b' := Registered(s.broker, session);
    assert id in b'.contexts[session.contextId];
  }

  lemma RegisterKeepsInv(s: System, id: TaskId)
    requires Inv(s) && Enabled(s, Register(id))
    ensures Inv(Apply(s, Register(id)))
  {
    var s' := Apply(s, Register(id));
    assert StartOk(s, id);
    RegisterKeepsSessions(s, id);
    RegisterKeepsTasks(s, id);
    RegisterKeepsContexts(s, id);
    forall t | t in s'.starts ensures StartOk(s', t) {
      assert StartOk(s, t);
    }
  }

  /** Sessions and runtimes only disappear, or give up their client together with their runtime. */
  ghost predicate Shrinks(b: Broker, b': Broker) {
    && (forall c, t :: Has(b', c, t) ==>
          && Has(b, c, t)
          && (var x, x' := b.contexts[c][t], b'.contexts[c][t];
              && x'.(client := None, childCount := 0) == x.(client := None, childCount := 0)
              && (x'.client.Some? ==> x'.client == x.client && t in b'.tasks)))
    && (forall t :: t in b'.tasks ==>
          t in b.tasks && b'.tasks[t] == b.tasks[t] && ClientOf(b', t) == ClientOf(b, t))
  }

  lemma ShrinkingKeepsOk(s: System, b': Broker)
    requires Inv(s) && Shrinks(s.broker, b')
    ensures SessionsOk(s.(broker := b')) && TasksOk(s.(broker := b')) && StartsOk(s.(broker := b'))
  {
    var s' := s.(broker := b');
    forall c, t | Has(b', c, t) ensures SessionOk(s', c, t) {
      assert SessionOk(s, c, t);
    }
    forall t | t in b'.tasks ensures TaskOk(s', t) {
      assert TaskOk(s, t);
    }
    assert forall t :: t in s.starts ==> StartOk(s, t);
  }

  lemma FinishShrinks(s: System, id: TaskId, preserve: bool)
    requires SessionsOk(s) && SessionOf(s.broker, id).Some?
    ensures Shrinks(s.broker, Finished(s.broker, id, preserve))
  {
    var b, b' := s.broker, Finished(s.broker, id, preserve);
    forall c, t | Has(b', c, t)
      ensures Has(b, c, t)
      ensures b'.contexts[c][t].client.Some? ==> t in b'.tasks && b'.contexts[c][t].client == b.contexts[c][t].client
    {
      assert Has(b, c, t);
      assert SessionOk(s, c, t);
    }
    forall t | t in b'.tasks
      ensures t in b.tasks && b'.tasks[t] == b.tasks[t] && ClientOf(b', t) == ClientOf(b, t)
    {
      FinishKeepsOthers(b, id, preserve, t);
    }
  }

  lemma FinishKeepsContexts(s: System, id: TaskId, preserve: bool)
    requires SessionsOk(s) && ContextsOk(s.broker) && id in s.broker.tasks && SessionOf(s.broker, id).Some?
    ensures ContextsOk(Finished(s.broker, id, preserve))
  {
    var c0 := s.broker.tasks[id].contextId;
    var ctx := s.broker.contexts[c0];
    var ctx' := if preserve then Released(ctx, id) else Dropped(ctx, id);
    assert CountsOk(ctx') by {
      if preserve {
        SameTreeKeepsCounts(ctx, ctx');
      } else {
        assert Has(s.broker, c0, NO_TASK) ==> SessionOk(s, c0, NO_TASK);
        DropKeepsCounts(ctx, id);
      }
    }
    assert preserve ==> id in ctx';
  }

  lemma FinishKeepsInv(s: System, id: TaskId, preserve: bool)
    requires Inv(s)
    ensures Inv(s.(broker := Finished(s.broker, id, preserve)))
  {
    if id in s.broker.tasks {
      assert TaskOk(s, id);
      FinishShrinks(s, id, preserve);
      ShrinkingKeepsOk(s, Finished(s.broker, id, preserve));
      FinishKeepsContexts(s, id, preserve);
    }
  }

  lemma CloseKeepsInv(s: System)
    requires Inv(s)
    ensures Inv(s.(broker := Closed(s.broker)))
  {
    var b' := Closed(s.broker);
    forall c, t | Has(b', c, t) ensures b'.contexts[c][t].client == None {
      assert Has(s.broker, c, t);
      assert SessionOk(s, c, t);
    }
    ShrinkingKeepsOk(s, b');
    forall c | c in b'.contexts ensures b'.contexts[c] != map[] && CountsOk(b'.contexts[c]) {
      SameTreeKeepsCounts(s.broker.contexts[c], b'.contexts[c]);
      var t :| t in s.broker.contexts[c];
      assert t in b'.contexts[c];
    }
  }

  /** A change of a runtime's turn leaves sessions and clients alone. */
  lemma RuntimeKeepsInv(s: System, s': System, id: TaskId, runtime: Runtime)
    requires Inv(s) && id in s.broker.tasks
    requires runtime.taskId == id && runtime.contextId == s.broker.tasks[id].contextId
    requires s' == s.(broker := s.broker.(tasks := s.broker.tasks[id := runtime]),
                      threads := s'.threads, completed := s'.completed)
    ensures Inv(s')
  {
    RuntimeKeepsClient(s.broker, id, runtime);
    forall c, t | Has(s'.broker, c, t) ensures SessionOk(s', c, t) {
      assert Has(s.broker, c, t);
      assert SessionOk(s, c, t);
    }
    forall t | t in s'.broker.tasks ensures TaskOk(s', t) {
      assert TaskOk(s, t);
    }
    StartsFrame(s, s');
  }

  lemma StepKeepsInv(s: System, step: Step)
    requires Inv(s) && Enabled(s, step)
    ensures Inv(Apply(s, step))
  {
    match step
    case Begin(_, _, _, _) => BeginKeepsInv(s, step);
    case Launch(id, client) => LaunchKeepsInv(s, id, client);
    case MakeThread(id, made) =>
    case Register(id) => RegisterKeepsInv(s, id);
    case Finish(id) =>
      FinishKeepsInv(s, id, true);
    case Discard(id) =>
      FinishKeepsInv(s, id, false);
    case CloseAll(_) =>
      CloseKeepsInv(s);
    case SetRuntime(id, _) =>
      assert TaskOk(s, id);
      RuntimeKeepsInv(s, Apply(s, step), id, Apply(s, step).broker.tasks[id]);
    case CompleteTurn(id, _) =>
      assert TaskOk(s, id);
      RuntimeKeepsInv(s, Apply(s, step), id, Apply(s, step).broker.tasks[id]);
  }

  lemma {:induction false} RunKeepsInv(systems: seq<System>, steps: seq<Step>, n: nat)
    requires IsRun(systems, steps) && systems[0] == EMPTY && n <= |steps|
    ensures Inv(systems[n])
  {
    if n > 0 {
      RunKeepsInv(systems, steps, n - 1);
      StepKeepsInv(systems[n - 1], steps[n - 1]);
    }
  }
}
