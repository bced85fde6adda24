/** The broker over all runs. */
module BrokerRuns {
  // Every interleaving of overlapping starts, turns, finishes, discards and closes.

  import opened Wrappers
  import opened BrokerModel
  import opened BrokerSystem

  // ----- What holds in every reachable state -----

  /** Index agreement. However starts, finishes, discards and closes overlap, every session's
      `childCount` is the number of sessions in its context that name it as parent, even when a
      parent is discarded between a child's resolve and its registration. */
  lemma IndexAgreement(systems: seq<System>, steps: seq<Step>, i: nat, c: ContextId, t: TaskId)
    requires IsRun(systems, steps) && systems[0] == EMPTY
    requires i <= |steps| && Has(systems[i].broker, c, t)
    ensures systems[i].broker.contexts[c][t].childCount == |Children(systems[i].broker.contexts[c], t)|
  {
    RunKeepsInv(systems, steps, i);
    assert CountsOk(systems[i].broker.contexts[c]);
  }

  /** A kept context has a session nobody forked from. */
  lemma KnownContextHasLeaf(s: System, c: ContextId) returns (leaf: TaskId)
    requires Inv(s) && c in s.broker.contexts
    ensures IsLeaf(s.broker.contexts[c], leaf)
  {
    var ctx := s.broker.contexts[c];
    forall t | t in ctx
      ensures t in s.born && t != NO_TASK
      ensures ctx[t].parent in ctx ==> ctx[t].parent in s.born && s.born[ctx[t].parent] < s.born[t]
    {
      assert Has(s.broker, c, t) && SessionOk(s, c, t);
      assert ctx[t].parent in ctx ==> Has(s.broker, c, ctx[t].parent) && SessionOk(s, c, ctx[t].parent);
    }
    leaf := YoungestIsLeaf(ctx, s.born, ctx.Keys);
  }

  /** A known context never silently starts an unrelated thread: a start is resolved to no base,
      and so to a new thread, exactly when it names no reference and its context holds no session. */
  lemma OnlyUnknownContextsStartFresh(
    systems: seq<System>, steps: seq<Step>, i: nat,
    contextId: ContextId, references: seq<TaskId>, order: seq<TaskId>)
    requires IsRun(systems, steps) && systems[0] == EMPTY && i <= |steps|
    requires Visits(ContextOf(systems[i].broker, contextId), order)
    ensures var b := systems[i].broker;
            Resolve(b, contextId, references, order) == Ok(None) <==> references == [] && contextId !in b.contexts
  {
    RunKeepsInv(systems, steps, i);
    var s := systems[i];
    if contextId in s.broker.contexts {
      var ctx := s.broker.contexts[contextId];
      var leaf := KnownContextHasLeaf(s, contextId);
      forall t | t in ctx ensures ctx[t].taskId == t {
        assert Has(s.broker, contextId, t) && SessionOk(s, contextId, t);
      }
      ScanOutcome(s.broker, ctx, order, None);
    }
  }

  /** No start forks a thread in mid-turn: in every run a start that is resolved to a task found that
      task to be a session of its context, with that thread, and neither running a turn nor waiting for
      the user. */
  lemma StartsFromIdle(systems: seq<System>, steps: seq<Step>, i: nat)
    requires IsRun(systems, steps) && systems[0] == EMPTY && i < |steps| && steps[i].Begin?
    ensures var s, s', id, c := systems[i], systems[i + 1], steps[i].id, steps[i].contextId;
            id in s'.starts && s'.starts[id].base.Some? ==>
              var base := s'.starts[id].base.value;
              && Has(s.broker, c, base.taskId) && s.broker.contexts[c][base.taskId].threadId == base.threadId
              && (steps[i].references == [] || steps[i].references == [base.taskId])
              && (base.taskId in s.broker.tasks ==>
                    !s.broker.tasks[base.taskId].turnActive && s.broker.tasks[base.taskId].pending == None)
  {
    RunKeepsInv(systems, steps, i);
    var s, step := systems[i], steps[i];
    var ctx := ContextOf(s.broker, step.contextId);
    assert step.id in s.starts ==> StartOk(s, step.id);
    forall t | t in ctx ensures ctx[t].taskId == t && ctx[t].contextId == step.contextId && t != NO_TASK {
      assert Has(s.broker, step.contextId, t) && SessionOk(s, step.contextId, t);
    }
    ResolvesToIdle(s.broker, step.contextId, step.references, step.order);
  }

  // ----- Rolling a registration back -----

  /** Work on other tasks, in other contexts than `contextId`. */
  datatype Other =
    | OtherRegister(session: Session)
    | OtherFinish(id: TaskId, preserve: bool)
    | OtherTurn(runtime: Runtime)

  ghost predicate Elsewhere(b: Broker, o: Other, id: TaskId, contextId: ContextId) {
    match o
    case OtherRegister(session) => session.taskId != id && session.contextId != contextId
    case OtherFinish(t, _) => t != id && (t in b.tasks ==> b.tasks[t].contextId != contextId)
    case OtherTurn(runtime) => runtime.taskId != id && runtime.taskId in b.tasks &&
                               runtime.contextId == b.tasks[runtime.taskId].contextId
  }

  function Do(b: Broker, o: Other): Broker {
    match o
    case OtherRegister(session) => Registered(b, session)
    case OtherFinish(t, preserve) => Finished(b, t, preserve)
    case OtherTurn(runtime) => b.(tasks := b.tasks[runtime.taskId := runtime])
  }

  function DoAll(b: Broker, others: seq<Other>): Broker
    decreases |others|
  {
    if others == [] then b else DoAll(Do(b, others[0]), others[1..])
  }

  ghost predicate AllElsewhere(b: Broker, others: seq<Other>, id: TaskId, contextId: ContextId)
    decreases |others|
  {
    others != [] ==>
      Elsewhere(b, others[0], id, contextId) && AllElsewhere(Do(b, others[0]), others[1..], id, contextId)
  }

  /** A session about to be registered: new, and into a context that is not kept empty. */
  ghost predicate Joins(b: Broker, session: Session) {
    && session.taskId !in b.tasks
    && session.taskId !in ContextOf(b, session.contextId)
    && session.parent != session.taskId
    && (session.contextId in b.contexts ==> b.contexts[session.contextId] != map[])
    && (forall t :: t in ContextOf(b, session.contextId) ==> ContextOf(b, session.contextId)[t].childCount >= 0)
  }

  lemma DiscardUndoesRegister(b: Broker, session: Session)
    requires Joins(b, session)
    ensures Finished(Registered(b, session), session.taskId, false) == b
  {
    var id := session.taskId;
    var ctx := ContextOf(b, session.contextId);
    var r := Registered(b, session);
    var back := Dropped(r.contexts[session.contextId], id);
    assert back == ctx by {
      assert back.Keys == ctx.Keys;
      forall t | t in ctx ensures back[t] == ctx[t] {
      }
    }
    assert r.tasks - {id} == b.tasks;
    if ctx == map[] {
      assert r.contexts - {session.contextId} == b.contexts;
    } else {
      assert r.contexts[session.contextId := ctx] == b.contexts;
    }
  }

  /** What the registered context becomes. */
  function Joined(b: Broker, session: Session): Context {
    Bumped(ContextOf(b, session.contextId), session.parent)[session.taskId := session]
  }

  lemma RegisterCommutes(b: Broker, other: Session, session: Session)
    requires other.taskId != session.taskId && other.contextId != session.contextId
    ensures Registered(Registered(b, session), other) == Registered(Registered(b, other), session)
  {
    var c, d := session.contextId, other.contextId;
    assert Joined(Registered(b, session), other) == Joined(b, other);
    assert Joined(Registered(b, other), session) == Joined(b, session);
    SwapUpdates(b.contexts, c, Joined(b, session), d, Joined(b, other));
    SwapUpdates(b.tasks, session.taskId, NewRuntime(session.taskId, c), other.taskId, NewRuntime(other.taskId, d));
  }

  lemma SwapUpdates<K, V>(m: map<K, V>, k: K, v: V, l: K, w: V)
    requires k != l
    ensures m[k := v][l := w] == m[l := w][k := v]
  {
  }

  lemma WithContextCommutes(b: Broker, c: ContextId, ctx: Context, session: Session)
    requires session.contextId != c
    ensures WithContext(Registered(b, session), c, ctx).contexts == Registered(WithContext(b, c, ctx), session).contexts
  {
    var kept := ContextOf(b, session.contextId);
    assert ContextOf(WithContext(b, c, ctx), session.contextId) == kept;
    var ctx' := Bumped(kept, session.parent)[session.taskId := session];
    assert b.contexts[session.contextId := ctx'] - {c} == (b.contexts - {c})[session.contextId := ctx'];
    assert b.contexts[session.contextId := ctx'][c := ctx] == b.contexts[c := ctx][session.contextId := ctx'];
  }

  lemma FinishCommutes(b: Broker, t: TaskId, preserve: bool, session: Session)
    requires t != session.taskId && (t in b.tasks ==> b.tasks[t].contextId != session.contextId)
    ensures Finished(Registered(b, session), t, preserve) == Registered(Finished(b, t, preserve), session)
  {
    if t in b.tasks {
      var c := b.tasks[t].contextId;
      var ctx := ContextOf(b, c);
      var b', r' := b.(tasks := b.tasks - {t}), Registered(b, session);
      assert ContextOf(r', c) == ctx;
      assert r'.tasks - {t} == Registered(b', session).tasks;
      assert r'.(tasks := r'.tasks - {t}) == Registered(b', session);
      if t in ctx {
        WithContextCommutes(b', c, if preserve then Released(ctx, t) else Dropped(ctx, t), session);
      }
    }
  }

  lemma OtherCommutes(b: Broker, o: Other, session: Session)
    requires Elsewhere(b, o, session.taskId, session.contextId)
    ensures Do(Registered(b, session), o) == Registered(Do(b, o), session)
  {
    match o
    case OtherRegister(other) => RegisterCommutes(b, other, session);
    case OtherFinish(t, preserve) => FinishCommutes(b, t, preserve, session);
    case OtherTurn(runtime) =>
      assert Do(Registered(b, session), o).tasks == Registered(Do(b, o), session).tasks;
  }

  lemma {:induction false} OthersCommute(b: Broker, others: seq<Other>, session: Session)
    requires Joins(b, session) && AllElsewhere(b, others, session.taskId, session.contextId)
    ensures DoAll(Registered(b, session), others) == Registered(DoAll(b, others), session)
    ensures Joins(DoAll(b, others), session)
    decreases |others|
  {
    if others != [] {
      OtherCommutes(b, others[0], session);
      OthersCommute(Do(b, others[0]), others[1..], session);
    }
  }

  /** Rollback. Registering a new task and then discarding it, whatever happened in other contexts
      in between, leaves the broker as if the task had never been registered: contexts, child
      counts and runtimes, down to removing a context it had created. The finish that follows a
      failed execution then changes nothing. */
  lemma {:induction false} DiscardRollsBack(b: Broker, others: seq<Other>, session: Session, preserve: bool)
    requires Joins(b, session) && AllElsewhere(b, others, session.taskId, session.contextId)
    ensures Finished(DoAll(Registered(b, session), others), session.taskId, false) == DoAll(b, others)
    ensures Finished(DoAll(b, others), session.taskId, preserve) == DoAll(b, others)
  {
    OthersCommute(b, others, session);
    DiscardUndoesRegister(DoAll(b, others), session);
  }

  /** In a reachable state every start that is about to register joins this way. */
  lemma StartsJoin(s: System, id: TaskId)
    requires Inv(s) && id in s.starts && s.starts[id].Threaded?
    ensures Joins(s.broker, NewSession(id, s.starts[id]))
  {
    var session := NewSession(id, s.starts[id]);
    var ctx := ContextOf(s.broker, session.contextId);
    assert StartOk(s, id);
    assert id in s.broker.tasks ==> TaskOk(s, id) && Has(s.broker, s.broker.tasks[id].contextId, id)
                                    && SessionOk(s, s.broker.tasks[id].contextId, id);
    assert id in ctx ==> Has(s.broker, session.contextId, id) && SessionOk(s, session.contextId, id);
  }
}
