/** The broker's state as values. */
module BrokerModel {
  // Contexts of task sessions, and the runtimes of active tasks.

  import opened Wrappers

  type TaskId = string
  type ContextId = string
  type ThreadId = string
  type ClientId = nat

  /** The parent of a session that has none. */
  const NO_TASK: TaskId := ""

  datatype PendingKind = CommandApproval | FileApproval | Elicitation

  /** A Codex server request that waits for the user; `id` is the wire ID to answer under. */
  datatype Pending = Pending(id: string, kind: PendingKind, raw: string)

  datatype Runtime = Runtime(
    taskId: TaskId,
    contextId: ContextId,
    turnId: string,
    cancelRequested: bool,
    pending: Option<Pending>,
    turnActive: bool,
    assistantTexts: map<string, string>,
    commandOutputs: map<string, string>,
    fileChangeDiffs: map<string, string>)
  {
    predicate BlocksBranching() {
      turnActive || pending.Some?
    }
  }

  function NewRuntime(id: TaskId, contextId: ContextId): Runtime {
    Runtime(id, contextId, "", false, None, false, map[], map[], map[])
  }

  datatype Session = Session(
    taskId: TaskId,
    contextId: ContextId,
    threadId: ThreadId,
    parent: TaskId,
    client: Option<ClientId>,
    childCount: int)

  type Context = map<TaskId, Session>

  datatype Broker = Broker(contexts: map<ContextId, Context>, tasks: map<TaskId, Runtime>)

  const EMPTY_BROKER: Broker := Broker(map[], map[])

  // ----- Operations, each one critical section of the broker's lock -----

  function ContextOf(b: Broker, contextId: ContextId): Context {
    if contextId in b.contexts then b.contexts[contextId] else map[]
  }

  /** One more child for `parent`, when the context still has it. */
  function Bumped(ctx: Context, parent: TaskId): Context {
    if parent != NO_TASK && parent in ctx then ctx[parent := ctx[parent].(childCount := ctx[parent].childCount + 1)]
    else ctx
  }

  /** The registering section of `startTask`. */
  function Registered(b: Broker, session: Session): Broker {
    var ctx := Bumped(ContextOf(b, session.contextId), session.parent);
    Broker(b.contexts[session.contextId := ctx[session.taskId := session]],
           b.tasks[session.taskId := NewRuntime(session.taskId, session.contextId)])
  }

  /** The session of an active task. */
  function SessionOf(b: Broker, id: TaskId): Option<Session> {
    if id in b.tasks && id in ContextOf(b, b.tasks[id].contextId)
    then Some(ContextOf(b, b.tasks[id].contextId)[id])
    else None
  }

  function ClientOf(b: Broker, id: TaskId): Option<ClientId> {
    match SessionOf(b, id)
    case None => None
    case Some(session) => session.client
  }

  function Released(ctx: Context, id: TaskId): Context
    requires id in ctx
  {
    ctx[id := ctx[id].(client := None)]
  }

  function Unbumped(ctx: Context, parent: TaskId): Context {
    if parent != NO_TASK && parent in ctx && ctx[parent].childCount > 0
    then ctx[parent := ctx[parent].(childCount := ctx[parent].childCount - 1)]
    else ctx
  }

  function Dropped(ctx: Context, id: TaskId): Context
    requires id in ctx
  {
    Unbumped(ctx, ctx[id].parent) - {id}
  }

  function WithContext(b: Broker, contextId: ContextId, ctx: Context): Broker {
    if ctx == map[] then b.(contexts := b.contexts - {contextId})
    else b.(contexts := b.contexts[contextId := ctx])
  }

  /** `finishTask` (`preserve`) and `discardTask`. The client to close is `ClientOf(b, id)`. */
  function Finished(b: Broker, id: TaskId, preserve: bool): Broker {
    if id !in b.tasks then b
    else
      var contextId := b.tasks[id].contextId;
      var b' := b.(tasks := b.tasks - {id});
      var ctx := ContextOf(b, contextId);
      if id !in ctx then b'
      else if preserve then WithContext(b', contextId, Released(ctx, id))
      else WithContext(b', contextId, Dropped(ctx, id))
  }

  /** A context where the sessions of the given runtimes gave up their clients. */
  function WithoutClients(b: Broker, c: ContextId, visited: set<TaskId>): Context
    requires c in b.contexts
  {
    map t | t in b.contexts[c] ::
      if t in visited && t in b.tasks && b.tasks[t].contextId == c then b.contexts[c][t].(client := None)
      else b.contexts[c][t]
  }

  /** The contexts when `Close` has visited some of the runtimes. */
  function ClosedAmong(b: Broker, visited: set<TaskId>): map<ContextId, Context> {
    map c | c in b.contexts :: WithoutClients(b, c, visited)
  }

  /** The section of `Close`: every runtime is dropped and its session gives up its client. */
  function Closed(b: Broker): Broker {
    Broker(ClosedAmong(b, b.tasks.Keys), map[])
  }

  lemma ClosedAtFirst(b: Broker)
    ensures ClosedAmong(b, {}) == b.contexts
  {
    forall c | c in b.contexts ensures WithoutClients(b, c, {}) == b.contexts[c] {
    }
  }

  lemma ClosedOneMore(b: Broker, visited: set<TaskId>, id: TaskId)
    requires SessionOf(b, id).Some? && id !in visited
    ensures var now := ClosedAmong(b, visited);
            var c := b.tasks[id].contextId;
            && c in now && id in now[c]
            && ClosedAmong(b, visited + {id}) == now[c := now[c][id := now[c][id].(client := None)]]
  {
    var c := b.tasks[id].contextId;
    var sessions := WithoutClients(b, c, visited);
    assert WithoutClients(b, c, visited + {id}) == sessions[id := sessions[id].(client := None)];
    forall d | d in b.contexts && d != c ensures WithoutClients(b, d, visited + {id}) == WithoutClients(b, d, visited) {
    }
  }

  lemma {:induction false} CollectedOneMore(b: Broker, order: seq<TaskId>, id: TaskId)
    ensures Collected(b, order + [id]) == Collected(b, order) + Collected(b, [id])
  {
    if order == [] {
      assert [] + [id] == [id];
    } else {
      assert (order + [id])[1..] == order[1..] + [id];
      CollectedOneMore(b, order[1..], id);
    }
  }

  /** The clients `Close` collects when it visits the runtimes in this order. */
  function Collected(b: Broker, order: seq<TaskId>): seq<ClientId> {
    if order == [] then []
    else (match ClientOf(b, order[0]) case Some(c) => [c] case None => []) + Collected(b, order[1..])
  }

  // ----- What the operations leave to other tasks -----

  lemma RegisterKeepsClient(b: Broker, session: Session, t: TaskId)
    requires t in b.tasks && t != session.taskId
    ensures ClientOf(Registered(b, session), t) == ClientOf(b, t)
    ensures Registered(b, session).tasks[t] == b.tasks[t]
  {
  }

  lemma FinishKeepsOthers(b: Broker, id: TaskId, preserve: bool, t: TaskId)
    requires t in Finished(b, id, preserve).tasks
    ensures t in b.tasks && Finished(b, id, preserve).tasks[t] == b.tasks[t]
    ensures id in b.tasks ==> t != id
    ensures ClientOf(Finished(b, id, preserve), t) == ClientOf(b, t)
  {
  }

  /** A finished task loses its runtime. Its session stays, without its client; or, discarded, it goes and its
      parent counts one child less. Nothing else changes, but that an empty context is not kept. */
  ghost predicate RightlyFinished(b: Broker, b': Broker, id: TaskId, preserve: bool) {
    && SessionOf(b, id).Some?
    && var c := b.tasks[id].contextId;
    && var ctx, ctx' := ContextOf(b, c), ContextOf(b', c);
    && b'.tasks == b.tasks - {id}
    && (preserve ==> ctx' == ctx[id := ctx[id].(client := None)])
    && (!preserve ==> ctx'.Keys == ctx.Keys - {id})
    && (!preserve ==>
          forall t :: t in ctx' ==>
            ctx'[t] == if t == ctx[id].parent && t != NO_TASK && ctx[t].childCount > 0
                       then ctx[t].(childCount := ctx[t].childCount - 1) else ctx[t])
    && (forall d :: d != c ==> ContextOf(b', d) == ContextOf(b, d))
    && (c in b'.contexts <==> ctx' != map[])
  }

  lemma FinishEffect(b: Broker, id: TaskId, preserve: bool)
    requires SessionOf(b, id).Some?
    ensures RightlyFinished(b, Finished(b, id, preserve), id, preserve)
  {
  }

  lemma RuntimeKeepsClient(b: Broker, id: TaskId, runtime: Runtime)
    requires id in b.tasks && runtime.contextId == b.tasks[id].contextId
    ensures forall t :: ClientOf(b.(tasks := b.tasks[id := runtime]), t) == ClientOf(b, t)
  {
  }

  // ----- Resolving a base session -----

  datatype ResolveError =
    | NotInContext
    | ManyReferences
    | StillActive(id: TaskId)
    | ActiveLeaf(id: TaskId)
    | ManyBranches

  predicate Blocked(b: Broker, id: TaskId) {
    id in b.tasks && b.tasks[id].BlocksBranching()
  }

  /** The keys of a map, each once, in any order. */
  ghost predicate Enumerates(order: seq<TaskId>, keys: set<TaskId>) {
    && (forall t :: t in keys <==> t in order)
    && (forall i, j :: 0 <= i < j < |order| ==> order[i] != order[j])
  }

  /** A visit of a context's sessions. */
  ghost predicate Visits(ctx: Context, order: seq<TaskId>) {
    Enumerates(order, ctx.Keys)
  }

  /** The loop over a context without a reference, in visiting order. */
  function ScanLeaves(b: Broker, ctx: Context, order: seq<TaskId>, leaf: Option<Session>)
    : Result<Option<Session>, ResolveError>
    requires forall t :: t in order ==> t in ctx
  {
    if order == [] then Ok(leaf)
    else
      var session := ctx[order[0]];
      if session.childCount != 0 then ScanLeaves(b, ctx, order[1..], leaf)
      else if Blocked(b, session.taskId) then Err(ActiveLeaf(session.taskId))
      else if leaf.Some? then Err(ManyBranches)
      else ScanLeaves(b, ctx, order[1..], Some(session))
  }

  /** `resolveBaseSession`, visiting the context in the given order. */
  function Resolve(b: Broker, contextId: ContextId, references: seq<TaskId>, order: seq<TaskId>)
    : Result<Option<Session>, ResolveError>
    requires forall t :: t in order ==> t in ContextOf(b, contextId)
  {
    var ctx := ContextOf(b, contextId);
    if ctx == map[] then
      if references != [] then Err(NotInContext) else Ok(None)
    else if |references| > 1 then Err(ManyReferences)
    else if |references| == 1 then
      if references[0] !in ctx then Err(NotInContext)
      else if Blocked(b, references[0]) then Err(StillActive(references[0]))
      else Ok(Some(ctx[references[0]]))
    else ScanLeaves(b, ctx, order, None)
  }

  ghost predicate IsLeaf(ctx: Context, t: TaskId) {
    t in ctx && ctx[t].childCount == 0
  }

  ghost predicate OnlyLeaf(ctx: Context, t: TaskId) {
    IsLeaf(ctx, t) && forall u :: IsLeaf(ctx, u) ==> u == t
  }

  /** Sessions are filed under their own IDs. */
  ghost predicate ContextKeyed(ctx: Context, contextId: ContextId) {
    forall t :: t in ctx ==> ctx[t].taskId == t && ctx[t].contextId == contextId && t != NO_TASK
  }

  lemma {:induction false} ScanOutcome(b: Broker, ctx: Context, order: seq<TaskId>, leaf: Option<Session>)
    requires forall t :: t in order ==> t in ctx && ctx[t].taskId == t
    requires forall i, j :: 0 <= i < j < |order| ==> order[i] != order[j]
    ensures var r := ScanLeaves(b, ctx, order, leaf);
            match r
            case Err(e) =>
              || (e.ActiveLeaf? && e.id in order && IsLeaf(ctx, e.id) && Blocked(b, e.id))
              || (e.ManyBranches? && leaf.Some? && exists t :: t in order && IsLeaf(ctx, t))
              || (e.ManyBranches? &&
                  exists t, u :: t in order && u in order && t != u && IsLeaf(ctx, t) && IsLeaf(ctx, u))
            case Ok(found) =>
              && (forall t :: t in order && IsLeaf(ctx, t) ==> !Blocked(b, t) && leaf == None && found == Some(ctx[t]))
              && ((forall t :: t in order ==> !IsLeaf(ctx, t)) ==> found == leaf)
  {
    if order != [] {
      var t, tail := order[0], order[1..];
      assert forall u :: u in order <==> u == t || u in tail;
      assert t !in tail;
      if !IsLeaf(ctx, t) {
        ScanOutcome(b, ctx, tail, leaf);
      } else if !Blocked(b, t) && leaf == None {
        ScanOutcome(b, ctx, tail, Some(ctx[t]));
      }
    }
  }

  /** A loop that got past a part of the context goes on with the rest. */
  lemma {:induction false} ScanGoesOn(b: Broker, ctx: Context, done: seq<TaskId>, rest: seq<TaskId>,
                                      from: Option<Session>, leaf: Option<Session>)
    requires forall t :: t in done + rest ==> t in ctx
    requires ScanLeaves(b, ctx, done, from) == Ok(leaf)
    ensures ScanLeaves(b, ctx, done + rest, from) == ScanLeaves(b, ctx, rest, leaf)
  {
    if done == [] {
      assert done + rest == rest;
    } else {
      assert (done + rest)[1..] == done[1..] + rest;
      var next := if ctx[done[0]].childCount != 0 then from else Some(ctx[done[0]]);
      ScanGoesOn(b, ctx, done[1..], rest, next, leaf);
    }
  }

  /** The unreferenced rule does not depend on the order the context is visited in: it succeeds with a
      session exactly when there is a single leaf and that leaf neither runs a turn nor waits for the
      user, and then it returns that leaf. An error names a leaf that does, or means two leaves. */
  lemma ResolutionOrderFree(b: Broker, contextId: ContextId, order: seq<TaskId>, t: TaskId)
    requires var ctx := ContextOf(b, contextId); ctx != map[] && ContextKeyed(ctx, contextId) && Visits(ctx, order)
    ensures var ctx := ContextOf(b, contextId);
            (exists s: Session :: Resolve(b, contextId, [], order) == Ok(Some(s)) && s.taskId == t) <==>
            OnlyLeaf(ctx, t) && (t in b.tasks ==> !b.tasks[t].turnActive && b.tasks[t].pending == None)
    ensures var ctx := ContextOf(b, contextId);
            OnlyLeaf(ctx, t) && (t in b.tasks ==> !b.tasks[t].turnActive && b.tasks[t].pending == None) ==>
              Resolve(b, contextId, [], order) == Ok(Some(ctx[t]))
    ensures var ctx := ContextOf(b, contextId);
            match Resolve(b, contextId, [], order)
            case Ok(_) => true
            case Err(e) =>
              || (e.ActiveLeaf? && IsLeaf(ctx, e.id) && e.id in b.tasks &&
                  (b.tasks[e.id].turnActive || b.tasks[e.id].pending.Some?))
              || (e == ManyBranches && exists u, v :: u != v && IsLeaf(ctx, u) && IsLeaf(ctx, v))
  {
    ScanOutcome(b, ContextOf(b, contextId), order, None);
  }

  /** One reference decides alone, whatever else the context holds: the task must be of the context and
      neither run a turn nor wait for the user. */
  lemma ReferenceResolves(b: Broker, contextId: ContextId, t: TaskId, order: seq<TaskId>)
    requires Visits(ContextOf(b, contextId), order)
    ensures var ctx := ContextOf(b, contextId);
            Resolve(b, contextId, [t], order) ==
            if t !in ctx then Err(NotInContext)
            else if t in b.tasks && (b.tasks[t].turnActive || b.tasks[t].pending.Some?) then Err(StillActive(t))
            else Ok(Some(ctx[t]))
  {
  }

  /** More than one reference is refused. */
  lemma ReferencesAreRefused(b: Broker, contextId: ContextId, references: seq<TaskId>, order: seq<TaskId>)
    requires Visits(ContextOf(b, contextId), order) && |references| > 1
    ensures Resolve(b, contextId, references, order) ==
            Err(if ContextOf(b, contextId) == map[] then NotInContext else ManyReferences)
  {
  }

  /** Whatever a resolve returns is a session of the context, of a task that neither runs a turn nor
      waits for the user. */
  lemma ResolvesToIdle(b: Broker, contextId: ContextId, references: seq<TaskId>, order: seq<TaskId>)
    requires ContextKeyed(ContextOf(b, contextId), contextId) && Visits(ContextOf(b, contextId), order)
    ensures var ctx, r := ContextOf(b, contextId), Resolve(b, contextId, references, order);
            r.Ok? && r.value.Some? ==>
              var t := r.value.value.taskId;
              && t in ctx && ctx[t] == r.value.value && (references == [] || references == [t])
              && (t in b.tasks ==> !b.tasks[t].turnActive && b.tasks[t].pending == None)
  {
    var ctx := ContextOf(b, contextId);
    if references == [] && ctx != map[] {
      ScanOutcome(b, ctx, order, None);
      ScanReturnsLeaf(b, ctx, order, None);
    }
  }

  lemma {:induction false} ScanReturnsLeaf(b: Broker, ctx: Context, order: seq<TaskId>, leaf: Option<Session>)
    requires forall t :: t in order ==> t in ctx && ctx[t].taskId == t
    ensures var r := ScanLeaves(b, ctx, order, leaf);
            r.Ok? && r.value != leaf ==> exists t :: t in order && IsLeaf(ctx, t) && r.value == Some(ctx[t])
  {
    if order != [] {
      var session := ctx[order[0]];
      ScanReturnsLeaf(b, ctx, order[1..], leaf);
      ScanReturnsLeaf(b, ctx, order[1..], Some(session));
    }
  }

  // ----- The child index of one context -----

  ghost function Children(ctx: Context, t: TaskId): set<TaskId> {
    set u | u in ctx && ctx[u].parent == t
  }

  /** Every `childCount` is the number of sessions that name the session as parent. */
  ghost predicate CountsOk(ctx: Context) {
    forall t :: t in ctx ==> ctx[t].childCount == |Children(ctx, t)|
  }

  /** Trees with the same tasks under the same parents have the same children. */
  lemma SameParents(ctx: Context, ctx': Context, t: TaskId)
    requires ctx'.Keys == ctx.Keys
    requires forall u :: u in ctx ==> ctx'[u].parent == ctx[u].parent
    ensures Children(ctx', t) == Children(ctx, t)
  {
  }

  lemma ChildrenWith(ctx: Context, session: Session, t: TaskId)
    requires session.taskId !in ctx
    ensures Children(ctx[session.taskId := session], t) ==
            Children(ctx, t) + if session.parent == t then {session.taskId} else {}
  {
  }

  lemma ChildrenWithout(ctx: Context, id: TaskId, t: TaskId)
    ensures Children(ctx - {id}, t) == Children(ctx, t) - {id}
  {
  }

  lemma RegisterKeepsCounts(ctx: Context, session: Session)
    requires CountsOk(ctx) && session.taskId !in ctx && session.childCount == 0
    requires session.parent != session.taskId && NO_TASK !in ctx
    requires forall t :: t in ctx ==> ctx[t].parent != session.taskId
    ensures CountsOk(Bumped(ctx, session.parent)[session.taskId := session])
  {
    var bumped := Bumped(ctx, session.parent);
    var ctx' := bumped[session.taskId := session];
    forall t | t in ctx' ensures ctx'[t].childCount == |Children(ctx', t)| {
      SameParents(ctx, bumped, t);
      ChildrenWith(bumped, session, t);
      if t == session.taskId {
        assert Children(ctx, t) == {};
      } else {
        assert session.taskId !in Children(ctx, t);
      }
    }
  }

  lemma DropKeepsCounts(ctx: Context, id: TaskId)
    requires CountsOk(ctx) && id in ctx && NO_TASK !in ctx
    ensures CountsOk(Dropped(ctx, id))
  {
    var parent := ctx[id].parent;
    assert id in Children(ctx, parent);
    var unbumped := Unbumped(ctx, parent);
    var ctx' := Dropped(ctx, id);
    forall t | t in ctx' ensures ctx'[t].childCount == |Children(ctx', t)| {
      SameParents(ctx, unbumped, t);
      ChildrenWithout(unbumped, id, t);
      assert t != parent ==> id !in Children(ctx, t);
    }
  }

  /** Changing clients only leaves the index alone. */
  lemma SameTreeKeepsCounts(ctx: Context, ctx': Context)
    requires CountsOk(ctx) && ctx'.Keys == ctx.Keys
    requires forall t :: t in ctx ==> ctx'[t].(client := ctx[t].client) == ctx[t]
    ensures CountsOk(ctx')
  {
    forall t | t in ctx' ensures ctx'[t].childCount == |Children(ctx', t)| {
      assert ctx'[t].childCount == ctx[t].childCount;
      SameParents(ctx, ctx', t);
    }
  }

  /** With parents older than their children, a context that has sessions has a leaf: the
      youngest session is nobody's parent. */
  lemma {:induction false} YoungestIsLeaf(ctx: Context, born: map<TaskId, nat>, among: set<TaskId>)
    returns (leaf: TaskId)
    requires among != {} && among <= ctx.Keys <= born.Keys
    requires CountsOk(ctx)
    requires forall t :: t in ctx && ctx[t].parent in ctx ==> born[ctx[t].parent] < born[t]
    requires forall t, u :: t in ctx && t !in among && u in among ==> born[t] <= born[u]
    ensures IsLeaf(ctx, leaf)
  {
    var t :| t in among;
    var younger := set u | u in among && born[u] > born[t];
    if younger == {} {
      assert Children(ctx, t) == {};
      leaf := t;
    } else {
      leaf := YoungestIsLeaf(ctx, born, younger);
    }
  }
}
