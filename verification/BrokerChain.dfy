/** When a context is a single chain: in every run of the broker, and when it is used one start at a time. */
module BrokerChain {
  // Exactly as long as every start registers at its end and every discard takes its end away.

  import opened Wrappers
  import opened BrokerModel
  import opened BrokerSystem
  import opened BrokerRuns

  ghost predicate Linked(ctx: Context, line: seq<TaskId>, i: int)
    requires 0 <= i < |line|
  {
    && line[i] in ctx
    && ctx[line[i]].parent == (if i == 0 then NO_TASK else line[i - 1])
    && ctx[line[i]].childCount == (if i == |line| - 1 then 0 else 1)
  }

  /** The sessions of a context in a line, each the parent of the next. */
  ghost predicate IsChain(ctx: Context, line: seq<TaskId>) {
    Visits(ctx, line) && forall i :: 0 <= i < |line| ==> Linked(ctx, line, i)
  }

  function LastOf(line: seq<TaskId>): TaskId {
    if line == [] then NO_TASK else line[|line| - 1]
  }

  lemma ChainHasOneLeaf(ctx: Context, line: seq<TaskId>)
    requires IsChain(ctx, line) && line != []
    ensures OnlyLeaf(ctx, LastOf(line))
  {
    assert Linked(ctx, line, |line| - 1);
    forall t | IsLeaf(ctx, t) ensures t == LastOf(line) {
      var i :| 0 <= i < |line| && line[i] == t;
      assert Linked(ctx, line, i);
    }
  }

  lemma GrowChain(ctx: Context, line: seq<TaskId>, session: Session)
    requires IsChain(ctx, line) && NO_TASK !in ctx && session.taskId !in ctx
    requires session.childCount == 0 && session.parent == LastOf(line)
    ensures IsChain(Bumped(ctx, session.parent)[session.taskId := session], line + [session.taskId])
  {
    var ctx' := Bumped(ctx, session.parent)[session.taskId := session];
    var line' := line + [session.taskId];
    forall i | 0 <= i < |line'| ensures Linked(ctx', line', i) {
      if i < |line| {
        assert Linked(ctx, line, i) && line[i] in line;
        assert line[i] == LastOf(line) ==> i == |line| - 1;
      }
    }
    assert forall t :: t in ctx' <==> t in line';
    forall i, j | 0 <= i < j < |line'| ensures line'[i] != line'[j] {
      assert line'[i] in line;
    }
  }

  lemma ShorterLinks(ctx: Context, line: seq<TaskId>, i: nat)
    requires IsChain(ctx, line) && NO_TASK !in ctx && line != [] && i < |line| - 1
    ensures Linked(Dropped(ctx, LastOf(line)), line[..|line| - 1], i)
  {
    assert Linked(ctx, line, i) && Linked(ctx, line, |line| - 1);
    assert line[i] != LastOf(line);
  }

  lemma ShrinkChain(ctx: Context, line: seq<TaskId>, id: TaskId)
    requires IsChain(ctx, line) && NO_TASK !in ctx && IsLeaf(ctx, id)
    ensures IsChain(Dropped(ctx, id), line[..|line| - 1])
  {
    assert id in line;
    ChainHasOneLeaf(ctx, line);
    var line' := line[..|line| - 1];
    forall i | 0 <= i < |line'| ensures Linked(Dropped(ctx, id), line', i) {
      ShorterLinks(ctx, line, i);
    }
    assert line == line' + [id];
    assert forall t :: t in line <==> t in line' || t == id;
    assert id !in line';
  }

  /** Only clients differ. */
  ghost predicate SameTree(ctx: Context, ctx': Context) {
    ctx'.Keys == ctx.Keys && forall t :: t in ctx ==> ctx'[t].(client := ctx[t].client) == ctx[t]
  }

  lemma SameTreeChain(ctx: Context, ctx': Context, line: seq<TaskId>)
    requires IsChain(ctx, line) && SameTree(ctx, ctx')
    ensures IsChain(ctx', line)
  {
    forall i | 0 <= i < |line| ensures Linked(ctx', line, i) {
      assert Linked(ctx, line, i);
      assert ctx'[line[i]].(client := ctx[line[i]].client) == ctx[line[i]];
    }
  }

  lemma {:induction false} OneLeafScan(b: Broker, ctx: Context, order: seq<TaskId>, leaf: TaskId)
    requires OnlyLeaf(ctx, leaf) && ctx[leaf].taskId == leaf
    requires forall t :: t in order ==> t in ctx
    requires leaf in order && forall i, j :: 0 <= i < j < |order| ==> order[i] != order[j]
    ensures ScanLeaves(b, ctx, order, None) == if Blocked(b, leaf) then Err(ActiveLeaf(leaf)) else Ok(Some(ctx[leaf]))
  {
    if order[0] == leaf {
      assert leaf !in order[1..];
      NoLeafScan(b, ctx, order[1..], Some(ctx[leaf]), leaf);
    } else {
      assert !IsLeaf(ctx, order[0]);
      OneLeafScan(b, ctx, order[1..], leaf);
    }
  }

  lemma {:induction false} NoLeafScan(b: Broker, ctx: Context, order: seq<TaskId>, found: Option<Session>, leaf: TaskId)
    requires OnlyLeaf(ctx, leaf) && leaf !in order && forall t :: t in order ==> t in ctx
    ensures ScanLeaves(b, ctx, order, found) == Ok(found)
  {
    if order != [] {
      assert !IsLeaf(ctx, order[0]);
      NoLeafScan(b, ctx, order[1..], found, leaf);
    }
  }

  /** What an unreferenced start is resolved to in a chain, in whatever order it is visited. */
  lemma ChainResolves(b: Broker, c: ContextId, order: seq<TaskId>, line: seq<TaskId>)
    requires var ctx := ContextOf(b, c); IsChain(ctx, line) && ContextKeyed(ctx, c) && Visits(ctx, order)
    ensures var ctx := ContextOf(b, c);
            && (line != [] ==> LastOf(line) in ctx)
            && Resolve(b, c, [], order) ==
               (if line == [] then Ok(None)
                else if LastOf(line) in b.tasks &&
                        (b.tasks[LastOf(line)].turnActive || b.tasks[LastOf(line)].pending.Some?)
                then Err(ActiveLeaf(LastOf(line)))
                else Ok(Some(ctx[LastOf(line)])))
  {
    var ctx := ContextOf(b, c);
    if line == [] {
      assert ctx == map[];
    } else {
      ChainHasOneLeaf(ctx, line);
      OneLeafScan(b, ctx, order, LastOf(line));
    }
  }

  // ----- The two steps that change the tree -----

  /** In a chain a session without a parent in the context names none. */
  lemma ParentsInLine(ctx: Context, line: seq<TaskId>, t: TaskId)
    requires IsChain(ctx, line) && t in ctx
    ensures ctx[t].parent == NO_TASK || (ctx[t].parent in ctx && ctx[t].parent != t)
  {
    assert t in line;
    var i :| 0 <= i < |line| && line[i] == t;
    assert Linked(ctx, line, i) && (i > 0 ==> Linked(ctx, line, i - 1));
  }

  /** A new session anywhere but at the end of the line leaves no line at all. */
  lemma StraySessionBranches(ctx: Context, line: seq<TaskId>, session: Session, line': seq<TaskId>)
    requires IsChain(ctx, line) && NO_TASK !in ctx && session.taskId !in ctx
    requires session.childCount == 0 && session.parent != LastOf(line)
    ensures !IsChain(Bumped(ctx, session.parent)[session.taskId := session], line')
  {
    var id, ctx' := session.taskId, Bumped(ctx, session.parent)[session.taskId := session];
    if line == [] {
      assert ctx == map[];
      if IsChain(ctx', line') {
        ParentsInLine(ctx', line', id);
      }
    } else {
      ChainHasOneLeaf(ctx, line);
      assert IsLeaf(ctx', id) && IsLeaf(ctx', LastOf(line)) && id != LastOf(line);
      assert id in ctx';
      if IsChain(ctx', line') {
        assert id in line';
        ChainHasOneLeaf(ctx', line');
      }
    }
  }

  /** Dropping a session that has a child leaves the child without its parent. */
  lemma OrphanBreaksLine(ctx: Context, line: seq<TaskId>, id: TaskId, line': seq<TaskId>)
    requires IsChain(ctx, line) && NO_TASK !in ctx && id in ctx && !IsLeaf(ctx, id)
    ensures !IsChain(Dropped(ctx, id), line')
  {
    assert id in line;
    var k :| 0 <= k < |line| && line[k] == id;
    assert Linked(ctx, line, k);
    assert Linked(ctx, line, k + 1);
    if IsChain(Dropped(ctx, id), line') {
      ParentsInLine(Dropped(ctx, id), line', line[k + 1]);
    }
  }

  // ----- The steps of a run -----

  ghost predicate MakesChain(ctx: Context) {
    exists line :: IsChain(ctx, line)
  }

  ghost predicate Chained(s: System, c: ContextId) {
    MakesChain(ContextOf(s.broker, c))
  }

  /** The end of a chain: its leaf, or nothing when it is empty. */
  ghost predicate AtTheEnd(ctx: Context, base: Option<Base>) {
    match base
    case Some(b) => IsLeaf(ctx, b.taskId)
    case None => ctx == map[]
  }

  predicate ActiveIn(b: Broker, id: TaskId, c: ContextId) {
    id in b.tasks && b.tasks[id].contextId == c && id in ContextOf(b, c)
  }

  predicate Starting(s: System, c: ContextId, t: TaskId) {
    t in s.starts && s.starts[t].contextId == c
  }

  /** A step that goes on with a chain: a start registers at the end of it, as it is by then, and a
      discard takes the end of it away. */
  ghost predicate Straight(s: System, step: Step, c: ContextId) {
    match step
    case Register(id) => Starting(s, c, id) ==> AtTheEnd(ContextOf(s.broker, c), s.starts[id].base)
    case Discard(id) => ActiveIn(s.broker, id, c) ==> IsLeaf(ContextOf(s.broker, c), id)
    case _ => true
  }

  lemma SessionsAreKeyed(s: System, c: ContextId)
    requires Inv(s)
    ensures ContextKeyed(ContextOf(s.broker, c), c)
    ensures forall t :: t in ContextOf(s.broker, c) ==> t in s.born
  {
    forall t | t in ContextOf(s.broker, c)
      ensures ContextOf(s.broker, c)[t].taskId == t && ContextOf(s.broker, c)[t].contextId == c
      ensures t != NO_TASK && t in s.born
    {
      assert Has(s.broker, c, t) && SessionOk(s, c, t);
    }
  }

  lemma EndIsLast(ctx: Context, line: seq<TaskId>, base: Option<Base>)
    requires IsChain(ctx, line) && NO_TASK !in ctx && (base.Some? ==> base.value.taskId != NO_TASK)
    ensures AtTheEnd(ctx, base) <==> (if base.Some? then base.value.taskId else NO_TASK) == LastOf(line)
  {
    if line == [] {
      assert ctx == map[];
    } else {
      assert LastOf(line) in line;
      ChainHasOneLeaf(ctx, line);
    }
  }

  lemma GrowExact(ctx: Context, line: seq<TaskId>, session: Session)
    requires IsChain(ctx, line) && NO_TASK !in ctx && session.taskId !in ctx && session.childCount == 0
    ensures MakesChain(Bumped(ctx, session.parent)[session.taskId := session]) <==> session.parent == LastOf(line)
  {
    if session.parent == LastOf(line) {
      GrowChain(ctx, line, session);
    } else {
      var ctx' := Bumped(ctx, session.parent)[session.taskId := session];
      forall line' ensures !IsChain(ctx', line') {
        StraySessionBranches(ctx, line, session, line');
      }
    }
  }

  lemma DropExact(ctx: Context, line: seq<TaskId>, id: TaskId)
    requires IsChain(ctx, line) && NO_TASK !in ctx && id in ctx
    ensures MakesChain(Dropped(ctx, id)) <==> IsLeaf(ctx, id)
  {
    if IsLeaf(ctx, id) {
      ShrinkChain(ctx, line, id);
    } else {
      var ctx' := Dropped(ctx, id);
      forall line' ensures !IsChain(ctx', line') {
        OrphanBreaksLine(ctx, line, id, line');
      }
    }
  }

  /** A start that registers in a chain leaves a chain exactly when its base is the last task of the
      line at that moment. */
  lemma RegisterExact(s: System, id: TaskId, c: ContextId, line: seq<TaskId>)
    requires Inv(s) && Enabled(s, Register(id)) && Starting(s, c, id) && IsChain(ContextOf(s.broker, c), line)
    ensures var base := s.starts[id].base;
            && (Chained(Apply(s, Register(id)), c) <==> AtTheEnd(ContextOf(s.broker, c), base))
            && (AtTheEnd(ContextOf(s.broker, c), base) <==>
                  (if base.Some? then base.value.taskId else NO_TASK) == LastOf(line))
  {
    var ctx, session := ContextOf(s.broker, c), NewSession(id, s.starts[id]);
    SessionsAreKeyed(s, c);
    assert StartOk(s, id);
    EndIsLast(ctx, line, s.starts[id].base);
    assert ContextOf(Apply(s, Register(id)).broker, c) == Bumped(ctx, session.parent)[id := session];
    GrowExact(ctx, line, session);
  }

  lemma FinishedContext(b: Broker, id: TaskId, preserve: bool, c: ContextId)
    ensures ContextOf(Finished(b, id, preserve), c) ==
            if ActiveIn(b, id, c) then
              if preserve then Released(ContextOf(b, c), id) else Dropped(ContextOf(b, c), id)
            else ContextOf(b, c)
  {
  }

  /** A discard leaves a chain exactly when the task it drops has no children. */
  lemma DiscardExact(s: System, id: TaskId, c: ContextId, line: seq<TaskId>)
    requires Inv(s) && ActiveIn(s.broker, id, c) && IsChain(ContextOf(s.broker, c), line)
    ensures Chained(Apply(s, Discard(id)), c) <==> IsLeaf(ContextOf(s.broker, c), id)
  {
    var ctx := ContextOf(s.broker, c);
    FinishedContext(s.broker, id, false, c);
    assert ContextOf(Apply(s, Discard(id)).broker, c) == Dropped(ctx, id);
    assert NO_TASK !in ctx by {
      SessionsAreKeyed(s, c);
    }
    DropExact(ctx, line, id);
  }

  lemma RegisterElsewhere(s: System, id: TaskId, c: ContextId)
    requires Enabled(s, Register(id)) && !Starting(s, c, id)
    ensures ContextOf(Apply(s, Register(id)).broker, c) == ContextOf(s.broker, c)
  {
  }

  lemma FinishKeepsTree(b: Broker, id: TaskId, c: ContextId)
    ensures SameTree(ContextOf(b, c), ContextOf(Finished(b, id, true), c))
  {
    FinishedContext(b, id, true, c);
  }

  /** Every other step keeps the tree of the context. */
  lemma OthersKeepTree(s: System, step: Step, c: ContextId)
    requires Enabled(s, step)
    requires step.Register? ==> !Starting(s, c, step.id)
    requires step.Discard? ==> !ActiveIn(s.broker, step.id, c)
    ensures SameTree(ContextOf(s.broker, c), ContextOf(Apply(s, step).broker, c))
  {
    match step
    case Register(id) => RegisterElsewhere(s, id, c);
    case Finish(id) => FinishKeepsTree(s.broker, id, c);
    case Discard(id) => FinishedContext(s.broker, id, false, c);
    case CloseAll(_) =>
    case _ => assert Apply(s, step).broker.contexts == s.broker.contexts;
  }

  lemma StepExact(s: System, step: Step, s': System, c: ContextId)
    requires Inv(s) && Enabled(s, step) && s' == Apply(s, step) && Chained(s, c)
    ensures Chained(s', c) <==> Straight(s, step, c)
  {
    var line :| IsChain(ContextOf(s.broker, c), line);
    if step.Register? && Starting(s, c, step.id) {
      RegisterExact(s, step.id, c, line);
    } else if step.Discard? && ActiveIn(s.broker, step.id, c) {
      DiscardExact(s, step.id, c, line);
    } else {
      OthersKeepTree(s, step, c);
      SameTreeChain(ContextOf(s.broker, c), ContextOf(s'.broker, c), line);
    }
  }

  ghost predicate AlwaysChained(systems: seq<System>, c: ContextId, n: nat)
    requires n < |systems|
  {
    forall i: nat :: i <= n ==> Chained(systems[i], c)
  }

  ghost predicate AlwaysStraight(systems: seq<System>, steps: seq<Step>, c: ContextId, n: nat)
    requires n <= |steps| < |systems|
  {
    forall i: nat :: i < n ==> Straight(systems[i], steps[i], c)
  }

  /** Over all interleavings, whatever the starts refer to and however they overlap: a context is a
      single chain in every state of a run exactly when every registration finds its base at the end
      of the chain and every discard takes the end away. */
  lemma {:induction false} ChainExactly(systems: seq<System>, steps: seq<Step>, c: ContextId, n: nat)
    requires IsRun(systems, steps) && systems[0] == EMPTY && n <= |steps|
    ensures AlwaysChained(systems, c, n) <==> AlwaysStraight(systems, steps, c, n)
  {
    if n == 0 {
      EmptyIsChain();
    } else {
      ChainExactly(systems, steps, c, n - 1);
      OneMoreAlways(systems, steps, c, n);
      if AlwaysChained(systems, c, n - 1) {
        RunKeepsInv(systems, steps, n - 1);
        StepExact(systems[n - 1], steps[n - 1], systems[n], c);
      }
    }
  }

  lemma EmptyIsChain()
    ensures MakesChain(map[])
  {
    assert IsChain(map[], []);
  }

  lemma OneMoreAlways(systems: seq<System>, steps: seq<Step>, c: ContextId, n: nat)
    requires 0 < n <= |steps| < |systems|
    ensures AlwaysChained(systems, c, n) <==> AlwaysChained(systems, c, n - 1) && Chained(systems[n], c)
    ensures AlwaysChained(systems, c, n - 1) ==> Chained(systems[n - 1], c)
    ensures AlwaysStraight(systems, steps, c, n) <==>
            AlwaysStraight(systems, steps, c, n - 1) && Straight(systems[n - 1], steps[n - 1], c)
  {
  }

  // ----- A context used one start at a time -----

  /** The serial use of a context: a start names no reference and begins when no other is under way,
      and a task is not discarded while it has children. */
  ghost predicate Serial(s: System, step: Step, c: ContextId) {
    match step
    case Begin(_, contextId, references, _) => contextId == c ==> references == [] && forall t :: !Starting(s, c, t)
    case Discard(id) => ActiveIn(s.broker, id, c) ==> IsLeaf(ContextOf(s.broker, c), id)
    case _ => true
  }

  /** A registration that still finds the parent it was forked from. */
  predicate FindsParent(s: System, step: Step, c: ContextId) {
    step.Register? && Starting(s, c, step.id) && s.starts[step.id].base.Some? ==>
      s.starts[step.id].base.value.taskId in ContextOf(s.broker, c)
  }

  /** A start was resolved to the end, or to nothing in an empty context, and nobody else starts. */
  ghost predicate Hanging(ctx: Context, base: Option<Base>) {
    match base
    case Some(b) => b.taskId in ctx ==> IsLeaf(ctx, b.taskId)
    case None => ctx == map[]
  }

  ghost predicate OneStart(s: System, c: ContextId) {
    && (forall t :: Starting(s, c, t) ==> Hanging(ContextOf(s.broker, c), s.starts[t].base))
    && (forall t, u :: Starting(s, c, t) && Starting(s, c, u) ==> t == u)
  }

  /** An unreferenced resolve finds a leaf, or nothing in an empty context. */
  lemma ResolvesToLeaf(s: System, step: Step)
    requires Inv(s) && Enabled(s, step) && step.Begin? && step.references == []
    ensures var ctx := ContextOf(s.broker, step.contextId);
            match Resolve(s.broker, step.contextId, [], step.order)
            case Err(_) => true
            case Ok(None) => ctx == map[]
            case Ok(Some(session)) => IsLeaf(ctx, session.taskId)
  {
    var c := step.contextId;
    var ctx := ContextOf(s.broker, c);
    SessionsAreKeyed(s, c);
    if ctx != map[] {
      var leaf := KnownContextHasLeaf(s, c);
      ScanOutcome(s.broker, ctx, step.order, None);
      assert leaf in step.order;
    }
  }

  lemma OneMoreStart(s: System, s': System, c: ContextId, id: TaskId, start: Start)
    requires s'.broker == s.broker && s'.starts == s.starts[id := start] && id !in s.starts
    requires OneStart(s, c)
    requires start.contextId == c ==> Hanging(ContextOf(s.broker, c), start.base) && forall t :: !Starting(s, c, t)
    ensures OneStart(s', c)
  {
    assert forall t :: Starting(s', c, t) ==> t == id || Starting(s, c, t);
  }

  lemma BeginKeepsOneStart(s: System, step: Step, c: ContextId)
    requires Inv(s) && Enabled(s, step) && step.Begin? && Serial(s, step, c) && OneStart(s, c)
    ensures OneStart(Apply(s, step), c)
  {
    var s' := Apply(s, step);
    if step.contextId == c {
      ResolvesToLeaf(s, step);
    }
    if Resolve(s.broker, step.contextId, step.references, step.order).Ok? {
      OneMoreStart(s, s', c, step.id, s'.starts[step.id]);
    } else {
      assert forall t :: Starting(s', c, t) ==> Starting(s, c, t);
    }
  }

  lemma DiscardKeepsOneStart(s: System, id: TaskId, c: ContextId)
    requires OneStart(s, c)
    ensures OneStart(Apply(s, Discard(id)), c)
  {
    var s' := Apply(s, Discard(id));
    FinishedContext(s.broker, id, false, c);
    forall t | Starting(s', c, t) ensures Starting(s, c, t) && Hanging(ContextOf(s'.broker, c), s'.starts[t].base) {
    }
  }

  /** A step that keeps the tree and begins no start in the context. */
  lemma FrameKeepsOneStart(s: System, s': System, c: ContextId)
    requires OneStart(s, c) && SameTree(ContextOf(s.broker, c), ContextOf(s'.broker, c))
    requires forall t :: Starting(s', c, t) ==> Starting(s, c, t) && s'.starts[t].base == s.starts[t].base
    ensures OneStart(s', c)
  {
    var ctx, ctx' := ContextOf(s.broker, c), ContextOf(s'.broker, c);
    forall t | Starting(s', c, t) ensures Hanging(ctx', s'.starts[t].base) {
      var base := s.starts[t].base;
      assert Hanging(ctx, base);
      if base.Some? && base.value.taskId in ctx {
        assert ctx'[base.value.taskId].(client := ctx[base.value.taskId].client) == ctx[base.value.taskId];
      }
    }
  }

  lemma RegisterKeepsOneStart(s: System, id: TaskId, c: ContextId)
    requires Enabled(s, Register(id)) && OneStart(s, c)
    ensures OneStart(Apply(s, Register(id)), c)
  {
    var s' := Apply(s, Register(id));
    if Starting(s, c, id) {
      forall t | Starting(s', c, t) ensures false {
        assert Starting(s, c, t) && t != id;
      }
    } else {
      OthersKeepTree(s, Register(id), c);
      FrameKeepsOneStart(s, s', c);
    }
  }

  lemma StartsStay(s: System, step: Step, c: ContextId)
    requires Enabled(s, step) && !step.Begin? && !step.Register?
    ensures var s' := Apply(s, step);
            forall t :: Starting(s', c, t) ==> Starting(s, c, t) && s'.starts[t].base == s.starts[t].base
  {
  }

  lemma StepKeepsOneStart(s: System, step: Step, c: ContextId)
    requires Inv(s) && Enabled(s, step) && Serial(s, step, c) && OneStart(s, c)
    ensures OneStart(Apply(s, step), c)
  {
    if step.Begin? {
      BeginKeepsOneStart(s, step, c);
    } else if step.Register? {
      RegisterKeepsOneStart(s, step.id, c);
    } else if step.Discard? {
      DiscardKeepsOneStart(s, step.id, c);
    } else {
      OthersKeepTree(s, step, c);
      StartsStay(s, step, c);
      FrameKeepsOneStart(s, Apply(s, step), c);
    }
  }

  lemma {:induction false} RunKeepsOneStart(systems: seq<System>, steps: seq<Step>, c: ContextId, n: nat)
    requires IsRun(systems, steps) && systems[0] == EMPTY && n <= |steps|
    requires forall i: nat :: i < n ==> Serial(systems[i], steps[i], c)
    ensures OneStart(systems[n], c)
  {
    if n > 0 {
      RunKeepsOneStart(systems, steps, c, n - 1);
      RunKeepsInv(systems, steps, n - 1);
      StepKeepsOneStart(systems[n - 1], steps[n - 1], c);
    }
  }

  /** A context whose starts do not overlap and name no references, and where no task is discarded
      that has children, is a single chain in every state exactly when every start still finds the
      parent it was forked from when it registers. It does not when that parent was discarded in the
      meantime, which a start does not prevent. */
  lemma StaysAChain(systems: seq<System>, steps: seq<Step>, c: ContextId, n: nat)
    requires IsRun(systems, steps) && systems[0] == EMPTY && n <= |steps|
    requires forall i: nat :: i < n ==> Serial(systems[i], steps[i], c)
    ensures AlwaysChained(systems, c, n) <==> forall i: nat :: i < n ==> FindsParent(systems[i], steps[i], c)
  {
    ChainExactly(systems, steps, c, n);
    forall i: nat | i < n ensures Straight(systems[i], steps[i], c) <==> FindsParent(systems[i], steps[i], c) {
      assert Serial(systems[i], steps[i], c);
      RunKeepsOneStart(systems, steps, c, i);
    }
  }

  // ----- A parent that is discarded under a start -----

  /** A serial run that ends in this system. */
  ghost predicate Leads(systems: seq<System>, steps: seq<Step>, c: ContextId, s: System) {
    && IsRun(systems, steps) && systems[0] == EMPTY && systems[|steps|] == s
    && forall i: nat :: i < |steps| ==> Serial(systems[i], steps[i], c)
  }

  lemma OneStep(systems: seq<System>, steps: seq<Step>, c: ContextId, s: System, step: Step)
    returns (systems': seq<System>, steps': seq<Step>)
    requires Leads(systems, steps, c, s) && Enabled(s, step) && Serial(s, step, c)
    ensures Leads(systems', steps', c, Apply(s, step))
  {
    systems', steps' := systems + [Apply(s, step)], steps + [step];
    forall i: nat | i < |steps'| ensures Serial(systems'[i], steps'[i], c) {
      assert i < |steps| ==> Serial(systems[i], steps[i], c);
    }
  }

  /** A start that has its thread, and has nothing changed but to be under way. */
  ghost predicate Prepared(s: System, s': System, id: TaskId, c: ContextId, base: Option<Base>, client: ClientId,
                           thread: ThreadId) {
    && s'.broker == s.broker && s'.used == s.used + {id} && s'.threads.Keys == s.threads.Keys + {thread}
    && s'.launched == s.launched + {client}
    && s'.starts == s.starts[id := Threaded(c, base, client, thread)]
  }

  function BaseOf(found: Option<Session>): Option<Base> {
    if found.Some? then Some(Base(found.value.taskId, found.value.threadId)) else None
  }

  lemma Prepares(systems: seq<System>, steps: seq<Step>, c: ContextId, s: System, id: TaskId, order: seq<TaskId>,
                 client: ClientId, thread: ThreadId)
    returns (systems': seq<System>, steps': seq<Step>, s': System)
    requires Leads(systems, steps, c, s) && Enabled(s, Begin(id, c, [], order)) && s.starts == map[]
    requires Resolve(s.broker, c, [], order).Ok? && client !in s.launched && thread !in s.threads
    ensures Leads(systems', steps', c, s')
    ensures Prepared(s, s', id, c, BaseOf(Resolve(s.broker, c, [], order).value), client, thread)
  {
    var s1 := Apply(s, Begin(id, c, [], order));
    systems', steps' := OneStep(systems, steps, c, s, Begin(id, c, [], order));
    var s2 := Apply(s1, Launch(id, Some(client)));
    systems', steps' := OneStep(systems', steps', c, s1, Launch(id, Some(client)));
    s' := Apply(s2, MakeThread(id, Some(thread)));
    systems', steps' := OneStep(systems', steps', c, s2, MakeThread(id, Some(thread)));
  }

  // Three tasks: p, then t that is forked from p, then u that is forked from t

  function Sample(id: TaskId, parent: TaskId, client: ClientId, childCount: int): Session {
    Session(id, "c", id, parent, Some(client), childCount)
  }

  const ONE: Broker := Broker(map["c" := map["p" := Sample("p", NO_TASK, 0, 0)]], map["p" := NewRuntime("p", "c")])

  const TWO: Broker :=
    Broker(map["c" := map["p" := Sample("p", NO_TASK, 0, 1), "t" := Sample("t", "p", 1, 0)]],
           map["p" := NewRuntime("p", "c"), "t" := NewRuntime("t", "c")])

  const FORKED: Context := map["p" := Sample("p", NO_TASK, 0, 0), "u" := Sample("u", "t", 2, 0)]

  lemma {:induction false} ScanOne(b: Broker, ctx: Context, t: TaskId, leaf: Option<Session>)
    requires t in ctx && ctx[t].taskId == t && !Blocked(b, t)
    ensures ScanLeaves(b, ctx, [t], leaf) ==
            if ctx[t].childCount != 0 then Ok(leaf) else if leaf.Some? then Err(ManyBranches) else Ok(Some(ctx[t]))
  {
    assert [t][1..] == [];
  }

  lemma SampleResolves()
    ensures Visits(ContextOf(EMPTY_BROKER, "c"), []) && Resolve(EMPTY_BROKER, "c", [], []) == Ok(None)
    ensures Visits(ContextOf(ONE, "c"), ["p"])
    ensures Resolve(ONE, "c", [], ["p"]) == Ok(Some(Sample("p", NO_TASK, 0, 0)))
    ensures Visits(ContextOf(TWO, "c"), ["p", "t"])
    ensures Resolve(TWO, "c", [], ["p", "t"]) == Ok(Some(Sample("t", "p", 1, 0)))
  {
    ScanOne(ONE, ContextOf(ONE, "c"), "p", None);
    ScanOne(TWO, ContextOf(TWO, "c"), "t", None);
    assert "p" in ContextOf(ONE, "c") && "p" in ContextOf(TWO, "c");
    assert ["p", "t"][1..] == ["t"];
  }

  lemma SampleBrokers()
    ensures Registered(EMPTY_BROKER, Sample("p", NO_TASK, 0, 0)) == ONE
    ensures Registered(ONE, Sample("t", "p", 1, 0)) == TWO
    ensures Finished(TWO, "t", false) == ONE
    ensures Registered(ONE, Sample("u", "t", 2, 0)).contexts == map["c" := FORKED]
    ensures IsLeaf(ContextOf(TWO, "c"), "t")
  {
    var p0, p1, t := Sample("p", NO_TASK, 0, 0), Sample("p", NO_TASK, 0, 1), Sample("t", "p", 1, 0);
    var one: Context := map["p" := p0];
    var two: Context := map["p" := p1, "t" := t];
    assert ContextOf(ONE, "c") == one && ContextOf(TWO, "c") == two;
    assert Bumped(one, "p") == map["p" := p1];
    assert Bumped(one, "p")["t" := t] == two;
    assert Unbumped(two, "p") == map["p" := p0, "t" := t];
    assert Dropped(two, "t") == one;
    assert TWO.tasks - {"t"} == ONE.tasks;
    assert Bumped(one, "t")["u" := Sample("u", "t", 2, 0)] == FORKED;
  }

  lemma SampleBranches(b: Broker)
    requires b.contexts == map["c" := FORKED] && !Blocked(b, "p") && !Blocked(b, "u")
    ensures Visits(FORKED, ["p", "u"]) && Resolve(b, "c", [], ["p", "u"]) == Err(ManyBranches)
  {
    assert "p" in FORKED && FORKED["p"].childCount == 0;
    ScanOne(b, FORKED, "u", Some(FORKED["p"]));
    assert ["p", "u"][1..] == ["u"];
  }

  lemma ForkedIsNoChain()
    ensures !MakesChain(FORKED)
  {
    assert IsLeaf(FORKED, "p") && IsLeaf(FORKED, "u");
    forall line ensures !IsChain(FORKED, line) {
      if IsChain(FORKED, line) {
        assert "p" in line;
        ChainHasOneLeaf(FORKED, line);
      }
    }
  }

  lemma FirstTask() returns (systems: seq<System>, steps: seq<Step>, s: System)
    ensures Leads(systems, steps, "c", s)
    ensures s.broker == ONE && s.starts == map[] && s.used == {"p"} && s.threads.Keys == {"p"} && s.launched == {0}
  {
    SampleResolves();
    SampleBrokers();
    systems, steps, s := Prepares([EMPTY], [], "c", EMPTY, "p", [], 0, "p");
    systems, steps := OneStep(systems, steps, "c", s, Register("p"));
    s := Apply(s, Register("p"));
  }

  lemma SecondTask() returns (systems: seq<System>, steps: seq<Step>, s: System)
    ensures Leads(systems, steps, "c", s)
    ensures s.broker == TWO && s.starts == map[] && s.used == {"p", "t"} && s.threads.Keys == {"p", "t"} &&
        s.launched == {0, 1}
  {
    SampleResolves();
    SampleBrokers();
    systems, steps, s := FirstTask();
    systems, steps, s := Prepares(systems, steps, "c", s, "t", ["p"], 1, "t");
    systems, steps := OneStep(systems, steps, "c", s, Register("t"));
    s := Apply(s, Register("t"));
  }

  /** A serial run that ends with two branches: t is discarded, because its first turn could not be
      started, while u is being forked from it. Then u registers without its parent, and the next
      unreferenced start is refused. */
  lemma DiscardedParentBranches() returns (systems: seq<System>, steps: seq<Step>, s: System)
    ensures Leads(systems, steps, "c", s) && !Chained(s, "c")
    ensures Visits(ContextOf(s.broker, "c"), ["p", "u"])
    ensures Resolve(s.broker, "c", [], ["p", "u"]) == Err(ManyBranches)
  {
    SampleResolves();
    SampleBrokers();
    systems, steps, s := SecondTask();
    systems, steps, s := Prepares(systems, steps, "c", s, "u", ["p", "t"], 2, "u");
    systems, steps := OneStep(systems, steps, "c", s, Discard("t"));
    s := Apply(s, Discard("t"));
    systems, steps := OneStep(systems, steps, "c", s, Register("u"));
    s := Apply(s, Register("u"));
    SampleBranches(s.broker);
    ForkedIsNoChain();
  }
}
