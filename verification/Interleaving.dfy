/** An execution in pieces, while other tasks use the broker between them. */
module Interleaving {
  // It goes one critical section at a time, with other tasks at work in between, and does what the
  // execution in one piece does.

  import opened Wrappers
  import opened A2A
  import opened BrokerModel
  import opened ExecutorModel
  import opened Artifacts
  import opened Executions
  import opened TaskLife
  import opened Stepwise

  // ----- The theorem -----

  /** A moment leads to the next by a step of the execution, or by work of other tasks. */
  ghost predicate Follows(m: Moment, m': Moment, req: Request, inbox: seq<Arrival>, world: World) {
    || (Sound(m, req, inbox, world) && !m.at.Over? && m' == Next(m, req, inbox, world))
    || (!m.at.Fresh? && m' == m.(broker := m'.broker) && SameTask(m.broker, m'.broker, req.id, req.contextId))
  }

  /** An execution in pieces, from the resolve or the lookup of its runtime on. */
  ghost predicate Interleaved(moments: seq<Moment>, req: Request, inbox: seq<Arrival>, world: World) {
    && moments != [] && moments[0] == Begin(moments[0].broker) && Sound(moments[0], req, inbox, world)
    && (req.stored == None ==> req.id !in moments[0].broker.tasks)
    && forall i :: 0 <= i < |moments| - 1 ==> Follows(moments[i], moments[i + 1], req, inbox, world)
  }

  lemma AlikeItself(m: Moment, req: Request, inbox: seq<Arrival>, world: World)
    requires Sound(m, req, inbox, world) && !m.at.Fresh?
    ensures Alike(Total(m, req, inbox, world), Total(m, req, inbox, world), req.id, req.contextId)
  {
    OthersKeepTotal(m, m.broker, req, inbox, world);
    assert m.(broker := m.broker) == m;
  }

  lemma NeverFreshAgain(m: Moment, m': Moment, req: Request, inbox: seq<Arrival>, world: World)
    requires Follows(m, m', req, inbox, world)
    ensures !m'.at.Fresh?
  {
  }

  lemma FollowingKeepsTotal(m: Moment, m': Moment, req: Request, inbox: seq<Arrival>, world: World)
    requires Sound(m, req, inbox, world) && Follows(m, m', req, inbox, world)
    requires m.at.Fresh? && req.stored == None ==> req.id !in m.broker.tasks
    ensures Sound(m', req, inbox, world)
    ensures Alike(Total(m, req, inbox, world), Total(m', req, inbox, world), req.id, req.contextId)
  {
    if !m.at.Over? && m' == Next(m, req, inbox, world) {
      StepAdvances(m, req, inbox, world);
      NeverFreshAgain(m, m', req, inbox, world);
      AlikeItself(m', req, inbox, world);
    } else {
      OthersKeepTotal(m, m'.broker, req, inbox, world);
    }
  }

  lemma {:induction false} TotalStays(moments: seq<Moment>, req: Request, inbox: seq<Arrival>, world: World, n: nat)
    requires Interleaved(moments, req, inbox, world) && n < |moments|
    ensures Sound(moments[n], req, inbox, world) && (moments[n].at.Fresh? ==> n == 0)
    ensures n > 0 ==>
              Alike(Total(moments[0], req, inbox, world), Total(moments[n], req, inbox, world), req.id, req.contextId)
  {
    if n > 0 {
      TotalStays(moments, req, inbox, world, n - 1);
      var first, m, m' := moments[0], moments[n - 1], moments[n];
      assert Follows(m, m', req, inbox, world);
      FollowingKeepsTotal(m, m', req, inbox, world);
      NeverFreshAgain(m, m', req, inbox, world);
    }
  }

  lemma MomentsAreSound(moments: seq<Moment>, req: Request, inbox: seq<Arrival>, world: World, n: nat)
    requires Interleaved(moments, req, inbox, world) && n < |moments|
    ensures Sound(moments[n], req, inbox, world) && (n > 0 ==> !moments[n].at.Fresh?)
  {
    TotalStays(moments, req, inbox, world, n);
  }

  lemma JoinedToNothing(b: Broker, x: Execution)
    ensures Joined(Begin(b), x) == x.(ok := true)
  {
  }

  lemma ClosingReports(req: Request, x: Execution)
    ensures Closing(req, Then(Opening(req), [], x)) == Reported(req, x)
  {
  }

  lemma TotalIsExecution(b: Broker, req: Request, inbox: seq<Arrival>, world: World)
    requires Sound(Begin(b), req, inbox, world)
    ensures Total(Begin(b), req, inbox, world) == ExecuteStream(b, req, inbox, world).(ok := true)
  {
    ClosingReports(req, Execute(b, req, inbox, world));
    JoinedToNothing(b, Reported(req, Execute(b, req, inbox, world)));
  }

  /** Atomicity. However other tasks use the broker between the steps of an execution, it emits,
      sends, consumes and closes what the execution in one piece does on the broker it began with, as
      far as it has come; and when it is over it leaves its task as that one does. */
  lemma InterleavedIsAtomic(moments: seq<Moment>, req: Request, inbox: seq<Arrival>, world: World, n: nat)
    requires Interleaved(moments, req, inbox, world) && 0 < n < |moments|
    ensures Ready(moments[0].broker, req, world)
    ensures var x, m := ExecuteStream(moments[0].broker, req, inbox, world), moments[n];
            && m.events <= x.events && m.wire <= x.wire && m.closed <= x.closed && m.used <= x.used
            && (m.at.Over? ==>
                  && m.events == x.events && m.wire == x.wire && m.closed == x.closed && m.used == x.used
                  && SameTask(x.broker, m.broker, req.id, req.contextId))
  {
    TotalStays(moments, req, inbox, world, n);
    TotalIsExecution(moments[0].broker, req, inbox, world);
  }

  // ----- What a step reads, and what it leaves to other tasks -----

  /** What a step adds to the wire log: nothing, something sent, or the next message of the inbox. */
  ghost predicate Adds(m: Moment, m': Moment, inbox: seq<Arrival>, sent: seq<Wire>) {
    && m'.wire == m.wire + sent && |sent| <= 1
    && if sent != [] && sent[0].Got?
       then m.used < |inbox| && m'.used == m.used + 1 && sent[0].message == inbox[m.used].message
       else m'.used == m.used
  }

  lemma StepAdds(m: Moment, req: Request, inbox: seq<Arrival>, world: World) returns (sent: seq<Wire>)
    requires Sound(m, req, inbox, world) && !m.at.Over?
    ensures Adds(m, Next(m, req, inbox, world), inbox, sent)
  {
    var m' := Next(m, req, inbox, world);
    sent := if |m'.wire| > |m.wire| then [m'.wire[|m.wire|]] else [];
  }

  lemma AddingReads(m: Moment, m': Moment, inbox: seq<Arrival>, sent: seq<Wire>)
    requires Adds(m, m', inbox, sent) && ReadAll(m, inbox)
    ensures ReadAll(m', inbox)
  {
    ReadOfSum(m.wire, sent);
    if sent != [] {
      assert sent[1..] == [];
    }
    if m'.used != m.used {
      assert inbox[..m.used + 1] == inbox[..m.used] + [inbox[m.used]];
      MessagesOfSum(inbox[..m.used], [inbox[m.used]]);
    }
  }

  /** What an execution has read from Codex is what it has taken from the inbox. */
  ghost predicate ReadAll(m: Moment, inbox: seq<Arrival>) {
    m.used <= |inbox| && Read(m.wire) == MessagesOf(inbox[..m.used])
  }

  lemma BeginReads(b: Broker, inbox: seq<Arrival>)
    ensures ReadAll(Begin(b), inbox)
  {
  }

  lemma FollowingReads(m: Moment, m': Moment, req: Request, inbox: seq<Arrival>, world: World)
    requires Follows(m, m', req, inbox, world) && ReadAll(m, inbox)
    ensures ReadAll(m', inbox)
  {
    if Sound(m, req, inbox, world) && !m.at.Over? && m' == Next(m, req, inbox, world) {
      var sent := StepAdds(m, req, inbox, world);
      AddingReads(m, m', inbox, sent);
    }
  }

  /** After every step of an execution, what it has read from Codex is exactly what it has taken from
      the inbox, in order. */
  lemma {:induction false} ReadSoFar(moments: seq<Moment>, req: Request, inbox: seq<Arrival>, world: World, n: nat)
    requires Interleaved(moments, req, inbox, world) && n < |moments|
    ensures ReadAll(moments[n], inbox)
  {
    if n == 0 {
      BeginReads(moments[0].broker, inbox);
    } else {
      ReadSoFar(moments, req, inbox, world, n - 1);
      var m, m' := moments[n - 1], moments[n];
      assert Follows(m, m', req, inbox, world);
      FollowingReads(m, m', req, inbox, world);
    }
  }

  lemma LoopingChangesOwn(m: Moment, req: Request, inbox: seq<Arrival>)
    requires req.id in m.broker.tasks && m.used <= |inbox|
    ensures var m' := FromLooping(m, req, inbox);
            req.id in m'.broker.tasks && m'.broker == WithTask(m.broker, req.id, m'.broker.tasks[req.id])
  {
    assert WithTask(m.broker, req.id, m.broker.tasks[req.id]) == m.broker;
  }

  /** A step of another task's execution leaves this task alone: the work of other tasks that an
      execution tolerates is what their executions do. */
  lemma StepStaysElsewhere(
    m: Moment, req: Request, inbox: seq<Arrival>, world: World, id: TaskId, contextId: ContextId)
    requires Sound(m, req, inbox, world) && !m.at.Over? && req.id != id
    requires id in m.broker.tasks ==> m.broker.tasks[id].contextId == contextId
    ensures SameTask(m.broker, Next(m, req, inbox, world).broker, id, contextId)
  {
    var b := m.broker;
    match m.at
    case Threaded(base) => RegisterStaysElsewhere(b, id, contextId, SessionFor(req, world, base));
    case Sent =>
      FinishStaysElsewhere(b, id, contextId, req.id, false);
      if world.turn.Some? {
        TurnStaysElsewhere(b, id, contextId, req.id,
                           b.tasks[req.id].(turnId := world.turn.value, turnActive := true));
      }
    case Asking => FinishStaysElsewhere(b, id, contextId, req.id, true);
    case Answered => TurnStaysElsewhere(b, id, contextId, req.id, b.tasks[req.id].(pending := None));
    case Looping =>
      var m' := FromLooping(m, req, inbox);
      LoopingChangesOwn(m, req, inbox);
      TurnStaysElsewhere(b, id, contextId, req.id, m'.broker.tasks[req.id]);
    case Leaving(_) => FinishStaysElsewhere(b, id, contextId, req.id, true);
    case Erring => FinishStaysElsewhere(b, id, contextId, req.id, true);
    case _ =>
  }

  /** A step brings no task into the broker but its own. */
  lemma StepAddsOnlyOwn(m: Moment, req: Request, inbox: seq<Arrival>, world: World)
    requires Sound(m, req, inbox, world) && !m.at.Over?
    ensures var b' := Next(m, req, inbox, world).broker;
            && (forall t :: t in b'.tasks ==> t in m.broker.tasks || t == req.id)
            && (forall c, t :: t in ContextOf(b', c) ==> t in ContextOf(m.broker, c) || t == req.id)
  {
  }

  // ----- Lives with overlapping executions -----

  lemma LifeBegins(l: Life, message: UserMessage, references: seq<TaskId>, world: World)
    requires ViewsAgree(l) && Possible(l, Run(message, references, world))
    ensures var req := RequestOf(l, message, references);
            && Sound(Begin(l.broker), req, l.inbox, world)
            && (req.stored == None ==> req.id !in l.broker.tasks)
  {
  }

  /** A life whose execution overlaps with work of other tasks is a life: the execution in one piece,
      and then what the others did. So what holds of every life holds of it. */
  lemma OverlappedRunIsLife(
    l: Life, message: UserMessage, references: seq<TaskId>, world: World, moments: seq<Moment>, n: nat)
    requires Interleaved(moments, RequestOf(l, message, references), l.inbox, world) && moments[0].broker == l.broker
    requires 0 < n < |moments| && moments[n].at.Over?
    ensures Possible(l, Run(message, references, world))
    ensures var ran := Live(l, Run(message, references, world));
            var m := moments[n];
            && Possible(ran, Elsewhere(m.broker)) && m.used <= |l.inbox|
            && Live(ran, Elsewhere(m.broker)) ==
               Life(l.id, l.contextId, m.broker, l.inbox[m.used..], l.arrived, l.consumed + l.inbox[..m.used],
                    l.events + m.events, l.wire + m.wire)
  {
    InterleavedIsAtomic(moments, RequestOf(l, message, references), l.inbox, world, n);
  }
}
