/** Exclusive ownership of Codex clients over every run of the broker: each is in exactly one place. */
module BrokerClients {
  import opened Wrappers
  import opened BrokerModel
  import opened BrokerSystem
  import opened BrokerRuns

  /** Where a launched client can be: with a start in flight, with an active task, or handed out for
      closing as the n-th client that was. */
  datatype Place = InStart(id: TaskId) | InTask(id: TaskId) | InClosed(index: nat)

  ghost predicate HeldAt(s: System, p: Place, c: ClientId) {
    match p
    case InStart(t) => t in s.starts && !s.starts[t].Resolved? && s.starts[t].client == c
    case InTask(t) => ClientOf(s.broker, t) == Some(c)
    case InClosed(i) => i < |s.closed| && s.closed[i] == c
  }

  ghost predicate Somewhere(s: System, c: ClientId) {
    exists p :: HeldAt(s, p, c)
  }

  ghost predicate OnePlace(s: System) {
    forall p, q, c: ClientId :: HeldAt(s, p, c) && HeldAt(s, q, c) ==> p == q
  }

  ghost predicate SomePlace(s: System) {
    forall c: ClientId :: c in s.launched ==> Somewhere(s, c)
  }

  ghost predicate OnlyLaunched(s: System) {
    forall p, c: ClientId :: HeldAt(s, p, c) ==> c in s.launched
  }

  ghost predicate ClientsOk(s: System) {
    OnePlace(s) && SomePlace(s) && OnlyLaunched(s)
  }

  /** A step that moves clients from place to place, and neither drops nor duplicates one. */
  ghost predicate Moves(s: System, s': System, to: Place -> Place) {
    && s'.launched == s.launched
    && (forall p, c: ClientId :: HeldAt(s, p, c) ==> HeldAt(s', to(p), c))
    && (forall q, c: ClientId :: HeldAt(s', q, c) ==> exists p :: HeldAt(s, p, c) && to(p) == q)
  }

  lemma MovesKeepClients(s: System, s': System, to: Place -> Place)
    requires ClientsOk(s) && Moves(s, s', to)
    ensures ClientsOk(s')
  {
    forall p, q, c: ClientId | HeldAt(s', p, c) && HeldAt(s', q, c) ensures p == q {
      var p0 :| HeldAt(s, p0, c) && to(p0) == p;
      var q0 :| HeldAt(s, q0, c) && to(q0) == q;
    }
    forall c: ClientId | c in s'.launched ensures Somewhere(s', c) {
      assert Somewhere(s, c);
      var p :| HeldAt(s, p, c);
      assert HeldAt(s', to(p), c);
    }
  }

  /** Nothing moves. */
  lemma StillKeepsClients(s: System, s': System)
    requires ClientsOk(s) && s'.launched == s.launched
    requires forall p, c: ClientId :: HeldAt(s', p, c) <==> HeldAt(s, p, c)
    ensures ClientsOk(s')
  {
    MovesKeepClients(s, s', p => p);
  }

  /** One client moves. */
  lemma OneMoveKeepsClients(s: System, s': System, from: Place, dest: Place, moved: ClientId)
    requires ClientsOk(s) && s'.launched == s.launched
    requires HeldAt(s, from, moved) && from != dest && forall c: ClientId :: !HeldAt(s, dest, c)
    requires forall p, c: ClientId ::
               HeldAt(s', p, c) <==> if p == dest then c == moved else p != from && HeldAt(s, p, c)
    ensures ClientsOk(s')
  {
    var to := p => if p == from then dest else p;
    forall q, c: ClientId | HeldAt(s', q, c) ensures exists p :: HeldAt(s, p, c) && to(p) == q {
      if q == dest {
        assert HeldAt(s, from, c) && to(from) == q;
      } else {
        assert HeldAt(s, q, c) && to(q) == q;
      }
    }
    forall p, c: ClientId | HeldAt(s, p, c) ensures HeldAt(s', to(p), c) {
      assert HeldAt(s, from, c) && HeldAt(s, from, moved) ==> c == moved;
    }
    MovesKeepClients(s, s', to);
  }

  lemma BeginMovesNone(s: System, step: Step, p: Place, c: ClientId)
    requires StartsOk(s) && Enabled(s, step) && step.Begin?
    ensures HeldAt(Apply(s, step), p, c) <==> HeldAt(s, p, c)
  {
    forall t | t in s.starts ensures t in s.used {
      assert StartOk(s, t);
    }
  }

  lemma BeginKeepsClients(s: System, step: Step)
    requires ClientsOk(s) && StartsOk(s) && Enabled(s, step) && step.Begin?
    ensures ClientsOk(Apply(s, step))
  {
    forall p, c: ClientId ensures HeldAt(Apply(s, step), p, c) <==> HeldAt(s, p, c) {
      BeginMovesNone(s, step, p, c);
    }
    StillKeepsClients(s, Apply(s, step));
  }

  lemma LaunchKeepsClients(s: System, id: TaskId, client: Option<ClientId>)
    requires ClientsOk(s) && Enabled(s, Launch(id, client))
    ensures ClientsOk(Apply(s, Launch(id, client)))
  {
    var s' := Apply(s, Launch(id, client));
    if client == None {
      StillKeepsClients(s, s');
    } else {
      forall p, c: ClientId ensures HeldAt(s', p, c) <==> (p == InStart(id) && c == client.value) || HeldAt(s, p, c) {
      }
      forall c: ClientId | c in s'.launched ensures Somewhere(s', c) {
        if c == client.value {
          assert HeldAt(s', InStart(id), c);
        } else {
          assert Somewhere(s, c);
          var p :| HeldAt(s, p, c);
          assert HeldAt(s', p, c);
        }
      }
    }
  }

  lemma MakeThreadKeepsClients(s: System, id: TaskId, made: Option<ThreadId>)
    requires ClientsOk(s) && Enabled(s, MakeThread(id, made))
    ensures ClientsOk(Apply(s, MakeThread(id, made)))
  {
    var s' := Apply(s, MakeThread(id, made));
    if made == None {
      OneMoveKeepsClients(s, s', InStart(id), InClosed(|s.closed|), s.starts[id].client);
    } else {
      StillKeepsClients(s, s');
    }
  }

  lemma RegisterKeepsClients(s: System, id: TaskId)
    requires ClientsOk(s) && Inv(s) && Enabled(s, Register(id))
    ensures ClientsOk(Apply(s, Register(id)))
  {
    var s' := Apply(s, Register(id));
    StartsJoin(s, id);
    forall t | t != id ensures ClientOf(s'.broker, t) == ClientOf(s.broker, t) {
      if t in s.broker.tasks {
        RegisterKeepsClient(s.broker, NewSession(id, s.starts[id]), t);
      }
    }
    assert ClientOf(s.broker, id) == None;
    OneMoveKeepsClients(s, s', InStart(id), InTask(id), s.starts[id].client);
  }

  lemma FinishKeepsClients(s: System, s': System, id: TaskId, preserve: bool)
    requires ClientsOk(s) && Inv(s)
    requires s' == s.(broker := Finished(s.broker, id, preserve), closed := Shut(s.closed, ClientOf(s.broker, id)))
    ensures ClientsOk(s')
  {
    forall t | t != id ensures ClientOf(s'.broker, t) == ClientOf(s.broker, t) {
      if t in s.broker.tasks {
        assert TaskOk(s, t);
        assert t in s'.broker.tasks;
        FinishKeepsOthers(s.broker, id, preserve, t);
      }
    }
    if id in s.broker.tasks {
      assert TaskOk(s, id);
      OneMoveKeepsClients(s, s', InTask(id), InClosed(|s.closed|), ClientOf(s.broker, id).value);
    } else {
      StillKeepsClients(s, s');
    }
  }

  /** When every runtime has its client, `Close` collects one client a runtime. */
  lemma {:induction false} CollectedEach(b: Broker, order: seq<TaskId>)
    requires forall t :: t in order ==> ClientOf(b, t).Some?
    ensures |Collected(b, order)| == |order|
    ensures forall i :: 0 <= i < |order| ==> ClientOf(b, order[i]) == Some(Collected(b, order)[i])
  {
    if order != [] {
      CollectedEach(b, order[1..]);
    }
  }

  /** The position of a visited task. */
  function IndexOf(order: seq<TaskId>, t: TaskId): (i: nat)
    requires t in order
    ensures i < |order| && order[i] == t
  {
    if order[0] == t then 0 else 1 + IndexOf(order[1..], t)
  }

  /** Where `Close` sends what a place holds. */
  function AfterClose(closed: nat, visited: seq<TaskId>, p: Place): Place {
    if p.InTask? && p.id in visited then InClosed(closed + IndexOf(visited, p.id)) else p
  }

  lemma ClosedHolds(s: System, s': System, visited: seq<TaskId>, p: Place, c: ClientId)
    requires Enabled(s, CloseAll(visited)) && s' == Apply(s, CloseAll(visited))
    requires forall t :: t in visited ==> ClientOf(s.broker, t).Some?
    requires HeldAt(s, p, c)
    ensures HeldAt(s', AfterClose(|s.closed|, visited, p), c)
  {
    CollectedEach(s.broker, visited);
    if p.InTask? {
      assert p.id in visited;
    }
  }

  lemma ClosedHeld(s: System, s': System, visited: seq<TaskId>, q: Place, c: ClientId) returns (p: Place)
    requires Enabled(s, CloseAll(visited)) && s' == Apply(s, CloseAll(visited))
    requires forall t :: t in visited ==> ClientOf(s.broker, t).Some?
    requires HeldAt(s', q, c)
    ensures HeldAt(s, p, c) && AfterClose(|s.closed|, visited, p) == q
  {
    CollectedEach(s.broker, visited);
    p := q;
    if q.InClosed? && q.index >= |s.closed| {
      var t := visited[q.index - |s.closed|];
      assert t in visited;
      p := InTask(t);
    }
  }

  lemma CloseKeepsClients(s: System, visited: seq<TaskId>)
    requires ClientsOk(s) && TasksOk(s) && Enabled(s, CloseAll(visited))
    ensures ClientsOk(Apply(s, CloseAll(visited)))
  {
    var s' := Apply(s, CloseAll(visited));
    forall t | t in visited ensures ClientOf(s.broker, t).Some? {
      assert TaskOk(s, t);
    }
    var to := p => AfterClose(|s.closed|, visited, p);
    forall p, c: ClientId | HeldAt(s, p, c) ensures HeldAt(s', to(p), c) {
      ClosedHolds(s, s', visited, p, c);
    }
    forall q, c: ClientId | HeldAt(s', q, c) ensures exists p :: HeldAt(s, p, c) && to(p) == q {
      var p := ClosedHeld(s, s', visited, q, c);
    }
    MovesKeepClients(s, s', to);
  }

  lemma RuntimeKeepsClients(s: System, s': System, id: TaskId, runtime: Runtime)
    requires ClientsOk(s) && id in s.broker.tasks && runtime.contextId == s.broker.tasks[id].contextId
    requires s' == s.(broker := s.broker.(tasks := s.broker.tasks[id := runtime]),
                      threads := s'.threads, completed := s'.completed)
    ensures ClientsOk(s')
  {
    RuntimeKeepsClient(s.broker, id, runtime);
    StillKeepsClients(s, s');
  }

  lemma StepKeepsClients(s: System, step: Step)
    requires ClientsOk(s) && Inv(s) && Enabled(s, step)
    ensures ClientsOk(Apply(s, step))
  {
    match step
    case Begin(_, _, _, _) => BeginKeepsClients(s, step);
    case Launch(id, client) => LaunchKeepsClients(s, id, client);
    case MakeThread(id, made) => MakeThreadKeepsClients(s, id, made);
    case Register(id) => RegisterKeepsClients(s, id);
    case Finish(id) => FinishKeepsClients(s, Apply(s, step), id, true);
    case Discard(id) => FinishKeepsClients(s, Apply(s, step), id, false);
    case CloseAll(visited) => CloseKeepsClients(s, visited);
    case SetRuntime(id, _) => RuntimeKeepsClients(s, Apply(s, step), id, Apply(s, step).broker.tasks[id]);
    case CompleteTurn(id, _) => RuntimeKeepsClients(s, Apply(s, step), id, Apply(s, step).broker.tasks[id]);
  }

  lemma {:induction false} RunKeepsClients(systems: seq<System>, steps: seq<Step>, n: nat)
    requires IsRun(systems, steps) && systems[0] == EMPTY && n <= |steps|
    ensures ClientsOk(systems[n])
  {
    if n > 0 {
      RunKeepsClients(systems, steps, n - 1);
      RunKeepsInv(systems, steps, n - 1);
      StepKeepsClients(systems[n - 1], steps[n - 1]);
    }
  }

  /** Exclusive ownership. Over all interleavings, every client that launch returned is in exactly
      one place: with one start in flight, with one active task, or handed out for closing, which
      happens to it once. No client is leaked, shared or closed twice. */
  lemma EveryClientHasOneOwner(systems: seq<System>, steps: seq<Step>, i: nat, c: ClientId)
    requires IsRun(systems, steps) && systems[0] == EMPTY && i <= |steps|
    ensures var s := systems[i];
            && (c in s.launched <==> Somewhere(s, c))
            && (forall p, q :: HeldAt(s, p, c) && HeldAt(s, q, c) ==> p == q)
            && (forall j, k :: 0 <= j < |s.closed| && 0 <= k < |s.closed| && s.closed[j] == s.closed[k] ==> j == k)
  {
    RunKeepsClients(systems, steps, i);
    var s := systems[i];
    forall j, k | 0 <= j < |s.closed| && 0 <= k < |s.closed| && s.closed[j] == s.closed[k] ensures j == k {
      assert HeldAt(s, InClosed(j), s.closed[j]) && HeldAt(s, InClosed(k), s.closed[j]);
    }
  }
}
