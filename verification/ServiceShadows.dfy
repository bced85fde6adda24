/** The shadow of the service: beside each state of a run the system of the broker that goes with it, moved by the
    steps that the service's steps are to the broker, and what it says of threads and logs. */
module ServiceShadows {
  import opened Wrappers
  import opened A2A
  import opened BrokerModel
  import opened ExecutorModel
  import opened WireDiscipline
  import opened WireThreads
  import opened Stepwise
  import opened ServiceSteps
  import opened Service
  import opened BrokerSteps
  import opened ServiceBroker
  import BR = BrokerSystem
  import BT = BrokerThreads
  import BC = BrokerClients

  // ----- The runs -----

  /** The clients launched, and the threads made, in the first steps of a run. */
  function LaunchedBefore(states: seq<State>, steps: seq<ServiceStep>, n: nat): set<ClientId>
    requires n <= |steps| < |states|
  {
    if n == 0 then {} else LaunchedBefore(states, steps, n - 1) + LaunchesIn(states[n - 1], steps[n - 1])
  }

  function MadeBefore(states: seq<State>, steps: seq<ServiceStep>, n: nat): set<ThreadId>
    requires n <= |steps| < |states|
  {
    if n == 0 then {} else MadeBefore(states, steps, n - 1) + MakesIn(states[n - 1], steps[n - 1])
  }

  /** What the environment owes: a launch brings a new client, Codex makes new threads, and a task has an ID. */
  ghost predicate NewNames(states: seq<State>, steps: seq<ServiceStep>)
    requires |steps| < |states|
  {
    forall i: nat :: i < |steps| ==>
      && (steps[i].Embark? ==> steps[i].id != NO_TASK)
      && LaunchesIn(states[i], steps[i]) !! LaunchedBefore(states, steps, i)
      && MakesIn(states[i], steps[i]) !! MadeBefore(states, steps, i)
  }

  /** The broker's system beside each state, moved by the steps that the service's steps are to the broker. */
  ghost predicate Shadows(states: seq<State>, steps: seq<ServiceStep>, zs: seq<BR.System>, n: nat)
    requires n <= |steps| < |states|
  {
    && |zs| == n + 1 && zs[0] == BR.EMPTY
    && forall i: nat :: i < n ==> Takes(zs[i], BrokerStepsOf(states[i], steps[i], states[i + 1]), zs[i + 1])
  }

  lemma EmptyFits()
    ensures Fits(START, BR.EMPTY)
  {
  }

  lemma EmptyIsGood()
    ensures Good(BR.EMPTY)
  {
  }

  lemma {:induction false} ShadowIsGood(states: seq<State>, steps: seq<ServiceStep>, zs: seq<BR.System>, n: nat, i: nat)
    requires n <= |steps| < |states| && Shadows(states, steps, zs, n) && i <= n
    ensures Good(zs[i])
  {
    if i == 0 {
      EmptyIsGood();
    } else {
      ShadowIsGood(states, steps, zs, n, i - 1);
      TakingKeepsGood(zs[i - 1], BrokerStepsOf(states[i - 1], steps[i - 1], states[i]), zs[i]);
    }
  }

  /** The system beside a state, and the names that are taken. */
  ghost predicate Beside(states: seq<State>, steps: seq<ServiceStep>, n: nat, z: BR.System)
    requires n <= |steps| < |states|
  {
    && Fits(states[n], z)
    && z.launched == LaunchedBefore(states, steps, n) && z.threads.Keys == MadeBefore(states, steps, n)
  }

  lemma {:induction false} EmbarkGoesBeside(states: seq<State>, steps: seq<ServiceStep>, n: nat,
                                            z: BR.System) returns (z': BR.System)
    requires IsServiceRun(states, steps) && NewNames(states, steps) && n < |steps| && steps[n].Embark?
    requires Beside(states, steps, n, z)
    ensures Takes(z, BrokerStepsOf(states[n], steps[n], states[n + 1]), z') && Beside(states, steps, n + 1, z')
  {
    z' := EmbarkFits(states, steps, n, z);
    BesideStays(states, steps, n, z, z');
  }

  lemma {:induction false} BesideStays(states: seq<State>, steps: seq<ServiceStep>, n: nat, z: BR.System, z': BR.System)
    requires n < |steps| < |states| && Beside(states, steps, n, z) && steps[n].Embark?
    requires z'.launched == z.launched && z'.threads == z.threads
    ensures z'.launched == LaunchedBefore(states, steps, n + 1)
    ensures z'.threads.Keys == MadeBefore(states, steps, n + 1)
  {
  }

  /** The names taken grow by those of the step. */
  lemma {:induction false} BesideGoesOn(states: seq<State>, steps: seq<ServiceStep>, n: nat, z: BR.System,
                                        z': BR.System)
    requires n < |steps| < |states| && Beside(states, steps, n, z)
    requires z'.launched == z.launched + LaunchesIn(states[n], steps[n])
    requires z'.threads.Keys == z.threads.Keys + MakesIn(states[n], steps[n])
    ensures z'.launched == LaunchedBefore(states, steps, n + 1)
    ensures z'.threads.Keys == MadeBefore(states, steps, n + 1)
  {
  }

  lemma {:induction false} ProceedGoesBeside(states: seq<State>, steps: seq<ServiceStep>, n: nat,
                                             z: BR.System) returns (z': BR.System)
    requires IsServiceRun(states, steps) && NewNames(states, steps) && n < |steps| && steps[n].Proceed?
    requires Beside(states, steps, n, z) && Good(z)
    ensures Takes(z, BrokerStepsOf(states[n], steps[n], states[n + 1]), z') && Beside(states, steps, n + 1, z')
  {
    z' := ProceedFits(states, steps, n, z);
    BesideGoesOn(states, steps, n, z, z');
  }

  lemma {:induction false} StepGoesBeside(states: seq<State>, steps: seq<ServiceStep>, n: nat,
                                          z: BR.System) returns (z': BR.System)
    requires IsServiceRun(states, steps) && NewNames(states, steps) && n < |steps|
    requires Beside(states, steps, n, z) && Good(z)
    ensures Takes(z, BrokerStepsOf(states[n], steps[n], states[n + 1]), z') && Beside(states, steps, n + 1, z')
  {
    if steps[n].Embark? {
      z' := EmbarkGoesBeside(states, steps, n, z);
    } else {
      z' := ProceedGoesBeside(states, steps, n, z);
    }
  }

  lemma {:induction false} LongerShadow(states: seq<State>, steps: seq<ServiceStep>, before: seq<BR.System>, n: nat,
                                        z: BR.System)
    requires 0 < n <= |steps| < |states| && Shadows(states, steps, before, n - 1)
    requires Takes(before[n - 1], BrokerStepsOf(states[n - 1], steps[n - 1], states[n]), z)
    ensures Shadows(states, steps, before + [z], n)
  {
    var zs := before + [z];
    forall i: nat | i < n ensures Takes(zs[i], BrokerStepsOf(states[i], steps[i], states[i + 1]), zs[i + 1]) {
      assert i < n - 1 ==> Takes(before[i], BrokerStepsOf(states[i], steps[i], states[i + 1]), before[i + 1]);
    }
  }

  /** Every run of the service has its shadow. */
  lemma {:induction false} ServiceShadow(states: seq<State>, steps: seq<ServiceStep>, n: nat)
    returns (zs: seq<BR.System>)
    requires IsServiceRun(states, steps) && NewNames(states, steps) && n <= |steps|
    ensures Shadows(states, steps, zs, n) && forall i: nat :: i <= n ==> Beside(states, steps, i, zs[i])
  {
    if n == 0 {
      EmptyFits();
      zs := [BR.EMPTY];
    } else {
      var before := ServiceShadow(states, steps, n - 1);
      ShadowIsGood(states, steps, before, n - 1, n - 1);
      assert Beside(states, steps, n - 1, before[n - 1]);
      var z := StepGoesBeside(states, steps, n - 1, before[n - 1]);
      LongerShadow(states, steps, before, n, z);
      zs := before + [z];
      forall i: nat | i < n ensures Beside(states, steps, i, zs[i]) {
        assert Beside(states, steps, i, before[i]);
      }
    }
  }

  lemma {:induction false} TakingIsRun(
    systems: seq<BR.System>, steps: seq<BR.Step>, z: BR.System, more: seq<BR.Step>, z': BR.System)
    returns (systems': seq<BR.System>, steps': seq<BR.Step>)
    requires BR.IsRun(systems, steps) && systems[|steps|] == z && Takes(z, more, z')
    ensures BR.IsRun(systems', steps') && systems'[|steps'|] == z' && systems'[0] == systems[0]
    decreases |more|
  {
    if more == [] {
      systems', steps' := systems, steps;
    } else {
      var next := BR.Apply(z, more[0]);
      systems', steps' := TakingIsRun(systems + [next], steps + [more[0]], next, more[1..], z');
    }
  }

  lemma {:induction false} ShadowIsRun(states: seq<State>, steps: seq<ServiceStep>, zs: seq<BR.System>, n: nat)
    returns (systems: seq<BR.System>, brokerSteps: seq<BR.Step>)
    requires n <= |steps| < |states| && Shadows(states, steps, zs, n)
    ensures BR.IsRun(systems, brokerSteps) && systems[0] == BR.EMPTY && systems[|brokerSteps|] == zs[n]
  {
    if n == 0 {
      systems, brokerSteps := [BR.EMPTY], [];
    } else {
      systems, brokerSteps := ShadowIsRun(states, steps, zs[..n], n - 1);
      assert Takes(zs[n - 1], BrokerStepsOf(states[n - 1], steps[n - 1], states[n]), zs[n]);
      systems, brokerSteps := TakingIsRun(systems, brokerSteps, zs[n - 1],
                                          BrokerStepsOf(states[n - 1], steps[n - 1], states[n]), zs[n]);
    }
  }

  lemma KeyedContext(z: BR.System, c: ContextId)
    requires BR.Inv(z)
    ensures ContextKeyed(ContextOf(z.broker, c), c)
  {
    var ctx := ContextOf(z.broker, c);
    forall t | t in ctx ensures ctx[t].taskId == t && ctx[t].contextId == c && t != NO_TASK {
      assert BR.Has(z.broker, c, t) && BR.SessionOk(z, c, t);
    }
  }

  // ----- What a task's log says later -----

  lemma StepGrowsLog(states: seq<State>, steps: seq<ServiceStep>, n: nat, id: TaskId)
    requires IsServiceRun(states, steps) && n < |steps| && id in states[n].lives
    ensures id in states[n + 1].lives && WireOf(states[n], id) <= WireOf(states[n + 1], id)
  {
    RunKeepsFine(states, steps, n);
    var s, s' := states[n], states[n + 1];
    if steps[n].Embark? {
      assert Goes(s, steps[n], s');
      EmbarkShape(s, steps[n], s');
      EmbarkMoves(s, steps[n].id, s', s'.lives[steps[n].id], s'.flights[steps[n].id]);
      EmbarkedLog(s, s', steps[n].id, id);
    } else {
      var m, sent := ProceedShape(states, steps, n);
      ProceedMoves(s, steps[n].id, s', m);
      ProceededLog(s, s', steps[n].id, id, m, sent);
    }
  }

  lemma EmbarkedLog(s: State, s': State, begun: TaskId, id: TaskId)
    requires OnlyMoves(s, s', begun) && id in s.lives && begun !in s.flights
    requires begun in s'.lives && (begun in s.lives ==> s'.lives[begun].wire == s.lives[begun].wire)
    ensures id in s'.lives && WireOf(s, id) <= WireOf(s', id)
  {
    if id != begun {
      assert SameLog(s, s', id);
    }
  }

  lemma ProceededLog(s: State, s': State, moved: TaskId, id: TaskId, m: Moment, sent: seq<Wire>)
    requires OnlyMoves(s, s', moved) && id in s.lives && moved in s.lives && moved in s.flights
    requires WireOf(s', moved) == s.lives[moved].wire + m.wire && m.wire == Last(s.flights[moved]).wire + sent
    ensures id in s'.lives && WireOf(s, id) <= WireOf(s', id)
  {
    if id != moved {
      assert SameLog(s, s', id);
    } else {
      assert WireOf(s', id) == WireOf(s, id) + sent;
    }
  }

  ghost predicate LogGrows(s: State, s': State, id: TaskId) {
    id in s.lives ==> id in s'.lives && WireOf(s, id) <= WireOf(s', id)
  }

  lemma {:induction false} LogGrowsThroughout(states: seq<State>, k: nat, n: nat, id: TaskId)
    requires k <= n < |states| && forall i: nat :: k <= i < n ==> LogGrows(states[i], states[i + 1], id)
    ensures LogGrows(states[k], states[n], id)
  {
    if k < n {
      LogGrowsThroughout(states, k, n - 1, id);
      assert LogGrows(states[n - 1], states[n - 1 + 1], id);
    }
  }

  lemma LogsGrow(states: seq<State>, steps: seq<ServiceStep>, k: nat, n: nat, id: TaskId)
    requires IsServiceRun(states, steps) && k <= n <= |steps| && id in states[k].lives
    ensures id in states[n].lives && WireOf(states[k], id) <= WireOf(states[n], id)
  {
    forall i: nat | k <= i < n ensures LogGrows(states[i], states[i + 1], id) {
      if id in states[i].lives {
        StepGrowsLog(states, steps, i, id);
      }
    }
    LogGrowsThroughout(states, k, n, id);
  }

  // ----- What a task inherits -----

  /** A task in the ledger keeps its thread and what it inherited. */
  ghost predicate Inherits(z: BR.System, t: TaskId, thread: ThreadId, history: seq<string>) {
    t in z.threadOf && z.threadOf[t] == thread && t in z.inherited && z.inherited[t] == history
  }

  lemma StepKeepsInheritance(z: BR.System, step: BR.Step, t: TaskId, thread: ThreadId, history: seq<string>)
    requires BT.ThreadsOk(z) && BR.Enabled(z, step) && Inherits(z, t, thread, history)
    ensures Inherits(BR.Apply(z, step), t, thread, history)
  {
    if step.MakeThread? {
      assert BT.StartThreaded(z, step.id);
    }
  }

  lemma {:induction false} TakingKeepsInheritance(
    z: BR.System, steps: seq<BR.Step>, z': BR.System, t: TaskId, thread: ThreadId, history: seq<string>)
    requires Good(z) && Takes(z, steps, z') && Inherits(z, t, thread, history)
    ensures Inherits(z', t, thread, history)
    decreases |steps|
  {
    if steps != [] {
      StepKeepsInheritance(z, steps[0], t, thread, history);
      BR.StepKeepsInv(z, steps[0]);
      BT.StepKeepsThreads(z, steps[0]);
      BC.StepKeepsClients(z, steps[0]);
      TakingKeepsInheritance(BR.Apply(z, steps[0]), steps[1..], z', t, thread, history);
    }
  }

  lemma {:induction false} ShadowKeepsInheritance(
    states: seq<State>, steps: seq<ServiceStep>, zs: seq<BR.System>, last: nat, k: nat, n: nat, t: TaskId,
    thread: ThreadId, history: seq<string>)
    requires k <= n <= last <= |steps| < |states| && Shadows(states, steps, zs, last)
    requires Inherits(zs[k], t, thread, history)
    ensures Inherits(zs[n], t, thread, history)
  {
    if k < n {
      ShadowKeepsInheritance(states, steps, zs, last, k, n - 1, t, thread, history);
      ShadowIsGood(states, steps, zs, last, n - 1);
      TakingKeepsInheritance(zs[n - 1], BrokerStepsOf(states[n - 1], steps[n - 1], states[n]), zs[n], t, thread,
                             history);
    }
  }

  /** What the base of a start holds: the history that a fork copies. */
  ghost predicate ForkedFrom(z: BR.System, base: Option<Session>, history: seq<string>) {
    match base
    case None => history == []
    case Some(session) => session.threadId in z.threads && z.threads[session.threadId] == history
  }

  lemma MakingInherits(z: BR.System, id: TaskId, base: Option<Session>, thread: ThreadId)
    returns (history: seq<string>)
    requires Good(z) && id in z.starts && z.starts[id].Launched? && z.starts[id].base == BaseOf(base)
    requires BR.Enabled(z, BR.MakeThread(id, Some(thread)))
    ensures ForkedFrom(z, base, history)
    ensures Inherits(BR.Apply(z, BR.MakeThread(id, Some(thread))), id, thread, history)
  {
    assert BT.StartThreaded(z, id);
    if base.Some? {
      assert BT.EntryOk(z, base.value.taskId);
      history := z.threads[base.value.threadId];
    } else {
      history := [];
    }
  }

  /** The moment at which Codex makes a task's thread. */
  ghost predicate MakesThreadOf(s: State, step: ServiceStep, id: TaskId) {
    && step == Proceed(id) && id in s.flights && Last(s.flights[id]).at.Launched? && s.flights[id].world.thread.Some?
  }

  lemma LaunchedRequests(m: Moment, world: World)
    requires m.at.Launched? && world.client.Some?
    ensures FromLaunched(m, world).wire == m.wire + [ThreadRequest(m.at.base, world.thread)]
  {
  }

  lemma {:induction false} FirstRequest(before: seq<Wire>, last: seq<Wire>, sent: seq<Wire>, request: Wire)
    requires Track(New, before + last + sent).Some? && last + sent == last + [request] && request.SentThread?
    ensures before + (last + sent) == [request]
  {
    SameTail(last, sent, [request]);
    DisciplineTells(before + last, request);
  }

  /** The task's log begins with the request for the thread. */
  lemma ThreadRequested(states: seq<State>, steps: seq<ServiceStep>, k: nat, id: TaskId)
    requires IsServiceRun(states, steps) && k < |steps| && MakesThreadOf(states[k], steps[k], id)
    ensures id in states[k + 1].lives
    ensures var f := states[k].flights[id];
            WireOf(states[k + 1], id) == [ThreadRequest(Last(f).at.base, f.world.thread)]
  {
    RunKeepsFine(states, steps, k);
    RunKeepsFine(states, steps, k + 1);
    var f := states[k].flights[id];
    var m, sent := ProceedShape(states, steps, k);
    ProceedMoves(states[k], id, states[k + 1], m);
    ProceedIsDisciplined(states[k], id, states[k + 1], m, sent);
    LaunchedRequests(Last(f), f.world);
    FirstRequest(f.begun.wire, Last(f).wire, sent, ThreadRequest(Last(f).at.base, f.world.thread));
  }

  lemma {:induction false} ThreadMakes(z: BR.System, z': BR.System, req: Request, base: Option<Session>, world: World)
    returns (history: seq<string>)
    requires Good(z) && StartFits(z, Launched(base), req, world) && world.thread.Some?
    requires Takes(z, [BR.MakeThread(req.id, world.thread)], z')
    ensures ForkedFrom(z, base, history) && Inherits(z', req.id, world.thread.value, history)
  {
    var step := BR.MakeThread(req.id, world.thread);
    assert [step][1..] == [];
    history := MakingInherits(z, req.id, base, world.thread.value);
  }

  lemma ThreadShadowed(states: seq<State>, steps: seq<ServiceStep>, zs: seq<BR.System>, n: nat, k: nat, id: TaskId)
    returns (history: seq<string>)
    requires IsServiceRun(states, steps) && k < n <= |steps| && MakesThreadOf(states[k], steps[k], id)
    requires Shadows(states, steps, zs, n) && Beside(states, steps, k, zs[k])
    ensures var f := states[k].flights[id];
            && ForkedFrom(zs[k], Last(f).at.base, history)
            && Inherits(zs[k + 1], id, f.world.thread.value, history)
  {
    var f := states[k].flights[id];
    ShadowIsGood(states, steps, zs, n, k);
    RunKeepsFine(states, steps, k);
    FineHasOwnIds(states[k]);
    assert Takes(zs[k], BrokerStepsOf(states[k], steps[k], states[k + 1]), zs[k + 1]);
    history := ThreadMakes(zs[k], zs[k + 1], f.Req(), Last(f).at.base, f.world);
  }

  /** What the log says: its first request made the thread, and every turn was started there. */
  lemma LogNamesThread(states: seq<State>, steps: seq<ServiceStep>, k: nat, n: nat, id: TaskId)
    requires IsServiceRun(states, steps) && k < n <= |steps| && MakesThreadOf(states[k], steps[k], id)
    ensures id in states[n].lives && WireOf(states[n], id) != []
    ensures var f := states[k].flights[id];
            && WireOf(states[n], id)[0] == ThreadRequest(Last(f).at.base, f.world.thread)
            && forall w :: w in WireOf(states[n], id) && w.SentTurnStart? ==> w.threadId == f.world.thread.value
  {
    var request := ThreadRequest(Last(states[k].flights[id]).at.base, states[k].flights[id].world.thread);
    ThreadRequested(states, steps, k, id);
    LogsGrow(states, steps, k + 1, n, id);
    ServiceIsDisciplined(states, steps, n, id);
    var wire := WireOf(states[n], id);
    TrackFits(wire);
    assert ThreadMade(wire, request.parent, request.made.value);
    TurnsOnThread(wire, request.made.value);
  }

  /** What the system says: the thread holds what it was forked from and the completed prompts. */
  lemma ThreadHoldsOwn(
    states: seq<State>, steps: seq<ServiceStep>, zs: seq<BR.System>, k: nat, n: nat, id: TaskId, thread: ThreadId,
    history: seq<string>)
    requires k <= n <= |steps| < |states| && Shadows(states, steps, zs, n) && Beside(states, steps, n, zs[n])
    requires id in states[n].lives && Inherits(zs[k], id, thread, history)
    ensures thread in zs[n].threads && zs[n].threads[thread] == history + CompletedPrompts(WireOf(states[n], id))
  {
    ShadowKeepsInheritance(states, steps, zs, n, k, n, id, thread, history);
    ShadowedThreadHolds(states, steps, zs, n, id, thread, history);
  }

  lemma ShadowedThreadHolds(
    states: seq<State>, steps: seq<ServiceStep>, zs: seq<BR.System>, n: nat, id: TaskId, thread: ThreadId,
    history: seq<string>)
    requires n <= |steps| < |states| && Shadows(states, steps, zs, n) && Beside(states, steps, n, zs[n])
    requires id in states[n].lives && Inherits(zs[n], id, thread, history)
    ensures thread in zs[n].threads && zs[n].threads[thread] == history + CompletedPrompts(WireOf(states[n], id))
  {
    ShadowIsGood(states, steps, zs, n, n);
    ThreadHolds(states[n], zs[n], id, thread, history);
  }

  lemma ThreadHolds(s: State, z: BR.System, id: TaskId, thread: ThreadId, history: seq<string>)
    requires Fits(s, z) && Good(z) && id in s.lives && Inherits(z, id, thread, history)
    ensures thread in z.threads && z.threads[thread] == history + CompletedPrompts(WireOf(s, id))
  {
    assert LedgerFits(z, id, WireOf(s, id));
    assert BT.EntryOk(z, id);
  }

  lemma TurnsOnThread(wire: seq<Wire>, thread: ThreadId)
    requires OnOwnThread(wire) && exists parent :: ThreadMade(wire, parent, thread)
    ensures forall w :: w in wire && w.SentTurnStart? ==> w.threadId == thread
  {
    forall w | w in wire && w.SentTurnStart? ensures w.threadId == thread {
      var i :| 0 <= i < |wire| && wire[i] == w;
      var parent :| ThreadMade(wire, parent, wire[i].threadId);
    }
  }
}
