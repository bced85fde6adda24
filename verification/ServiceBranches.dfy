/** Branches in the whole service. */
module ServiceBranches {
  // Every run of the service is a run of the broker's interleaved system, so what is proved of those holds of the
  // executor and its overlapping executions; and what a task's thread holds can be read off the wire.

  import opened Wrappers
  import opened A2A
  import opened BrokerModel
  import opened ExecutorModel
  import opened WireDiscipline
  import opened WireThreads
  import opened Stepwise
  import opened ServiceSteps
  import opened Service
  import opened BrokerSteps
  import opened ServiceBroker
  import opened ServiceShadows
  import BR = BrokerSystem
  import BrokerRuns
  import BT = BrokerThreads
  import BC = BrokerClients

  /** Whatever state the service comes to, some run of the broker's interleaved system comes to its broker. */
  lemma ServiceIsBrokerRun(states: seq<State>, steps: seq<ServiceStep>, n: nat)
    returns (systems: seq<BR.System>, brokerSteps: seq<BR.Step>)
    requires IsServiceRun(states, steps) && NewNames(states, steps) && n <= |steps|
    ensures BR.IsRun(systems, brokerSteps) && systems[0] == BR.EMPTY
    ensures systems[|brokerSteps|].broker == states[n].broker && Fits(states[n], systems[|brokerSteps|])
  {
    var zs := ServiceShadow(states, steps, n);
    systems, brokerSteps := ShadowIsRun(states, steps, zs, n);
    assert Beside(states, steps, n, zs[n]);
  }

  /** So in the whole service every session's `childCount` is the number of its children. */
  lemma ServiceIndexAgrees(states: seq<State>, steps: seq<ServiceStep>, n: nat, c: ContextId, t: TaskId)
    requires IsServiceRun(states, steps) && NewNames(states, steps) && n <= |steps|
    requires BR.Has(states[n].broker, c, t)
    ensures states[n].broker.contexts[c][t].childCount == |Children(states[n].broker.contexts[c], t)|
  {
    var systems, brokerSteps := ServiceIsBrokerRun(states, steps, n);
    BrokerRuns.IndexAgreement(systems, brokerSteps, |brokerSteps|, c, t);
  }

  /** And in the whole service no execution forks a thread in mid-turn: the base an execution resolves to is a
      session of its context, of a task that neither runs a turn nor waits for the user. */
  lemma ServiceStartsFromIdle(states: seq<State>, steps: seq<ServiceStep>, n: nat)
    requires IsServiceRun(states, steps) && NewNames(states, steps) && n < |steps| && steps[n].Embark?
    ensures var b, id := states[n].broker, steps[n].id;
            id in states[n + 1].flights && PointOf(states[n + 1], id).Based? ==>
              var base := PointOf(states[n + 1], id).base;
              base.Some? ==>
                && var t := base.value.taskId;
                && t in ContextOf(b, steps[n].contextId) && ContextOf(b, steps[n].contextId)[t] == base.value
                && (t in b.tasks ==> !b.tasks[t].turnActive && b.tasks[t].pending == None)
  {
    var zs := ServiceShadow(states, steps, n);
    ShadowIsGood(states, steps, zs, n, n);
    assert Beside(states, steps, n, zs[n]);
    RunKeepsFine(states, steps, n);
    var s, step, s' := states[n], steps[n], states[n + 1];
    assert Goes(s, step, s');
    EmbarkShape(s, step, s');
    var f := s'.flights[step.id];
    FirstMoment(f.moments[0], f.Req(), f.begun.inbox, f.world);
    KeyedContext(zs[n], step.contextId);
    ResolvesToIdle(s.broker, step.contextId, step.references, step.world.order);
  }

  /** Branch immutability of the whole service. When Codex makes a task's thread, at step `k`, it is a fork of
      its base's thread as that is then, or new if it has no base. From then on, however executions overlap, the
      thread holds that history and then exactly the prompts of the task whose turns Codex completed; the
      task's log begins with the request, and all its turns are started on that thread. */
  lemma ServiceBranchesAreImmutable(states: seq<State>, steps: seq<ServiceStep>, k: nat, n: nat, id: TaskId)
    returns (zs: seq<BR.System>, history: seq<string>)
    requires IsServiceRun(states, steps) && NewNames(states, steps)
    requires k < n <= |steps| && MakesThreadOf(states[k], steps[k], id)
    ensures Shadows(states, steps, zs, n) && id in states[n].lives && WireOf(states[n], id) != []
    ensures var base, thread := Last(states[k].flights[id]).at.base, states[k].flights[id].world.thread.value;
            && WireOf(states[n], id)[0] == SentThread(if base.Some? then Some(base.value.threadId) else None,
                                                      Some(thread))
            && (forall w :: w in WireOf(states[n], id) && w.SentTurnStart? ==> w.threadId == thread)
            && ForkedFrom(zs[k], base, history) && thread in zs[n].threads
            && zs[n].threads[thread] == history + CompletedPrompts(WireOf(states[n], id))
  {
    zs := ServiceShadow(states, steps, n);
    LogNamesThread(states, steps, k, n, id);
    history := ThreadShadowed(states, steps, zs, n, k, id);
    ThreadHoldsOwn(states, steps, zs, k + 1, n, id, states[k].flights[id].world.thread.value, history);
  }
}
