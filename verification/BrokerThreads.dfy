/** Branch immutability over every run. */
module BrokerThreads {
  // What the Codex thread behind each task holds.

  import opened Wrappers
  import opened BrokerModel
  import opened BrokerSystem

  /** A thread ledger entry is right: the thread holds what the task inherited and then completed. */
  ghost predicate EntryOk(s: System, t: TaskId)
    requires t in s.threadOf
  {
    && t in s.used && t in s.inherited && t in s.completed
    && s.threadOf[t] in s.threads
    && s.threads[s.threadOf[t]] == s.inherited[t] + s.completed[t]
  }

  ghost predicate EntriesOk(s: System) {
    forall t :: t in s.threadOf ==> EntryOk(s, t)
  }

  /** No two tasks share a thread. */
  ghost predicate OwnThreads(s: System) {
    forall t, u :: t in s.threadOf && u in s.threadOf && s.threadOf[t] == s.threadOf[u] ==> t == u
  }

  ghost predicate SessionsThreaded(s: System) {
    forall c, t :: Has(s.broker, c, t) ==> t in s.threadOf && s.broker.contexts[c][t].threadId == s.threadOf[t]
  }

  ghost predicate StartThreaded(s: System, t: TaskId)
    requires t in s.starts
  {
    var start := s.starts[t];
    && (start.Threaded? ==> t in s.threadOf && s.threadOf[t] == start.threadId)
    && (!start.Threaded? ==> t !in s.threadOf)
    && (start.base.Some? ==>
          start.base.value.taskId in s.threadOf && s.threadOf[start.base.value.taskId] == start.base.value.threadId)
  }

  ghost predicate StartsThreaded(s: System) {
    forall t :: t in s.starts ==> StartThreaded(s, t)
  }

  ghost predicate ThreadsOk(s: System) {
    EntriesOk(s) && OwnThreads(s) && SessionsThreaded(s) && StartsThreaded(s)
  }

  /** The history of a task's thread. */
  ghost function History(s: System, t: TaskId): seq<string>
    requires t in s.threadOf && s.threadOf[t] in s.threads
  {
    s.threads[s.threadOf[t]]
  }

  // ----- Every step keeps the ledger -----

  lemma BeginKeepsThreads(s: System, step: Step)
    requires Inv(s) && ThreadsOk(s) && Enabled(s, step) && step.Begin?
    ensures ThreadsOk(Apply(s, step))
  {
    var s' := Apply(s, step);
    ResolvedIsSession(s, step);
    SameLedgerKeepsThreads(s, s');
    forall t | t in s.threadOf ensures t in s.used {
      assert EntryOk(s, t);
    }
    forall t | t in s'.starts ensures StartThreaded(s', t) {
      if t != step.id {
        assert StartThreaded(s, t);
      } else {
        assert t !in s.threadOf;
      }
    }
  }

  /** Steps that leave the ledger and add no session. */
  lemma SameLedgerKeepsThreads(s: System, s': System)
    requires ThreadsOk(s)
    requires s'.threadOf == s.threadOf && s'.threads == s.threads && s.used <= s'.used
    requires s'.inherited == s.inherited && s'.completed == s.completed
    requires forall c, t :: Has(s'.broker, c, t) ==>
               Has(s.broker, c, t) && s'.broker.contexts[c][t].threadId == s.broker.contexts[c][t].threadId
    ensures EntriesOk(s') && OwnThreads(s') && SessionsThreaded(s')
    ensures StartsOnlyAge(s, s') ==> ThreadsOk(s')
  {
    forall t | t in s'.threadOf ensures EntryOk(s', t) {
      assert EntryOk(s, t);
    }
    if StartsOnlyAge(s, s') {
      forall t | t in s'.starts ensures StartThreaded(s', t) {
        assert StartThreaded(s, t);
      }
    }
  }

  /** No start is new, and none gets its thread. */
  ghost predicate StartsOnlyAge(s: System, s': System) {
    forall t :: t in s'.starts ==>
      && t in s.starts
      && s'.starts[t].base == s.starts[t].base
      && s'.starts[t].Threaded? == s.starts[t].Threaded?
      && (s.starts[t].Threaded? ==> s'.starts[t].threadId == s.starts[t].threadId)
  }

  lemma MakeThreadKeepsThreads(s: System, id: TaskId, thread: ThreadId)
    requires Inv(s) && ThreadsOk(s) && Enabled(s, MakeThread(id, Some(thread)))
    ensures ThreadsOk(Apply(s, MakeThread(id, Some(thread))))
    ensures History(Apply(s, MakeThread(id, Some(thread))), id) == ParentHistory(s, id)
  {
    var s' := Apply(s, MakeThread(id, Some(thread)));
    assert StartOk(s, id) && StartThreaded(s, id);
    if s.starts[id].base.Some? {
      assert EntryOk(s, s.starts[id].base.value.taskId);
    }
    forall t | t in s'.threadOf ensures EntryOk(s', t) && (t != id ==> s'.threadOf[t] != thread) {
      if t != id {
        assert EntryOk(s, t);
      }
    }
    forall c, t | Has(s'.broker, c, t)
      ensures t in s'.threadOf && s'.broker.contexts[c][t].threadId == s'.threadOf[t]
    {
      assert Has(s.broker, c, t) && SessionOk(s, c, t);
      assert t != id;
    }
    forall t | t in s'.starts ensures StartThreaded(s', t) {
      assert StartThreaded(s, t);
    }
  }

  /** What the task's parent holds now: the history a fork copies, or nothing for a new thread. */
  ghost function ParentHistory(s: System, id: TaskId): seq<string>
    requires id in s.starts && ThreadsOk(s)
  {
    var base := s.starts[id].base;
    if base == None then []
    else
      assert StartThreaded(s, id);
      assert EntryOk(s, base.value.taskId);
      History(s, base.value.taskId)
  }

  lemma RegisterKeepsThreads(s: System, id: TaskId)
    requires Inv(s) && ThreadsOk(s) && Enabled(s, Register(id))
    ensures ThreadsOk(Apply(s, Register(id)))
  {
    var s' := Apply(s, Register(id));
    assert StartThreaded(s, id);
    forall t | t in s'.threadOf ensures EntryOk(s', t) {
      assert EntryOk(s, t);
    }
    var c0 := s.starts[id].contextId;
    forall c, t | Has(s'.broker, c, t)
      ensures t in s'.threadOf && s'.broker.contexts[c][t].threadId == s'.threadOf[t]
    {
      if t != id || c != c0 {
        assert Has(s.broker, c, t);
        assert s'.broker.contexts[c][t].threadId == s.broker.contexts[c][t].threadId;
      }
    }
    forall t | t in s'.starts ensures StartThreaded(s', t) {
      assert StartThreaded(s, t);
    }
  }

  /** A task's turn is completed on the thread in the ledger. */
  lemma CompletedIsOwn(s: System, id: TaskId)
    requires ThreadsOk(s) && SessionOf(s.broker, id).Some?
    ensures id in s.threadOf && s.threadOf[id] == SessionOf(s.broker, id).value.threadId
  {
    assert Has(s.broker, s.broker.tasks[id].contextId, id);
  }

  lemma CompleteTurnKeepsThreads(s: System, id: TaskId, prompt: string)
    requires ThreadsOk(s) && Enabled(s, CompleteTurn(id, prompt))
    ensures ThreadsOk(Apply(s, CompleteTurn(id, prompt)))
  {
    var s' := Apply(s, CompleteTurn(id, prompt));
    CompletedIsOwn(s, id);
    assert EntryOk(s, id);
    forall t | t in s'.threadOf ensures EntryOk(s', t) {
      assert EntryOk(s, t);
    }
    assert forall c, t :: Has(s'.broker, c, t) ==> Has(s.broker, c, t);
    assert forall t :: t in s'.starts ==> StartThreaded(s, t);
  }

  lemma StepKeepsThreads(s: System, step: Step)
    requires Inv(s) && ThreadsOk(s) && Enabled(s, step)
    ensures ThreadsOk(Apply(s, step))
  {
    match step
    case Begin(_, _, _, _) => BeginKeepsThreads(s, step);
    case Launch(id, client) =>
    case MakeThread(id, made) =>
      if made == None {
        LostThreadKeepsThreads(s, id);
      } else {
        MakeThreadKeepsThreads(s, id, made.value);
      }
    case Register(id) => RegisterKeepsThreads(s, id);
    case Finish(id) => FinishKeepsThreads(s, Apply(s, step), id, true);
    case Discard(id) => FinishKeepsThreads(s, Apply(s, step), id, false);
    case CloseAll(visited) => CloseKeepsThreads(s, visited);
    case SetRuntime(_, _) => SetRuntimeKeepsThreads(s, step);
    case CompleteTurn(id, prompt) => CompleteTurnKeepsThreads(s, id, prompt);
  }

  lemma LostThreadKeepsThreads(s: System, id: TaskId)
    requires ThreadsOk(s) && Enabled(s, MakeThread(id, None))
    ensures ThreadsOk(Apply(s, MakeThread(id, None)))
  {
    SameLedgerKeepsThreads(s, Apply(s, MakeThread(id, None)));
  }

  lemma SetRuntimeKeepsThreads(s: System, step: Step)
    requires ThreadsOk(s) && Enabled(s, step) && step.SetRuntime?
    ensures ThreadsOk(Apply(s, step))
  {
    assert Apply(s, step).broker.contexts == s.broker.contexts;
    SameLedgerKeepsThreads(s, Apply(s, step));
  }

  lemma CloseKeepsThreads(s: System, visited: seq<TaskId>)
    requires ThreadsOk(s) && Enabled(s, CloseAll(visited))
    ensures ThreadsOk(Apply(s, CloseAll(visited)))
  {
    SameLedgerKeepsThreads(s, Apply(s, CloseAll(visited)));
  }

  lemma FinishKeepsThreads(s: System, s': System, id: TaskId, preserve: bool)
    requires Inv(s) && ThreadsOk(s)
    requires s' == s.(broker := Finished(s.broker, id, preserve), closed := s'.closed)
    ensures ThreadsOk(s')
  {
    if id in s.broker.tasks {
      assert TaskOk(s, id);
      FinishShrinks(s, id, preserve);
    }
    SameLedgerKeepsThreads(s, s');
  }

  lemma {:induction false} RunKeepsThreads(systems: seq<System>, steps: seq<Step>, n: nat)
    requires IsRun(systems, steps) && systems[0] == EMPTY && n <= |steps|
    ensures ThreadsOk(systems[n])
  {
    if n > 0 {
      RunKeepsThreads(systems, steps, n - 1);
      RunKeepsInv(systems, steps, n - 1);
      StepKeepsThreads(systems[n - 1], steps[n - 1]);
    }
  }

  // ----- Branch immutability -----

  /** The prompt a step completes for a task, if any. */
  function Prompt(step: Step, t: TaskId): seq<string> {
    if step.CompleteTurn? && step.id == t then [step.prompt] else []
  }

  /** The prompts a task completes in a run. */
  function Prompts(steps: seq<Step>, t: TaskId): seq<string> {
    if steps == [] then []
    else Prompts(steps[..|steps| - 1], t) + Prompt(steps[|steps| - 1], t)
  }

  ghost predicate Holds(s: System, t: TaskId, history: seq<string>) {
    t in s.threadOf && s.threadOf[t] in s.threads && History(s, t) == history
  }

  /** One step changes a task's history only by completing a turn of that task. */
  lemma OnlyOwnTurnsAppend(s: System, step: Step, t: TaskId, history: seq<string>)
    requires ThreadsOk(s) && Enabled(s, step) && Holds(s, t, history)
    ensures Holds(Apply(s, step), t, history + Prompt(step, t))
  {
    if step.CompleteTurn? {
      CompletedIsOwn(s, step.id);
    } else if step.MakeThread? {
      assert StartThreaded(s, step.id);
    }
  }

  lemma NextHolds(systems: seq<System>, steps: seq<Step>, i: nat, t: TaskId, history: seq<string>)
    requires IsRun(systems, steps) && systems[0] == EMPTY
    requires i < |steps| && Holds(systems[i], t, history)
    ensures Holds(systems[i + 1], t, history + Prompt(steps[i], t))
  {
    RunKeepsThreads(systems, steps, i);
    OnlyOwnTurnsAppend(systems[i], steps[i], t, history);
  }

  lemma {:induction false} PromptsLast(steps: seq<Step>, k: nat, n: nat, t: TaskId, history: seq<string>)
    requires k < n <= |steps|
    ensures history + Prompts(steps[k..n - 1], t) + Prompt(steps[n - 1], t) == history + Prompts(steps[k..n], t)
  {
    assert steps[k..n][..n - 1 - k] == steps[k..n - 1];
  }

  /** From a step to the next the task's history grows by its prompt. */
  ghost predicate Grows(systems: seq<System>, steps: seq<Step>, i: nat, t: TaskId, history: seq<string>)
    requires i < |steps| < |systems|
  {
    Holds(systems[i], t, history) ==> Holds(systems[i + 1], t, history + Prompt(steps[i], t))
  }

  lemma {:induction false} HistoryAccumulates(
    systems: seq<System>, steps: seq<Step>, k: nat, n: nat, t: TaskId, history: seq<string>)
    requires k <= n <= |steps| < |systems| && Holds(systems[k], t, history)
    requires forall i: nat, h :: k <= i < n ==> Grows(systems, steps, i, t, h)
    ensures Holds(systems[n], t, history + Prompts(steps[k..n], t))
  {
    if k == n {
      assert history + Prompts(steps[k..n], t) == history;
    } else {
      HistoryAccumulates(systems, steps, k, n - 1, t, history);
      assert Grows(systems, steps, n - 1, t, history + Prompts(steps[k..n - 1], t));
      PromptsLast(steps, k, n, t, history);
    }
  }

  lemma {:induction false} HistoryGrows(systems: seq<System>, steps: seq<Step>, k: nat, n: nat, t: TaskId,
                                        history: seq<string>)
    requires IsRun(systems, steps) && systems[0] == EMPTY
    requires k <= n <= |steps| && Holds(systems[k], t, history)
    ensures Holds(systems[n], t, history + Prompts(steps[k..n], t))
  {
    forall i: nat, h | k <= i < n ensures Grows(systems, steps, i, t, h) {
      if Holds(systems[i], t, h) {
        NextHolds(systems, steps, i, t, h);
      }
    }
    HistoryAccumulates(systems, steps, k, n, t, history);
  }

  /** Branch immutability. From the step at which Codex makes its thread on, a task's thread holds
      what its parent's thread held at that step, followed by exactly the prompts the task itself
      completed. Turns, forks, finishes and discards of other tasks, its parent's and its children's
      included, never show. */
  lemma {:induction false} BranchesAreImmutable(
    systems: seq<System>, steps: seq<Step>, k: nat, n: nat, id: TaskId, thread: ThreadId)
    requires IsRun(systems, steps) && systems[0] == EMPTY
    requires k < n <= |steps| && steps[k] == MakeThread(id, Some(thread))
    ensures id in systems[k].starts && ThreadsOk(systems[k])
    ensures Holds(systems[n], id, ParentHistory(systems[k], id) + Prompts(steps[k + 1..n], id))
  {
    RunKeepsThreads(systems, steps, k);
    RunKeepsInv(systems, steps, k);
    MakeThreadKeepsThreads(systems[k], id, thread);
    HistoryGrows(systems, steps, k + 1, n, id, ParentHistory(systems[k], id));
  }
}
