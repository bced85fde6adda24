/** Optimistic versioning over whole runs. */
module VersionRuns {
  // Numbering, ownership and lost updates.

  import opened Wrappers
  import opened Pagination
  import opened TaskStore

  /** What a reader took away: a task and the version it had. */
  datatype Held = Held(id: string, task: Task, version: nat)

  /** The store, what each writer last read, and the history of each task: the values written to
      it, and the edits that made every value after the first. */
  datatype World = World(
    tasks: Tasks,
    held: map<nat, Held>,
    values: map<string, seq<Task>>,
    edits: map<string, seq<Task -> Task>>)

  datatype Step =
    | CreateTask(creator: string, created: Task, createdAt: int)
      /** A writer reads a task with `Get`. */
    | Read(reader: nat, readBy: string, readId: string)
      /** A writer edits the task it last read and updates under the version it read. */
    | Modify(writer: nat, modifiedBy: string, edit: Task -> Task, modifiedAt: int)
      /** Any other update. */
    | Overwrite(updater: string, updated: Task, prev: PrevVersion, updatedAt: int)

  /** An edit keeps the task's ID. */
  function Edited(edit: Task -> Task, task: Task): Task {
    edit(task).(id := task.id)
  }

  /** The write a step attempts: a first value or an edit of the current one. */
  datatype Attempt = Attempt(
    user: string, task: Task, outcome: Result<nat, StoreError>, now: int, edit: Option<Task -> Task>)
  {
    ghost predicate Commits(id: string) {
      outcome.Ok? && task.id == id
    }
  }

  ghost function AttemptOf(w: World, step: Step): Option<Attempt> {
    match step
    case CreateTask(creator, task, now) =>
      Some(Attempt(creator, task, CreateOutcome(w.tasks, creator, task.id), now, None))
    case Read(_, _, _) => None
    case Modify(writer, user, edit, now) =>
      if writer !in w.held then None
      else
        var h := w.held[writer];
        Some(Attempt(user, Edited(edit, h.task), UpdateOutcome(w.tasks, user, h.task.id, Real(h.version)),
                     now, Some(edit)))
    case Overwrite(updater, task, prev, now) =>
      Some(Attempt(updater, task, UpdateOutcome(w.tasks, updater, task.id, prev), now, Some(_ => task)))
  }

  ghost function Commit(w: World, a: Attempt): World {
    var id := a.task.id;
    w.(tasks := Written(w.tasks, a.user, a.task, a.outcome, a.now),
       values := w.values[id := (if id in w.values then w.values[id] else []) + [a.task]],
       edits := w.edits[id := if id in w.edits && a.edit.Some? then w.edits[id] + [a.edit.value] else []])
  }

  ghost function TakeAway(w: World, reader: nat, user: string, id: string): World {
    if id in w.tasks && w.tasks[id].user == user
    then w.(held := w.held[reader := Held(id, w.tasks[id].task, w.tasks[id].version)])
    else w
  }

  ghost function Apply(w: World, step: Step): World {
    var a := AttemptOf(w, step);
    if a.Some? then (if a.value.outcome.Ok? then Commit(w, a.value) else w)
    else if step.Read? then TakeAway(w, step.reader, step.readBy, step.readId)
    else w
  }

  /** A run from any store: the worlds it passes through, one step at a time. */
  ghost predicate IsRun(worlds: seq<World>, steps: seq<Step>) {
    |worlds| == |steps| + 1 && forall i :: 0 <= i < |steps| ==> StepsTo(worlds[i], steps[i], worlds[i + 1])
  }

  ghost predicate StepsTo(w: World, step: Step, w': World) {
    w' == Apply(w, step)
  }

  ghost const EMPTY: World := World(map[], map[], map[], map[])

  // ----- Version numbering -----

  ghost predicate Wrote(w: World, step: Step, id: string) {
    AttemptOf(w, step).Some? && AttemptOf(w, step).value.Commits(id)
  }

  /** The successful writes of one task in the first `n` steps of a run. */
  ghost function Writes(worlds: seq<World>, steps: seq<Step>, n: nat, id: string): nat
    requires n <= |steps| < |worlds|
  {
    if n == 0 then 0 else Writes(worlds, steps, n - 1, id) + if Wrote(worlds[n - 1], steps[n - 1], id) then 1 else 0
  }

  /** The history of a stored task: one value a version, the last one stored, made by the edits. */
  ghost predicate HistoryOk(w: World, id: string) {
    && id in w.tasks && id in w.values && id in w.edits
    && |w.values[id]| == w.tasks[id].version == |w.edits[id]| + 1
    && w.values[id][|w.values[id]| - 1] == w.tasks[id].task
    && w.tasks[id].task == Fold(w.values[id][0], w.edits[id])
  }

  /** A held version names the value that was read. */
  ghost predicate HeldOk(w: World, h: Held) {
    && h.id in w.tasks && h.task.id == h.id && h.id in w.values
    && 1 <= h.version <= |w.values[h.id]|
    && h.task == w.values[h.id][h.version - 1]
  }

  ghost predicate Inv(w: World) {
    Filed(w) && HistoriesOk(w) && AllHeldOk(w)
  }

  ghost predicate Filed(w: World) {
    Keyed(w.tasks) && w.values.Keys == w.tasks.Keys
  }

  ghost predicate HistoriesOk(w: World) {
    forall id :: id in w.tasks ==> HistoryOk(w, id)
  }

  ghost predicate AllHeldOk(w: World) {
    forall k :: k in w.held ==> HeldOk(w, w.held[k])
  }

  /** Applying edits one after the other. */
  ghost function Fold(first: Task, edits: seq<Task -> Task>): Task {
    if edits == [] then first
    else Edited(edits[|edits| - 1], Fold(first, edits[..|edits| - 1]))
  }

  /** What a successful attempt does: it creates version 1 of a new task, or edits the value that
      is stored now into the next version. */
  ghost predicate Current(w: World, a: Attempt) {
    var id := a.task.id;
    if a.edit == None then id !in w.tasks && a.outcome == Ok(1)
    else
      && id in w.tasks && a.outcome == Ok(w.tasks[id].version + 1)
      && a.user == w.tasks[id].user
      && a.task == Edited(a.edit.value, w.tasks[id].task)
  }

  /** A version check that passes means the writer read the value that is stored now. */
  lemma CommitsAreCurrent(w: World, step: Step)
    requires Inv(w) && AttemptOf(w, step).Some? && AttemptOf(w, step).value.outcome.Ok?
    ensures Current(w, AttemptOf(w, step).value)
  {
    if step.Modify? {
      assert HeldOk(w, w.held[step.writer]);
      assert HistoryOk(w, w.held[step.writer].id);
    }
  }

  lemma CommitKeepsHeld(w: World, a: Attempt, h: Held)
    requires HeldOk(w, h) && a.outcome.Ok?
    ensures HeldOk(Commit(w, a), h)
  {
    assert a.task.id == h.id ==> Commit(w, a).values[h.id] == w.values[h.id] + [a.task];
  }

  lemma CommitKeepsHistories(w: World, a: Attempt)
    requires Inv(w) && a.outcome.Ok? && Current(w, a)
    ensures HistoriesOk(Commit(w, a))
  {
    forall id | id in Commit(w, a).tasks ensures HistoryOk(Commit(w, a), id) {
    }
  }

  lemma CommitKeepsInv(w: World, a: Attempt)
    requires Inv(w) && a.outcome.Ok? && Current(w, a)
    ensures Inv(Commit(w, a))
  {
    CommitKeepsHistories(w, a);
    forall k | k in w.held ensures HeldOk(Commit(w, a), w.held[k]) {
      CommitKeepsHeld(w, a, w.held[k]);
    }
  }

  lemma StepKeepsInv(w: World, step: Step)
    requires Inv(w)
    ensures Inv(Apply(w, step))
  {
    var a := AttemptOf(w, step);
    if a.Some? && a.value.outcome.Ok? {
      CommitsAreCurrent(w, step);
      CommitKeepsInv(w, a.value);
    } else if step.Read? && step.readId in w.tasks {
      assert HistoryOk(w, step.readId);
    }
  }

  lemma {:induction false} RunKeepsInv(worlds: seq<World>, steps: seq<Step>, n: nat)
    requires IsRun(worlds, steps) && worlds[0] == EMPTY && n <= |steps|
    ensures Inv(worlds[n])
  {
    if n > 0 {
      RunKeepsInv(worlds, steps, n - 1);
      StepKeepsInv(worlds[n - 1], steps[n - 1]);
    }
  }

  lemma CommitVersions(w: World, a: Attempt, id: string)
    requires a.outcome.Ok? && Current(w, a)
    ensures VersionOf(Commit(w, a), id) == VersionOf(w, id) + (if id == a.task.id then 1 else 0)
    ensures a.outcome == Ok(VersionOf(Commit(w, a), a.task.id))
  {
  }

  /** One step writes a task at most once, and that counts its version up by one. */
  lemma StepVersions(w: World, step: Step, id: string)
    requires Inv(w)
    ensures var w' := Apply(w, step);
            && VersionOf(w', id) == VersionOf(w, id) + (if Wrote(w, step, id) then 1 else 0)
            && (Wrote(w, step, id) ==> AttemptOf(w, step).value.outcome == Ok(VersionOf(w', id)))
  {
    var a := AttemptOf(w, step);
    if a.Some? && a.value.outcome.Ok? {
      CommitsAreCurrent(w, step);
      CommitVersions(w, a.value, id);
    } else {
      assert Apply(w, step).tasks == w.tasks;
    }
  }

  ghost function VersionOf(w: World, id: string): nat {
    if id in w.tasks then w.tasks[id].version else 0
  }

  /** Versions run 1, 2, 3, ...: in any run of a new store a task's version is the number of its
      successful writes, and the n-th of them returns n, whoever makes it. */
  lemma {:induction false} VersionsCountWrites(worlds: seq<World>, steps: seq<Step>, n: nat, id: string)
    requires IsRun(worlds, steps) && worlds[0] == EMPTY && n <= |steps|
    ensures VersionOf(worlds[n], id) == Writes(worlds, steps, n, id)
    ensures n > 0 && Wrote(worlds[n - 1], steps[n - 1], id) ==>
              AttemptOf(worlds[n - 1], steps[n - 1]).value.outcome == Ok(Writes(worlds, steps, n, id))
  {
    if n > 0 {
      VersionsCountWrites(worlds, steps, n - 1, id);
      RunKeepsInv(worlds, steps, n - 1);
      StepVersions(worlds[n - 1], steps[n - 1], id);
    }
  }

  // ----- Ownership and conflicts, from any store -----

  lemma {:induction false} RunGrows(worlds: seq<World>, steps: seq<Step>, i: nat, j: nat, id: string)
    requires IsRun(worlds, steps) && i <= j <= |steps| && id in worlds[i].tasks
    ensures var before, after := worlds[i].tasks, worlds[j].tasks;
            && id in after
            && after[id].user == before[id].user
            && after[id].version >= before[id].version
  {
    if i < j {
      RunGrows(worlds, steps, i, j - 1, id);
    }
  }

  /** The owner of a task never changes, and no other user's write of it ever succeeds. */
  lemma OwnersAreFixed(worlds: seq<World>, steps: seq<Step>, i: nat, j: nat, id: string)
    requires IsRun(worlds, steps) && i <= j < |steps| && id in worlds[i].tasks
    ensures id in worlds[j].tasks && worlds[j].tasks[id].user == worlds[i].tasks[id].user
    ensures Wrote(worlds[j], steps[j], id) ==> AttemptOf(worlds[j], steps[j]).value.user == worlds[i].tasks[id].user
  {
    RunGrows(worlds, steps, i, j, id);
  }

  ghost predicate UpdatesUnder(w: World, step: Step, id: string, version: nat) {
    match step
    case Modify(writer, _, _, _) =>
      writer in w.held && w.held[writer].task.id == id && w.held[writer].version == version
    case Overwrite(_, task, prev, _) => task.id == id && prev == Real(version)
    case _ => false
  }

  /** Of all updates of a task that carry the same real previous version, at most one succeeds. */
  lemma OneWinnerPerVersion(worlds: seq<World>, steps: seq<Step>, i: nat, j: nat, id: string, version: nat)
    requires IsRun(worlds, steps) && i < j < |steps|
    requires UpdatesUnder(worlds[i], steps[i], id, version)
    requires UpdatesUnder(worlds[j], steps[j], id, version)
    requires AttemptOf(worlds[i], steps[i]).value.outcome.Ok?
    ensures AttemptOf(worlds[j], steps[j]).value.outcome == Err(ConcurrentModification) ||
            AttemptOf(worlds[j], steps[j]).value.outcome == Err(TaskNotFound)
  {
    RunGrows(worlds, steps, i + 1, j, id);
  }

  // ----- Lost updates -----

  /** What a step adds to the accepted edits of a task. */
  ghost function AcceptedNow(w: World, step: Step, id: string): seq<Task -> Task> {
    if Wrote(w, step, id) && step.Modify? then [step.edit] else []
  }

  /** The edits of one task that succeeded in the first `n` steps, in order. */
  ghost function Accepted(worlds: seq<World>, steps: seq<Step>, n: nat, id: string): seq<Task -> Task>
    requires n <= |steps| < |worlds|
  {
    if n == 0 then []
    else
      Accepted(worlds, steps, n - 1, id) + AcceptedNow(worlds[n - 1], steps[n - 1], id)
  }

  ghost function EditsOf(w: World, id: string): seq<Task -> Task> {
    if id in w.edits then w.edits[id] else []
  }

  /** A step that does not write a task leaves its history. */
  lemma QuietHistory(w: World, step: Step, id: string)
    requires !Wrote(w, step, id)
    ensures var w' := Apply(w, step);
            && (id in w'.tasks <==> id in w.tasks)
            && (id in w'.values <==> id in w.values) && (id in w.values ==> w'.values[id] == w.values[id])
            && EditsOf(w', id) == EditsOf(w, id)
  {
  }

  /** The edits of a task's history are these. */
  ghost predicate Accounted(w: World, id: string, accepted: seq<Task -> Task>) {
    accepted == if id in w.tasks then EditsOf(w, id) else []
  }

  lemma WriteIsAccepted(w: World, step: Step, id: string, accepted: seq<Task -> Task>)
    requires Inv(w) && Wrote(w, step, id) && !step.Overwrite? && Accounted(w, id, accepted)
    ensures Accounted(Apply(w, step), id, accepted + if step.Modify? then [step.edit] else [])
  {
    CommitsAreCurrent(w, step);
  }

  lemma StepIsAccounted(w: World, step: Step, w': World, id: string, accepted: seq<Task -> Task>)
    requires Inv(w) && StepsTo(w, step, w') && Accounted(w, id, accepted)
    requires step.Overwrite? ==> step.updated.id != id
    ensures Accounted(w', id, accepted + AcceptedNow(w, step, id))
  {
    assert accepted + [] == accepted;
    if Wrote(w, step, id) {
      WriteIsAccepted(w, step, id, accepted);
    } else {
      QuietHistory(w, step, id);
    }
  }

  lemma {:induction false} EditsAreAccepted(worlds: seq<World>, steps: seq<Step>, n: nat, id: string)
    requires IsRun(worlds, steps) && worlds[0] == EMPTY && n <= |steps|
    requires forall i :: 0 <= i < n && steps[i].Overwrite? ==> steps[i].updated.id != id
    ensures Accounted(worlds[n], id, Accepted(worlds, steps, n, id))
  {
    if n > 0 {
      EditsAreAccepted(worlds, steps, n - 1, id);
      RunKeepsInv(worlds, steps, n - 1);
      StepIsAccounted(worlds[n - 1], steps[n - 1], worlds[n], id, Accepted(worlds, steps, n - 1, id));
    }
  }

  /** A step that creates this task with this value, and succeeds. */
  ghost predicate Creates(w: World, step: Step, id: string, first: Task) {
    step.CreateTask? && step.created == first && Wrote(w, step, id)
  }

  /** A task that a step stores or keeps has the first value it had, or is created by the step. */
  lemma FirstValue(w: World, step: Step, w': World, id: string)
    requires Inv(w) && StepsTo(w, step, w') && id in w'.tasks
    ensures id in w'.values && |w'.values[id]| > 0
    ensures id in w.tasks ==> id in w.values && |w.values[id]| > 0 && w'.values[id][0] == w.values[id][0]
    ensures id !in w.tasks ==> Creates(w, step, id, w'.values[id][0])
  {
    if Wrote(w, step, id) {
      CommitsAreCurrent(w, step);
    } else {
      QuietHistory(w, step, id);
    }
    if id in w.tasks {
      assert HistoryOk(w, id);
    }
  }

  /** Every stored task came from a create step that succeeded. */
  lemma {:induction false} WasCreated(worlds: seq<World>, steps: seq<Step>, n: nat, id: string) returns (i: nat)
    requires IsRun(worlds, steps) && worlds[0] == EMPTY && n <= |steps| && id in worlds[n].tasks
    ensures i < n && id in worlds[n].values && |worlds[n].values[id]| > 0
    ensures Creates(worlds[i], steps[i], id, worlds[n].values[id][0])
  {
    RunKeepsInv(worlds, steps, n - 1);
    assert StepsTo(worlds[n - 1], steps[n - 1], worlds[n]);
    FirstValue(worlds[n - 1], steps[n - 1], worlds[n], id);
    i := n - 1;
    if id in worlds[n - 1].tasks {
      i := WasCreated(worlds, steps, n - 1, id);
    }
  }

  /** No lost updates. When every writer of a task updates it under the version it read, the stored
      task is the created one with exactly the successful edits applied to it, one after the other:
      none is lost and none is computed from a stale value. */
  lemma {:induction false} NoLostUpdates(worlds: seq<World>, steps: seq<Step>, n: nat, id: string)
    requires IsRun(worlds, steps) && worlds[0] == EMPTY && n <= |steps|
    requires forall i :: 0 <= i < n && steps[i].Overwrite? ==> steps[i].updated.id != id
    requires id in worlds[n].tasks
    ensures exists i :: 0 <= i < n && steps[i].CreateTask? && Wrote(worlds[i], steps[i], id) &&
              worlds[n].tasks[id].task == Fold(steps[i].created, Accepted(worlds, steps, n, id))
  {
    EditsAreAccepted(worlds, steps, n, id);
    RunKeepsInv(worlds, steps, n);
    assert HistoryOk(worlds[n], id);
    var i := WasCreated(worlds, steps, n, id);
  }
}
