/** What a life comes to. */
module LifeOutcomes {
  // What a task's client is told, what Codex is answered and how turns end, over all executions of a task.

  import opened Wrappers
  import opened A2A
  import opened BrokerModel
  import opened ExecutorModel
  import opened ExecutorRuns
  import opened Artifacts
  import opened TaskLife
  import opened Replies
  import opened Endings
  import opened Telling

  /** A held runtime remembers all that the task consumed. */
  ghost predicate LifeRemembers(l: Life) {
    l.id in l.broker.tasks ==> Remembers(l.broker.tasks[l.id], l.consumed)
  }

  lemma RunComes(l: Life, message: UserMessage, references: seq<TaskId>, world: World)
    requires ViewsAgree(l) && Possible(l, Run(message, references, world))
    ensures Comes(l.broker, RequestOf(l, message, references), world)
    ensures RequestOf(l, message, references).stored == None ==> l.consumed == [] && l.id !in l.broker.tasks
  {
  }

  lemma RunRemembers(l: Life, step: LifeStep)
    requires ViewsAgree(l) && LifeRemembers(l) && step.Run? && Possible(l, step)
    ensures LifeRemembers(Live(l, step))
  {
    RunComes(l, step.message, step.references, step.world);
    ExecutionIsTold(l.broker, RequestOf(l, step.message, step.references), l.inbox, step.world, l.consumed);
  }

  lemma {:induction false} LifeKeepsRemembering(lives: seq<Life>, steps: seq<LifeStep>, n: nat)
    requires IsLife(lives, steps) && n <= |steps|
    ensures LifeRemembers(lives[n])
  {
    if n > 0 {
      LifeKeepsRemembering(lives, steps, n - 1);
      ViewsStayAgreed(lives, steps, n - 1);
      if steps[n - 1].Run? {
        RunRemembers(lives[n - 1], steps[n - 1]);
      }
    }
  }

  /** The execution a life makes in a step. */
  ghost function ExecutionOf(l: Life, step: LifeStep): Execution
    requires step.Run? && Possible(l, step)
  {
    ExecuteStream(l.broker, RequestOf(l, step.message, step.references), l.inbox, step.world)
  }

  /** Over a whole life, what each execution tells the client is a function of the messages of the task:
      those of all executions before it and those it consumes. No event depends on what other tasks do. */
  lemma LifeTellsArrivals(lives: seq<Life>, steps: seq<LifeStep>, n: nat)
    requires IsLife(lives, steps) && n < |steps| && steps[n].Run?
    ensures var l, x := lives[n], ExecutionOf(lives[n], steps[n]);
            && x.used <= |l.inbox|
            && lives[n + 1].events ==
               l.events
               + (if StoredState(l.events) == None then [Status(Submitted, None)] else [])
               + ToldBetween(l.broker, l.id, l.consumed, l.inbox, x)
               + (if x.ok then [] else [Status(Failed, None)])
  {
    var l, step := lives[n], steps[n];
    ViewsStayAgreed(lives, steps, n);
    LifeKeepsRemembering(lives, steps, n);
    RunComes(l, step.message, step.references, step.world);
    ExecutionIsTold(l.broker, RequestOf(l, step.message, step.references), l.inbox, step.world, l.consumed);
    FourParts(l.events, if StoredState(l.events) == None then [Status(Submitted, None)] else [],
              ToldBetween(l.broker, l.id, l.consumed, l.inbox, ExecutionOf(l, step)),
              if ExecutionOf(l, step).ok then [] else [Status(Failed, None)]);
  }

  lemma FourParts(a: seq<Event>, b: seq<Event>, c: seq<Event>, d: seq<Event>)
    ensures a + (b + c + d) == a + b + c + d
  {
  }

  /** Over a whole life, an execution sends Codex an answer exactly when a request waits, its reply gives
      that answer and the write succeeds: under the ID that waits, first of all, and once. */
  lemma LifeAnswersReplies(lives: seq<Life>, steps: seq<LifeStep>, n: nat, under: string, answer: Answer)
    requires IsLife(lives, steps) && n < |steps| && steps[n].Run?
    ensures var l, step := lives[n], steps[n];
            var sent := lives[n + 1].wire[|l.wire|..];
            && (SentResponse(under, answer) in sent <==>
                  && l.id in l.broker.tasks && l.broker.tasks[l.id].pending.Some? && step.world.responds
                  && under == l.broker.tasks[l.id].pending.value.id
                  && Gives(step.message, l.broker.tasks[l.id].pending.value.kind, answer))
            && (forall i :: 0 <= i < |sent| && sent[i].SentResponse? ==> i == 0)
  {
    var l, step := lives[n], steps[n];
    var req := RequestOf(l, step.message, step.references);
    ViewsStayAgreed(lives, steps, n);
    ExecutionAnswers(l.broker, req, l.inbox, step.world, under, answer);
    assert lives[n + 1].wire[|l.wire|..] == ExecutionOf(l, step).wire;
  }

  lemma CanceledInSum(consumed: seq<Arrival>, inbox: seq<Arrival>, used: nat)
    requires used <= |inbox|
    ensures AnyCanceled(consumed + inbox[..used]) <==>
              AnyCanceled(consumed) || exists i :: 0 <= i < used && inbox[i].canceled
  {
    var all := consumed + inbox[..used];
    forall i | 0 <= i < |consumed| ensures all[i] == consumed[i] {
    }
    forall i | 0 <= i < used ensures all[|consumed| + i] == inbox[i] {
    }
    if AnyCanceled(consumed) {
      var i :| 0 <= i < |consumed| && consumed[i].canceled;
      assert all[i].canceled;
    }
    if i :| 0 <= i < used && inbox[i].canceled {
      assert all[|consumed| + i].canceled;
    }
  }

  /** Over a whole life, the last status after an execution tells how its turn ended: as canceled exactly
      after an interrupted turn when the user had not canceled the task in any execution so far, as failed
      exactly after an error, a failed end or an unknown one, and as ready exactly after a completed one. */
  lemma {:induction false} LifeTellsEnds(lives: seq<Life>, steps: seq<LifeStep>, n: nat)
    requires IsLife(lives, steps) && n < |steps| && steps[n].Run?
    ensures var l, x, status := lives[n], ExecutionOf(lives[n], steps[n]), LastStatus(lives[n + 1].events);
            && x.used <= |l.inbox|
            && var ended := if x.ok && x.used > 0 then Some(l.inbox[x.used - 1].message) else None;
            && (status == Some(Status(Canceled, None)) <==>
                  ended == Some(TurnEnded(TurnInterrupted)) && !AnyCanceled(l.consumed + l.inbox[..x.used]))
            && (status == Some(Status(Working, None)) <==>
                  ended == Some(TurnEnded(TurnInterrupted)) && AnyCanceled(l.consumed + l.inbox[..x.used]))
            && (status == Some(Status(InputRequired, None)) <==> ended == Some(TurnEnded(TurnDone)))
            && (status == Some(Status(Failed, None)) <==>
                  !x.ok || ended == Some(TurnEnded(TurnFailed)) || ended == Some(TurnEnded(TurnUnknown)))
  {
    var l, step := lives[n], steps[n];
    var x := ExecutionOf(l, step);
    var req := RequestOf(l, step.message, step.references);
    ViewsStayAgreed(lives, steps, n);
    LifeKeepsRemembering(lives, steps, n);
    RunComes(l, step.message, step.references, step.world);
    StatusTellsTheEnd(l.broker, req, l.inbox, step.world);
    ConsumesFromRest(l.broker, req, l.inbox, step.world);
    LifecycleAgreement(l.broker, req, l.inbox, step.world);
    LastStatusOfSum(l.events, x.events);
    CanceledInSum(l.consumed, l.inbox, x.used);
  }

  /** Only a new task or a held one consumes. */
  lemma ConsumesFromRest(b: Broker, req: Request, inbox: seq<Arrival>, world: World)
    requires Comes(b, req, world)
    ensures ExecuteStream(b, req, inbox, world).used > 0 ==> req.stored == None || req.id in b.tasks
  {
  }
}
