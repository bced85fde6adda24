/** The whole life of one task. */
module TaskLife {
  // Executions come one after the other, while other tasks use the broker in between.

  import opened Wrappers
  import opened A2A
  import opened BrokerModel
  import opened ExecutorModel
  import opened ExecutorRuns
  import opened WireDiscipline
  import opened Artifacts
  import opened Replies
  import opened Executions

  // ----- The life of a task -----

  /** Everything about one task: the broker it shares, the messages its client has delivered and not
      handed out yet, all that arrived, all that was consumed, and all that was emitted. */
  datatype Life = Life(
    id: TaskId,
    contextId: ContextId,
    broker: Broker,
    inbox: seq<Arrival>,
    arrived: seq<Arrival>,
    consumed: seq<Arrival>,
    events: seq<Event>,
    wire: seq<Wire>)

  datatype LifeStep =
      /** Messages arrive from Codex. */
    | Deliver(arrivals: seq<Arrival>)
      /** One execution of the task. */
    | Run(message: UserMessage, references: seq<TaskId>, world: World)
      /** Other tasks change the broker. */
    | Elsewhere(broker: Broker)

  /** The state the A2A library has stored: the last status it was sent. */
  function StoredState(events: seq<Event>): Option<TaskState> {
    match LastStatus(events)
    case None => None
    case Some(e) => Some(e.state)
  }

  function RequestOf(l: Life, message: UserMessage, references: seq<TaskId>): Request {
    Request(l.id, l.contextId, StoredState(l.events), message, references)
  }

  /** Other tasks leave this one's runtime, client and thread alone, and do not take its ID. */
  ghost predicate SameTask(b: Broker, b': Broker, id: TaskId, contextId: ContextId) {
    && (id in b'.tasks <==> id in b.tasks) && (id in b.tasks ==> b'.tasks[id] == b.tasks[id])
    && (id in ContextOf(b', contextId) <==> id in ContextOf(b, contextId))
    && (id in ContextOf(b, contextId) ==>
          && ContextOf(b', contextId)[id].client == ContextOf(b, contextId)[id].client
          && ContextOf(b', contextId)[id].threadId == ContextOf(b, contextId)[id].threadId)
  }

  ghost predicate Possible(l: Life, step: LifeStep) {
    match step
    case Deliver(_) => true
    case Run(message, references, world) => Ready(l.broker, RequestOf(l, message, references), world)
    case Elsewhere(b) => SameTask(l.broker, b, l.id, l.contextId)
  }

  ghost function Live(l: Life, step: LifeStep): Life
    requires Possible(l, step)
  {
    match step
    case Deliver(arrivals) => l.(inbox := l.inbox + arrivals, arrived := l.arrived + arrivals)
    case Elsewhere(b) => l.(broker := b)
    case Run(message, references, world) =>
      var x := ExecuteStream(l.broker, RequestOf(l, message, references), l.inbox, world);
      l.(broker := x.broker,
         inbox := l.inbox[x.used..],
         consumed := l.consumed + l.inbox[..x.used],
         events := l.events + x.events,
         wire := l.wire + x.wire)
  }

  ghost predicate IsLife(lives: seq<Life>, steps: seq<LifeStep>) {
    && |lives| == |steps| + 1
    && Unborn(lives[0])
    && forall i :: 0 <= i < |steps| ==> Possible(lives[i], steps[i]) && lives[i + 1] == Live(lives[i], steps[i])
  }

  ghost predicate Unborn(l: Life) {
    && Unseen(l.broker, l.id, l.contextId)
    && l.inbox == [] && l.arrived == [] && l.consumed == [] && l.events == [] && l.wire == []
  }

  /** What other tasks do through the broker's own operations stays elsewhere. */
  lemma FinishStaysElsewhere(b: Broker, id: TaskId, contextId: ContextId, other: TaskId, preserve: bool)
    requires other != id && (id in b.tasks ==> b.tasks[id].contextId == contextId)
    ensures SameTask(b, Finished(b, other, preserve), id, contextId)
  {
  }

  lemma RegisterStaysElsewhere(b: Broker, id: TaskId, contextId: ContextId, other: Session)
    requires other.taskId != id && (id in b.tasks ==> b.tasks[id].contextId == contextId)
    ensures SameTask(b, Registered(b, other), id, contextId)
  {
  }

  lemma TurnStaysElsewhere(b: Broker, id: TaskId, contextId: ContextId, other: TaskId, runtime: Runtime)
    requires other != id
    ensures SameTask(b, WithTask(b, other, runtime), id, contextId)
  {
  }

  // ----- What every life keeps -----

  /** The last status, the runtime and the broker agree between executions. */
  ghost predicate ViewsAgree(l: Life) {
    match LastStatus(l.events)
    case None => Unseen(l.broker, l.id, l.contextId) && l.consumed == [] && l.wire == []
    case Some(status) =>
      if status.state == InputRequired
      then Held(l.broker, l.id, l.contextId) && status.pendingKind == KindOf(l.broker.tasks[l.id])
      else Gone(l.broker, l.id, l.contextId)
  }

  /** The wire log keeps the discipline, and a held runtime knows the mode it is in. */
  ghost predicate WireKept(l: Life) {
    InMode(l.broker, l.id, Track(New, l.wire))
  }

  /** The messages taken from the inbox are the ones that were read from Codex. */
  ghost predicate Conserved(l: Life) {
    l.consumed + l.inbox == l.arrived && Read(l.wire) == MessagesOf(l.consumed)
  }

  ghost predicate AllSeen(l: Life) {
    forall stream, itemId ::
      Seen(ApplyAll(map[], l.events), l.broker, l.id, MessagesOf(l.consumed), stream, itemId)
  }

  ghost predicate LifeInv(l: Life) {
    ViewsAgree(l) && WireKept(l) && Conserved(l) && AllSeen(l)
  }

  lemma RunKeepsViews(l: Life, message: UserMessage, references: seq<TaskId>, world: World)
    requires ViewsAgree(l) && Possible(l, Run(message, references, world))
    ensures ViewsAgree(Live(l, Run(message, references, world)))
  {
    var req := RequestOf(l, message, references);
    LifecycleAgreement(l.broker, req, l.inbox, world);
    LastStatusOfSum(l.events, ExecuteStream(l.broker, req, l.inbox, world).events);
  }

  lemma RunKeepsWire(l: Life, message: UserMessage, references: seq<TaskId>, world: World)
    requires ViewsAgree(l) && WireKept(l) && Possible(l, Run(message, references, world))
    ensures WireKept(Live(l, Run(message, references, world)))
  {
    var req := RequestOf(l, message, references);
    var x := ExecuteStream(l.broker, req, l.inbox, world);
    ExecutionIsDisciplined(l.broker, req, l.inbox, world);
    if l.id in l.broker.tasks || l.wire == [] {
      TrackOfSum(New, l.wire, x.wire);
    } else {
      assert l.wire + x.wire == l.wire;
    }
  }

  lemma RunKeepsSeen(l: Life, message: UserMessage, references: seq<TaskId>, world: World)
    requires ViewsAgree(l) && AllSeen(l) && Possible(l, Run(message, references, world))
    ensures AllSeen(Live(l, Run(message, references, world)))
  {
    var l' := Live(l, Run(message, references, world));
    forall stream, itemId
      ensures Seen(ApplyAll(map[], l'.events), l'.broker, l.id, MessagesOf(l'.consumed), stream, itemId)
    {
      RunKeepsOneSeen(l, message, references, world, stream, itemId);
    }
  }

  lemma MessagesOfSum(first: seq<Arrival>, second: seq<Arrival>)
    ensures MessagesOf(first + second) == MessagesOf(first) + MessagesOf(second)
  {
  }

  lemma {:induction false} RunKeepsOneSeen(l: Life, message: UserMessage, references: seq<TaskId>, world: World,
                                           stream: Stream,
                        itemId: string)
    requires ViewsAgree(l) && Possible(l, Run(message, references, world))
    requires Seen(ApplyAll(map[], l.events), l.broker, l.id, MessagesOf(l.consumed), stream, itemId)
    ensures var l' := Live(l, Run(message, references, world));
            Seen(ApplyAll(map[], l'.events), l'.broker, l.id, MessagesOf(l'.consumed), stream, itemId)
  {
    var req := RequestOf(l, message, references);
    var l' := Live(l, Run(message, references, world));
    var x := ExecuteStream(l.broker, req, l.inbox, world);
    ApplyAllOfSum(map[], l.events, x.events);
    MessagesOfSum(l.consumed, l.inbox[..x.used]);
    ExecutionIsSeen(ApplyAll(map[], l.events), l.broker, req, l.inbox, world, MessagesOf(l.consumed), stream, itemId);
  }

  lemma {:induction false} Split(arrived: seq<Arrival>, consumed: seq<Arrival>, inbox: seq<Arrival>, used: nat)
    requires consumed + inbox == arrived && used <= |inbox|
    ensures (consumed + inbox[..used]) + inbox[used..] == arrived
  {
    assert inbox[..used] + inbox[used..] == inbox;
  }

  lemma RunConserves(l: Life, message: UserMessage, references: seq<TaskId>, world: World)
    requires Conserved(l) && Possible(l, Run(message, references, world))
    ensures Conserved(Live(l, Run(message, references, world)))
  {
    var req := RequestOf(l, message, references);
    var x := ExecuteStream(l.broker, req, l.inbox, world);
    Split(l.arrived, l.consumed, l.inbox, x.used);
    ExecutionReads(l.broker, req, l.inbox, world);
    ReadOfSum(l.wire, x.wire);
    MessagesOfSum(l.consumed, l.inbox[..x.used]);
  }

  lemma ElsewhereKeepsLife(l: Life, b: Broker)
    requires LifeInv(l) && SameTask(l.broker, b, l.id, l.contextId)
    ensures LifeInv(l.(broker := b))
  {
    var l' := l.(broker := b);
    forall stream, itemId
      ensures Seen(ApplyAll(map[], l'.events), l'.broker, l.id, MessagesOf(l'.consumed), stream, itemId)
    {
      assert Seen(ApplyAll(map[], l.events), l.broker, l.id, MessagesOf(l.consumed), stream, itemId);
    }
  }

  lemma StepKeepsLife(l: Life, step: LifeStep)
    requires LifeInv(l) && Possible(l, step)
    ensures LifeInv(Live(l, step))
  {
    match step
    case Deliver(arrivals) =>
    case Elsewhere(b) => ElsewhereKeepsLife(l, b);
    case Run(message, references, world) =>
      RunKeepsViews(l, message, references, world);
      RunKeepsWire(l, message, references, world);
      RunKeepsSeen(l, message, references, world);
      RunConserves(l, message, references, world);
  }

  lemma UnbornKeepsLife(l: Life)
    requires Unborn(l)
    ensures LifeInv(l)
  {
    forall stream, itemId ensures Seen(ApplyAll(map[], []), l.broker, l.id, MessagesOf([]), stream, itemId) {
    }
  }

  lemma {:induction false} LifeKeeps(lives: seq<Life>, steps: seq<LifeStep>, n: nat)
    requires IsLife(lives, steps) && n <= |steps|
    ensures LifeInv(lives[n])
  {
    if n == 0 {
      UnbornKeepsLife(lives[0]);
    } else {
      LifeKeeps(lives, steps, n - 1);
      StepKeepsLife(lives[n - 1], steps[n - 1]);
    }
  }

  // ----- The theorems -----

  /** Lifecycle over a whole life: between executions, whatever other tasks do, the last status the
      client saw is input-required exactly when the broker holds the task, with the kind of the
      request that waits; any other last status means the broker has let go of runtime and client. */
  lemma {:induction false} LifeViewsAgree(lives: seq<Life>, steps: seq<LifeStep>, n: nat)
    requires IsLife(lives, steps) && n <= |steps|
    ensures var l := lives[n];
            && (l.id in l.broker.tasks <==> StoredState(l.events) == Some(InputRequired))
            && (l.id in l.broker.tasks ==>
                  && Held(l.broker, l.id, l.contextId)
                  && LastStatus(l.events) == Some(Status(InputRequired, KindOf(l.broker.tasks[l.id]))))
            && (l.id !in l.broker.tasks ==> Gone(l.broker, l.id, l.contextId))
  {
    LifeKeeps(lives, steps, n);
  }

  /** Wire discipline over a whole life: a turn is started only when none is active and nothing is
      pending, server requests and responses alternate, and each response carries the ID of the
      request that waits and goes out before Codex is read again. */
  lemma {:induction false} LifeIsDisciplined(lives: seq<Life>, steps: seq<LifeStep>, n: nat)
    requires IsLife(lives, steps) && n <= |steps|
    ensures Track(New, lives[n].wire).Some?
    ensures var l := lives[n];
            l.id in l.broker.tasks ==>
              && SessionOf(l.broker, l.id).Some?
              && Track(New, l.wire) == Some(ModeOf(l.broker.tasks[l.id], SessionOf(l.broker, l.id).value.threadId))
  {
    LifeKeeps(lives, steps, n);
  }

  /** Messages are conserved: across all executions, what was read from Codex is a prefix of what
      arrived, in order, and the rest still waits; no message is skipped, repeated or read twice. */
  lemma {:induction false} LifeConservesMessages(lives: seq<Life>, steps: seq<LifeStep>, n: nat)
    requires IsLife(lives, steps) && n <= |steps|
    ensures Read(lives[n].wire) + MessagesOf(lives[n].inbox) == MessagesOf(lives[n].arrived)
    ensures Read(lives[n].wire) == MessagesOf(lives[n].consumed) && lives[n].consumed <= lives[n].arrived
  {
    LifeKeeps(lives, steps, n);
    MessagesOfSum(lives[n].consumed, lives[n].inbox);
  }

  /** The user replies, and the reply does not answer the request that waits. */
  ghost predicate Malformed(l: Life, step: LifeStep) {
    && step.Run? && l.id in l.broker.tasks && l.broker.tasks[l.id].pending.Some?
    && forall answer :: !Gives(step.message, l.broker.tasks[l.id].pending.value.kind, answer)
  }

  /** Nothing but the events the client sees is different. */
  ghost predicate Unmoved(l: Life, l': Life) {
    l' == l.(events := l'.events)
  }

  lemma {:induction false} MalformedStep(l: Life, step: LifeStep)
    requires ViewsAgree(l) && Possible(l, step) && Malformed(l, step)
    ensures Unmoved(l, Live(l, step))
    ensures LastStatus(Live(l, step).events) == LastStatus(l.events)
  {
    var req := RequestOf(l, step.message, step.references);
    var kind := l.broker.tasks[l.id].pending.value.kind;
    if ResponseForPending(step.message, kind).Some? {
      AnswerIsGiven(step.message, kind, ResponseForPending(step.message, kind).value);
    }
    MalformedReplyStutters(l.broker, req, l.inbox, step.world);
    LastStatusOfSum(l.events, ExecuteStream(l.broker, req, l.inbox, step.world).events);
  }

  lemma {:induction false} MalformedStutters(lives: seq<Life>, steps: seq<LifeStep>, n: nat)
    requires IsLife(lives, steps) && n < |steps| && Malformed(lives[n], steps[n])
    ensures Unmoved(lives[n], lives[n + 1]) && LastStatus(lives[n + 1].events) == LastStatus(lives[n].events)
  {
    ViewsStayAgreed(lives, steps, n);
    MalformedStep(lives[n], steps[n]);
  }

  /** Any number of malformed replies leaves the broker with the runtime, the messages that wait and
      what Codex was sent as they were, and shows the same input-required status again. */
  lemma {:induction false} MalformedRepliesStutter(lives: seq<Life>, steps: seq<LifeStep>, from: nat, n: nat)
    requires IsLife(lives, steps) && from <= n <= |steps|
    requires forall i :: from <= i < n ==> Malformed(lives[i], steps[i])
    ensures Unmoved(lives[from], lives[n])
    ensures LastStatus(lives[n].events) == LastStatus(lives[from].events)
  {
    forall i | from <= i < n ensures Stutters(lives[i], lives[i + 1]) {
      MalformedStutters(lives, steps, i);
    }
    StuttersThroughout(lives, from, n);
  }

  ghost predicate Stutters(l: Life, l': Life) {
    Unmoved(l, l') && LastStatus(l'.events) == LastStatus(l.events)
  }

  lemma {:induction false} StuttersThroughout(lives: seq<Life>, from: nat, n: nat)
    requires from <= n < |lives| && forall i :: from <= i < n ==> Stutters(lives[i], lives[i + 1])
    ensures Stutters(lives[from], lives[n])
  {
    if from < n {
      StuttersThroughout(lives, from, n - 1);
      assert Stutters(lives[n - 1], lives[n - 1 + 1]);
    }
  }

  lemma ViewsStayAgreed(lives: seq<Life>, steps: seq<LifeStep>, n: nat)
    requires IsLife(lives, steps) && n <= |steps|
    ensures ViewsAgree(lives[n])
  {
    LifeKeeps(lives, steps, n);
  }

  /** The streamed view over a whole life, over any interleaving of items, pauses, turns and
      completions: folding the emitted events shows, for an assistant message, the concatenation of
      all its deltas, or the text of the completion that closed it; for a command or file change, what
      its last start or completion made visible and every delta since. A held runtime has accumulated
      all the deltas. */
  lemma {:induction false} LifeShowsText(lives: seq<Life>, steps: seq<LifeStep>, n: nat, stream: Stream, itemId: string)
    requires IsLife(lives, steps) && n <= |steps|
    ensures var l := lives[n];
            var messages := MessagesOf(l.consumed);
            var visible := Visible(ApplyAll(map[], l.events), ArtifactId(Prefix(stream), itemId));
            && visible ==
                 (if !stream.Assistant? then LastMark(stream, messages, itemId).shown + Since(stream, messages, itemId)
                  else if ClosedWith(messages, itemId).Some? then ClosedWith(messages, itemId).value
                  else Text(stream, messages, itemId))
            && (!stream.Assistant? ==>
                  Text(stream, messages, itemId) ==
                  LastMark(stream, messages, itemId).covered + Since(stream, messages, itemId))
            && (l.id in l.broker.tasks ==>
                  TextOf(Accumulated(stream, l.broker.tasks[l.id]), itemId) == Text(stream, messages, itemId))
  {
    LifeKeeps(lives, steps, n);
    var l := lives[n];
    var messages := MessagesOf(l.consumed);
    assert Seen(ApplyAll(map[], l.events), l.broker, l.id, messages, stream, itemId);
    if stream.Assistant? {
      AssistantShowsDeltas(messages, itemId);
    } else {
      MarkThenDeltas(stream, messages, itemId);
    }
  }

  /** What a client sees of an item when an execution has come to message `k`. */
  ghost function VisibleAt(l: Life, step: LifeStep, k: nat, stream: Stream, itemId: string): string
    requires step.Run? && Possible(l, step) && k <= |l.inbox|
  {
    var x := ExecuteStream(l.broker, RequestOf(l, step.message, step.references), l.inbox[..k], step.world);
    Visible(ApplyAll(map[], l.events + x.events), ArtifactId(Prefix(stream), itemId))
  }

  ghost function UsedBy(l: Life, step: LifeStep): nat
    requires step.Run? && Possible(l, step)
  {
    ExecuteStream(l.broker, RequestOf(l, step.message, step.references), l.inbox, step.world).used
  }

  lemma {:induction false} VisibleIsView(lives: seq<Life>, steps: seq<LifeStep>, n: nat, k: nat, stream: Stream,
                                         itemId: string)
    requires IsLife(lives, steps) && n < |steps| && steps[n].Run? && k <= UsedBy(lives[n], steps[n])
    ensures VisibleAt(lives[n], steps[n], k, stream, itemId) ==
            View(stream, MessagesOf(lives[n].consumed + lives[n].inbox[..k]), itemId)
  {
    var l, step := lives[n], steps[n];
    var cut := l.(inbox := l.inbox[..k]);
    LifeKeeps(lives, steps, n);
    assert Seen(ApplyAll(map[], l.events), l.broker, l.id, MessagesOf(l.consumed), stream, itemId);
    UsedOfPrefix(l.broker, RequestOf(l, step.message, step.references), l.inbox, step.world, k);
    RunKeepsOneSeen(cut, step.message, step.references, step.world, stream, itemId);
    assert l.inbox[..k][..k] == l.inbox[..k];
  }

  /** At any message of any execution in a life: when a completion without output of its own comes,
      what the client sees of the command or file change stays as it is exactly when the item's last
      start or completion made visible what it stood for. */
  lemma {:induction false} LifeCompletionKeepsText(
    lives: seq<Life>, steps: seq<LifeStep>, n: nat, k: nat, stream: Stream, itemId: string)
    requires IsLife(lives, steps) && n < |steps| && steps[n].Run? && k < UsedBy(lives[n], steps[n])
    requires k < |lives[n].inbox| && !stream.Assistant? && CompletesPlainly(stream, lives[n].inbox[k].message, itemId)
    ensures var mark := LastMark(stream, MessagesOf(lives[n].consumed + lives[n].inbox[..k]), itemId);
            VisibleAt(lives[n], steps[n], k + 1, stream, itemId)
                == VisibleAt(lives[n], steps[n], k, stream, itemId) <==>
            mark.shown == mark.covered
  {
    var l := lives[n];
    var before, completion := l.consumed + l.inbox[..k], l.inbox[k];
    VisibleIsView(lives, steps, n, k, stream, itemId);
    VisibleIsView(lives, steps, n, k + 1, stream, itemId);
    OneMoreArrival(l.consumed, l.inbox, k);
    CompletionKeepsText(stream, MessagesOf(before), completion.message, itemId);
  }

  lemma OneMoreArrival(consumed: seq<Arrival>, inbox: seq<Arrival>, k: nat)
    requires k < |inbox|
    ensures MessagesOf(consumed + inbox[..k + 1]) == MessagesOf(consumed + inbox[..k]) + [inbox[k].message]
  {
    var before := consumed + inbox[..k];
    assert consumed + inbox[..k + 1] == before + [inbox[k]];
    MessagesOfSum(before, [inbox[k]]);
  }
}
