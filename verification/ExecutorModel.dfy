/** What one execution of the executor does, as functions over the broker, the Codex messages that
    arrive and the events that leave. */
module ExecutorModel {
  import opened Wrappers
  import opened A2A
  import opened BrokerModel

  // ----- Codex messages -----

  datatype ItemKind = AgentMessage | CommandExecution | FileChange | McpToolCall | Reasoning | WebSearch | OtherItem

  datatype Item = Item(kind: ItemKind, id: string, text: string, aggregatedOutput: Option<string>, details: string)

  datatype TurnEnd = TurnDone | TurnInterrupted | TurnFailed | TurnUnknown

  datatype RequestKind = CommandApprovalRequest | FileApprovalRequest | ElicitationRequest | UnsupportedRequest

  /** A message from Codex with its parameters decoded; `Undecodable` is a notification whose
      parameters do not decode. */
  datatype Message =
    | ServerRequest(id: string, asks: RequestKind, decodes: bool, raw: string)
    | TurnStarted
    | TurnEnded(end: TurnEnd)
    | DiffUpdated(diff: string)
    | PlanUpdated(plan: string)
    | AgentDelta(itemId: string, delta: string)
    | CommandDelta(itemId: string, delta: string)
    | FileChangeDelta(itemId: string, delta: string)
    | ItemStarted(item: Item)
    | ItemCompleted(item: Item)
    | RequestResolved
    | OtherNotification
    | Undecodable

  /** A message as it is handled, and whether `Cancel` has stored its flag by then. */
  datatype Arrival = Arrival(message: Message, canceled: bool)

  // ----- A2A events -----

  datatype Payload =
    | PendingInput(kind: PendingKind, raw: string, note: string)
    | CommandState(details: string)
    | CommandResult(details: string, aggregatedOutput: string)
    | FileChanges(details: string)
    | Plan(plan: string)
    | WholeItem(item: Item)

  datatype Part = TextPart(text: string) | DataPart(data: Payload)

  datatype Event =
    | Status(state: TaskState, pendingKind: Option<PendingKind>)
    | Artifact(id: string, append: bool, parts: seq<Part>)

  function ArtifactId(prefix: string, itemId: string): string {
    prefix + ":" + itemId
  }

  function ReplaceArtifact(id: string, parts: seq<Part>): Event {
    Artifact(id, false, parts)
  }

  function AppendArtifact(id: string, parts: seq<Part>): Event {
    Artifact(id, true, parts)
  }

  const PENDING_ARTIFACT := "pending:user-input"
  const DIFF_ARTIFACT := "turn:diff"
  const PLAN_ARTIFACT := "turn:plan"

  function PendingArtifact(pending: Pending, note: string): Event {
    ReplaceArtifact(PENDING_ARTIFACT, [DataPart(PendingInput(pending.kind, pending.raw, note))])
  }

  function InputRequiredStatus(pending: Pending): Event {
    Status(InputRequired, Some(pending.kind))
  }

  /** The text accumulated for an item so far. */
  function TextOf(texts: map<string, string>, itemId: string): string {
    if itemId in texts then texts[itemId] else ""
  }

  function FirstNonEmpty(value: Option<string>, fallback: string): string {
    if value.Some? && value.value != "" then value.value else fallback
  }

  function StartArtifactEvents(item: Item): seq<Event> {
    match item.kind
    case CommandExecution =>
      [ReplaceArtifact(ArtifactId("command", item.id), [DataPart(CommandState(item.details))])]
    case FileChange =>
      [ReplaceArtifact(ArtifactId("file-change", item.id), [DataPart(FileChanges(item.details))])]
    case _ => []
  }

  function CompletedArtifactEvents(runtime: Runtime, item: Item): seq<Event> {
    match item.kind
    case AgentMessage =>
      if item.text == "" then []
      else [ReplaceArtifact(ArtifactId("assistant", item.id), [TextPart(item.text)])]
    case CommandExecution =>
      var out := FirstNonEmpty(item.aggregatedOutput, TextOf(runtime.commandOutputs, item.id));
      [ReplaceArtifact(ArtifactId("command", item.id),
                       [DataPart(CommandResult(item.details, out))] + if out != "" then [TextPart(out)] else [])]
    case FileChange =>
      var diff := TextOf(runtime.fileChangeDiffs, item.id);
      [ReplaceArtifact(ArtifactId("file-change", item.id),
                       [DataPart(FileChanges(item.details))] + if diff != "" then [TextPart(diff)] else [])]
    case McpToolCall => [ReplaceArtifact(ArtifactId("mcpToolCall", item.id), [DataPart(WholeItem(item))])]
    case Reasoning => [ReplaceArtifact(ArtifactId("reasoning", item.id), [DataPart(WholeItem(item))])]
    case WebSearch => [ReplaceArtifact(ArtifactId("webSearch", item.id), [DataPart(WholeItem(item))])]
    case OtherItem => []
  }

  // ----- Handling one message -----

  /** The pending request a server request becomes; none when it is unsupported or undecodable. */
  function HandleServerRequest(message: Message): Option<Pending>
    requires message.ServerRequest?
  {
    if !message.decodes then None
    else match message.asks
      case CommandApprovalRequest => Some(Pending(message.id, CommandApproval, message.raw))
      case FileApprovalRequest => Some(Pending(message.id, FileApproval, message.raw))
      case ElicitationRequest => Some(Pending(message.id, Elicitation, message.raw))
      case UnsupportedRequest => None
  }

  datatype Outcome = Continue | Pause | Finish

  datatype Handled = Handled(runtime: Runtime, events: seq<Event>, outcome: Outcome)

  function Appended(texts: map<string, string>, itemId: string, delta: string): map<string, string> {
    texts[itemId := TextOf(texts, itemId) + delta]
  }

  /** `handleNotification`; none when the parameters do not decode. */
  function HandleNotification(runtime: Runtime, message: Message): Option<Handled>
    requires !message.ServerRequest?
  {
    match message
    case TurnEnded(end) =>
      (match end
       case TurnDone =>
         Some(Handled(runtime.(pending := None, turnActive := false), [Status(InputRequired, None)], Pause))
       case TurnInterrupted =>
         Some(Handled(runtime, if runtime.cancelRequested then [] else [Status(Canceled, None)], Finish))
       case TurnFailed => Some(Handled(runtime, [Status(Failed, None)], Finish))
       case TurnUnknown => Some(Handled(runtime, [Status(Failed, None)], Finish)))
    case DiffUpdated(diff) => Some(Handled(runtime, [ReplaceArtifact(DIFF_ARTIFACT, [TextPart(diff)])], Continue))
    case PlanUpdated(plan) =>
      Some(Handled(runtime, [ReplaceArtifact(PLAN_ARTIFACT, [DataPart(Plan(plan))])], Continue))
    case AgentDelta(itemId, delta) =>
      var texts := Appended(runtime.assistantTexts, itemId, delta);
      Some(Handled(runtime.(assistantTexts := texts),
                   [ReplaceArtifact(ArtifactId("assistant", itemId), [TextPart(texts[itemId])])], Continue))
    case CommandDelta(itemId, delta) =>
      Some(Handled(runtime.(commandOutputs := Appended(runtime.commandOutputs, itemId, delta)),
                   [AppendArtifact(ArtifactId("command", itemId), [TextPart(delta)])], Continue))
    case FileChangeDelta(itemId, delta) =>
      Some(Handled(runtime.(fileChangeDiffs := Appended(runtime.fileChangeDiffs, itemId, delta)),
                   [AppendArtifact(ArtifactId("file-change", itemId), [TextPart(delta)])], Continue))
    case ItemStarted(item) => Some(Handled(runtime, StartArtifactEvents(item), Continue))
    case ItemCompleted(item) => Some(Handled(runtime, CompletedArtifactEvents(runtime, item), Continue))
    case Undecodable => None
    case _ => Some(Handled(runtime, [], Continue))
  }

  // ----- Consuming a turn -----

  /** How the consuming loop ends: at a pause, at the end of the task, or on an error. */
  datatype Ending = Paused | Ended | Broken

  datatype Consumed = Consumed(runtime: Runtime, events: seq<Event>, used: nat, ending: Ending)

  function Noticed(runtime: Runtime, arrival: Arrival): Runtime {
    runtime.(cancelRequested := runtime.cancelRequested || arrival.canceled)
  }

  /** `consumeTurn` on the messages that arrive; the client fails when they run out. */
  function Consume(runtime: Runtime, inbox: seq<Arrival>): (c: Consumed)
    ensures c.used <= |inbox|
    decreases |inbox|
  {
    if inbox == [] then Consumed(runtime, [], 0, Broken)
    else
      var now, message := Noticed(runtime, inbox[0]), inbox[0].message;
      if message.ServerRequest? then
        match HandleServerRequest(message)
        case None => Consumed(now, [], 1, Broken)
        case Some(pending) =>
          Consumed(now.(pending := Some(pending)), [PendingArtifact(pending, ""), InputRequiredStatus(pending)], 1,
                   Paused)
      else
        match HandleNotification(now, message)
        case None => Consumed(now, [], 1, Broken)
        case Some(handled) =>
          match handled.outcome
          case Pause => Consumed(handled.runtime, handled.events, 1, Paused)
          case Finish => Consumed(handled.runtime, handled.events, 1, Ended)
          case Continue =>
            var rest := Consume(handled.runtime, inbox[1..]);
            rest.(events := handled.events + rest.events, used := 1 + rest.used)
  }

  // ----- Answering a pending request -----

  /** A user message: its first structured data part, the text of its parts, and the Codex prompt
      made of it, if it makes one. */
  datatype UserMessage = UserMessage(data: Option<map<string, string>>, text: string, prompt: Option<string>)

  datatype Answer = Decision(decision: string) | Action(action: string, content: Option<string>)

  /** The lower case of a letter, where it is ASCII: besides `A` to `Z` only the dotted capital I and the
      Kelvin sign have one. */
  function Lower(c: char): char {
    if 'A' <= c <= 'Z' then c - 'A' + 'a' else if c == '\U{130}' then 'i' else if c == '\U{212A}' then 'k' else c
  }

  function ToLower(s: string): string {
    seq(|s|, i requires 0 <= i < |s| => Lower(s[i]))
  }

  /** White space as Unicode defines it. */
  predicate IsSpace(c: char) {
    || c == ' ' || '\t' <= c <= '\r' || c == '\U{85}' || c == '\U{A0}' || c == '\U{1680}'
    || '\U{2000}' <= c <= '\U{200A}' || c == '\U{2028}' || c == '\U{2029}' || c == '\U{202F}' || c == '\U{205F}'
    || c == '\U{3000}'
  }

  function TrimLeft(s: string): string {
    if s != "" && IsSpace(s[0]) then TrimLeft(s[1..]) else s
  }

  function TrimRight(s: string): string {
    if s != "" && IsSpace(s[|s| - 1]) then TrimRight(s[..|s| - 1]) else s
  }

  function TrimSpace(s: string): string {
    TrimRight(TrimLeft(s))
  }

  /** `responseForPending`; none for a reply that does not answer the request. */
  function ResponseForPending(message: UserMessage, kind: PendingKind): Option<Answer> {
    if message.data.Some? then
      var payload := message.data.value;
      if kind.Elicitation? then
        if "action" !in payload then None
        else Some(Action(payload["action"], if "content" in payload then Some(payload["content"]) else None))
      else if "decision" in payload then Some(Decision(payload["decision"]))
      else None
    else ResponseToText(ToLower(TrimSpace(message.text)), kind)
  }

  /** The words that answer, trimmed and in lower case. */
  function ResponseToText(reply: string, kind: PendingKind): Option<Answer> {
    if reply == "" then None
    else if kind.Elicitation? then
      if reply in {"decline", "cancel"} then Some(Action(reply, None)) else None
    else if reply in {"accept", "approve", "approved", "yes", "y"} then Some(Decision("accept"))
    else if reply in {"decline", "deny", "reject", "no", "n"} then Some(Decision("decline"))
    else if reply == "cancel" then Some(Decision("cancel"))
    else None
  }

  // ----- One execution -----

  /** A wire log of the task's Codex client: what is sent to it and what is consumed from it. */
  datatype Wire =
      /** `thread/start`, or `thread/fork` of a parent, and the thread Codex made. */
    | SentThread(parent: Option<ThreadId>, made: Option<ThreadId>)
    | SentTurnStart(threadId: ThreadId, prompt: string, accepted: bool)
    | SentResponse(id: string, answer: Answer)
    | Got(message: Message)

  /** What the outside answers during an execution: the visiting order of a resolve, the launched
      client, the thread it makes, the ID of a started turn and whether a response could be sent. */
  datatype World = World(
    order: seq<TaskId>,
    client: Option<ClientId>,
    thread: Option<ThreadId>,
    turn: Option<string>,
    responds: bool)

  /** An execution request for a task: the state the A2A library has stored for it, if any. */
  datatype Request = Request(
    id: TaskId, contextId: ContextId, stored: Option<TaskState>, message: UserMessage, references: seq<TaskId>)

  datatype Execution = Execution(
    broker: Broker, used: nat, events: seq<Event>, wire: seq<Wire>, closed: seq<ClientId>, ok: bool)

  function Fails(b: Broker, sent: seq<Wire>, closed: seq<ClientId>): Execution {
    Execution(b, 0, [], sent, closed, false)
  }

  function Handed(client: Option<ClientId>): seq<ClientId> {
    if client.Some? then [client.value] else []
  }

  function GotAll(arrivals: seq<Arrival>): seq<Wire> {
    seq(|arrivals|, i requires 0 <= i < |arrivals| => Got(arrivals[i].message))
  }

  /** The broker with this for the runtime of a task. */
  function WithTask(b: Broker, id: TaskId, runtime: Runtime): Broker {
    b.(tasks := b.tasks[id := runtime])
  }

  /** What consuming comes to for the broker: the task is finished unless the loop paused. */
  function AfterConsuming(b: Broker, id: TaskId, inbox: seq<Arrival>, c: Consumed): (x: Execution)
    requires c.used <= |inbox|
    ensures x.used == c.used
  {
    var b' := WithTask(b, id, c.runtime);
    var wire := GotAll(inbox[..c.used]);
    if c.ending.Paused? then Execution(b', c.used, c.events, wire, [], true)
    else Execution(Finished(b', id, true), c.used, c.events, wire, Handed(ClientOf(b', id)), c.ending.Ended?)
  }

  /** The consuming loop on the task's runtime. */
  function ConsumeTurn(b: Broker, id: TaskId, inbox: seq<Arrival>): (x: Execution)
    requires id in b.tasks
    ensures x.used <= |inbox|
  {
    AfterConsuming(b, id, inbox, Consume(b.tasks[id], inbox))
  }

  function Then(events: seq<Event>, wire: seq<Wire>, x: Execution): Execution {
    x.(events := events + x.events, wire := wire + x.wire)
  }

  /** The turn of a task is under way. */
  function Turning(b: Broker, id: TaskId, turn: string): Broker
    requires id in b.tasks
  {
    WithTask(b, id, b.tasks[id].(turnId := turn, turnActive := true))
  }

  /** The pending request of a task is answered. */
  function Resumed(b: Broker, id: TaskId): Broker
    requires id in b.tasks
  {
    WithTask(b, id, b.tasks[id].(pending := None))
  }

  /** An execution that fails before the loop, when this was sent. */
  function Aborted(b: Broker, id: TaskId, preserve: bool, sent: seq<Wire>): Execution {
    Execution(Finished(b, id, preserve), 0, [], sent, Handed(ClientOf(b, id)), false)
  }

  /** An execution that asks the user again. */
  function Asked(b: Broker, pending: Pending): Execution {
    Execution(b, 0, [PendingArtifact(pending, "invalid reply"), InputRequiredStatus(pending)], [], [], true)
  }

  function StartNewTurn(b: Broker, id: TaskId, prompt: string, inbox: seq<Arrival>, world: World): (x: Execution)
    requires id in b.tasks && SessionOf(b, id).Some?
    ensures x.used <= |inbox|
  {
    var sent := SentTurnStart(SessionOf(b, id).value.threadId, prompt, world.turn.Some?);
    if world.turn == None then Aborted(b, id, false, [sent])
    else Then([Status(Working, None)], [sent], ConsumeTurn(Turning(b, id, world.turn.value), id, inbox))
  }

  function ResumeInputRequired(b: Broker, id: TaskId, inbox: seq<Arrival>, message: UserMessage, world: World)
    : (x: Execution)
    requires id in b.tasks && b.tasks[id].pending.Some?
    ensures x.used <= |inbox|
  {
    var pending := b.tasks[id].pending.value;
    match ResponseForPending(message, pending.kind)
    case None => Asked(b, pending)
    case Some(answer) =>
      if !world.responds then Aborted(b, id, true, [])
      else Then([Status(Working, None)], [SentResponse(pending.id, answer)], ConsumeTurn(Resumed(b, id), id, inbox))
  }

  datatype Started = Started(broker: Broker, sent: seq<Wire>, closed: seq<ClientId>, ok: bool)

  /** The request for a new task's thread: a new one, or a fork of its base's. */
  function ThreadRequest(base: Option<Session>, made: Option<ThreadId>): Wire {
    SentThread(if base.Some? then Some(base.value.threadId) else None, made)
  }

  /** The session of a new task on the thread Codex made for it. */
  function SessionFor(req: Request, world: World, base: Option<Session>): Session
    requires world.thread.Some?
  {
    Session(req.id, req.contextId, world.thread.value, if base.Some? then base.value.taskId else NO_TASK, world.client,
            0)
  }

  /** `startTask` with nothing of other tasks in between. */
  function StartTask(b: Broker, req: Request, world: World): Started
    requires forall t :: t in world.order ==> t in ContextOf(b, req.contextId)
  {
    match Resolve(b, req.contextId, req.references, world.order)
    case Err(_) => Started(b, [], [], false)
    case Ok(base) =>
      if world.client == None then Started(b, [], [], false)
      else
        var sent := [ThreadRequest(base, world.thread)];
        if world.thread == None then Started(b, sent, [world.client.value], false)
        else Started(Registered(b, SessionFor(req, world, base)), sent, [], true)
  }

  function Execute(b: Broker, req: Request, inbox: seq<Arrival>, world: World): (x: Execution)
    requires Ready(b, req, world)
    ensures x.used <= |inbox|
  {
    match req.stored
    case None =>
      if req.message.prompt == None then Fails(b, [], [])
      else
        var started := StartTask(b, req, world);
        if !started.ok then Fails(started.broker, started.sent, started.closed)
        else Then([], started.sent, StartNewTurn(started.broker, req.id, req.message.prompt.value, inbox, world))
    case Some(state) =>
      if state != InputRequired || req.id !in b.tasks then Fails(b, [], [])
      else if b.tasks[req.id].pending.Some? then ResumeInputRequired(b, req.id, inbox, req.message, world)
      else if req.message.prompt == None then Fails(b, [], [])
      else StartNewTurn(b, req.id, req.message.prompt.value, inbox, world)
  }

  /** The status a new task begins with. */
  function Opening(req: Request): seq<Event> {
    if req.stored == None then [Status(Submitted, None)] else []
  }

  /** What `executeStream` adds to an execution: after an error the task is finished and failed. */
  function Reported(req: Request, x: Execution): (r: Execution)
    ensures r.used == x.used
  {
    if x.ok then x.(events := Opening(req) + x.events)
    else x.(broker := Finished(x.broker, req.id, true),
            events := Opening(req) + x.events + [Status(Failed, None)],
            closed := x.closed + Handed(ClientOf(x.broker, req.id)))
  }

  /** `executeStream` on a sink that accepts every event. */
  function ExecuteStream(b: Broker, req: Request, inbox: seq<Arrival>, world: World): (x: Execution)
    requires Ready(b, req, world)
    ensures x.used <= |inbox|
  {
    Reported(req, Execute(b, req, inbox, world))
  }

  /** A task that is active has its session, and the visit is of the task's context. */
  ghost predicate Ready(b: Broker, req: Request, world: World) {
    && (req.id in b.tasks ==> SessionOf(b, req.id).Some? && b.tasks[req.id].taskId == req.id)
    && Visits(ContextOf(b, req.contextId), world.order)
  }
}
