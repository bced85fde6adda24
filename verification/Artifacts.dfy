/** What a client sees of a task's artifacts, against what the runtime has accumulated. */
module Artifacts {
  import opened Wrappers
  import opened BrokerModel
  import opened ExecutorModel

  // ----- What a client sees -----

  /** The artifacts a client holds, by ID. */
  type Shown = map<string, seq<Part>>

  /** Applying one event (section 7.2.3 of the A2A 0.3.0 specification): an artifact update replaces
      the artifact or appends to it. */
  function ApplyEvent(shown: Shown, e: Event): Shown {
    match e
    case Status(_, _) => shown
    case Artifact(id, append, parts) =>
      shown[id := (if append && id in shown then shown[id] else []) + parts]
  }

  function ApplyAll(shown: Shown, events: seq<Event>): Shown
    decreases |events|
  {
    if events == [] then shown else ApplyAll(ApplyEvent(shown, events[0]), events[1..])
  }

  lemma {:induction false} ApplyAllOfSum(shown: Shown, a: seq<Event>, b: seq<Event>)
    ensures ApplyAll(shown, a + b) == ApplyAll(ApplyAll(shown, a), b)
    decreases |a|
  {
    if a == [] {
      assert a + b == b;
    } else {
      assert (a + b)[1..] == a[1..] + b;
      ApplyAllOfSum(ApplyEvent(shown, a[0]), a[1..], b);
    }
  }

  function PartsText(parts: seq<Part>): string {
    if parts == [] then ""
    else (if parts[0].TextPart? then parts[0].text else "") + PartsText(parts[1..])
  }

  lemma {:induction false} PartsTextOfSum(a: seq<Part>, b: seq<Part>)
    ensures PartsText(a + b) == PartsText(a) + PartsText(b)
  {
    if a == [] {
      assert a + b == b;
    } else {
      assert (a + b)[1..] == a[1..] + b;
      PartsTextOfSum(a[1..], b);
    }
  }

  /** The visible text of an artifact. */
  function Visible(shown: Shown, id: string): string {
    if id in shown then PartsText(shown[id]) else ""
  }

  // ----- The three text streams of a task -----

  datatype Stream = Assistant | Command | FileDiff

  function Prefix(stream: Stream): string {
    match stream
    case Assistant => "assistant"
    case Command => "command"
    case FileDiff => "file-change"
  }

  function KindOfStream(stream: Stream): ItemKind {
    match stream
    case Assistant => AgentMessage
    case Command => CommandExecution
    case FileDiff => FileChange
  }

  /** The delta a message carries for one item of a stream. */
  function DeltaOf(stream: Stream, message: Message, itemId: string): string {
    match stream
    case Assistant => if message.AgentDelta? && message.itemId == itemId then message.delta else ""
    case Command => if message.CommandDelta? && message.itemId == itemId then message.delta else ""
    case FileDiff => if message.FileChangeDelta? && message.itemId == itemId then message.delta else ""
  }

  predicate IsDelta(stream: Stream, message: Message, itemId: string) {
    match stream
    case Assistant => message.AgentDelta? && message.itemId == itemId
    case Command => message.CommandDelta? && message.itemId == itemId
    case FileDiff => message.FileChangeDelta? && message.itemId == itemId
  }

  predicate Starts(stream: Stream, message: Message, itemId: string) {
    message.ItemStarted? && message.item.id == itemId && message.item.kind == KindOfStream(stream)
  }

  predicate Completes(stream: Stream, message: Message, itemId: string) {
    message.ItemCompleted? && message.item.id == itemId && message.item.kind == KindOfStream(stream)
  }

  /** All deltas of an item, concatenated. */
  function Text(stream: Stream, messages: seq<Message>, itemId: string): string {
    if messages == [] then ""
    else Text(stream, messages[..|messages| - 1], itemId) + DeltaOf(stream, messages[|messages| - 1], itemId)
  }

  /** What the protocol's events make of the visible text, one message at a time: an assistant delta
      shows all of the text, other deltas append to what is there, a start clears it, and a
      completion shows its own text, or else all of it. */
  function ViewStep(stream: Stream, view: string, text: string, message: Message, itemId: string): string {
    if IsDelta(stream, message, itemId) then
      if stream.Assistant? then text else view + DeltaOf(stream, message, itemId)
    else if Starts(stream, message, itemId) && !stream.Assistant? then ""
    else if Completes(stream, message, itemId) then
      match stream
      case Assistant => if message.item.text == "" then view else message.item.text
      case Command => FirstNonEmpty(message.item.aggregatedOutput, text)
      case FileDiff => text
    else view
  }

  function View(stream: Stream, messages: seq<Message>, itemId: string): string {
    if messages == [] then ""
    else
      var n := |messages| - 1;
      ViewStep(stream, View(stream, messages[..n], itemId), Text(stream, messages, itemId), messages[n], itemId)
  }

  // ----- Artifact IDs keep the streams apart -----

  const SEPARATOR := ':'

  lemma {:induction false} ArtifactIdsApart(p: string, x: string, q: string, y: string)
    requires SEPARATOR !in p && SEPARATOR !in q
    ensures ArtifactId(p, x) == ArtifactId(q, y) <==> p == q && x == y
  {
    var a, b := ArtifactId(p, x), ArtifactId(q, y);
    assert a[0] == (if p == "" then SEPARATOR else p[0]) && b[0] == (if q == "" then SEPARATOR else q[0]);
    if p == "" && q == "" {
      assert x == a[1..] && y == b[1..];
    } else if p != "" && q != "" {
      assert a[1..] == ArtifactId(p[1..], x) && b[1..] == ArtifactId(q[1..], y);
      ArtifactIdsApart(p[1..], x, q[1..], y);
      assert p == [p[0]] + p[1..] && q == [q[0]] + q[1..];
      assert a == [a[0]] + a[1..] && b == [b[0]] + b[1..];
    }
  }

  /** An event that leaves an item's artifact alone. */
  ghost predicate Spares(e: Event, stream: Stream, itemId: string) {
    e.Artifact? ==> e.id != ArtifactId(Prefix(stream), itemId)
  }

  lemma OtherArtifactsSpare(stream: Stream, itemId: string, prefix: string, y: string)
    requires prefix in {"assistant", "command", "file-change", "mcpToolCall", "reasoning", "webSearch", "pending",
                        "turn"}
    ensures ArtifactId(prefix, y) == ArtifactId(Prefix(stream), itemId) <==> prefix == Prefix(stream) && y == itemId
  {
    ArtifactIdsApart(prefix, y, Prefix(stream), itemId);
  }

  lemma FixedArtifactsSpare(stream: Stream, itemId: string)
    ensures PENDING_ARTIFACT != ArtifactId(Prefix(stream), itemId)
    ensures DIFF_ARTIFACT != ArtifactId(Prefix(stream), itemId)
    ensures PLAN_ARTIFACT != ArtifactId(Prefix(stream), itemId)
  {
    OtherArtifactsSpare(stream, itemId, "pending", "user-input");
    OtherArtifactsSpare(stream, itemId, "turn", "diff");
    OtherArtifactsSpare(stream, itemId, "turn", "plan");
    assert PENDING_ARTIFACT == ArtifactId("pending", "user-input");
    assert DIFF_ARTIFACT == ArtifactId("turn", "diff");
    assert PLAN_ARTIFACT == ArtifactId("turn", "plan");
  }

  lemma {:induction false} SparedStays(shown: Shown, events: seq<Event>, stream: Stream, itemId: string)
    requires forall e :: e in events ==> Spares(e, stream, itemId)
    ensures Visible(ApplyAll(shown, events), ArtifactId(Prefix(stream), itemId)) ==
            Visible(shown, ArtifactId(Prefix(stream), itemId))
    decreases |events|
  {
    if events != [] {
      assert Spares(events[0], stream, itemId);
      SparedStays(ApplyEvent(shown, events[0]), events[1..], stream, itemId);
    }
  }

  // ----- One message -----

  function Accumulated(stream: Stream, runtime: Runtime): map<string, string> {
    match stream
    case Assistant => runtime.assistantTexts
    case Command => runtime.commandOutputs
    case FileDiff => runtime.fileChangeDiffs
  }

  /** The runtime has accumulated the deltas, and the client sees what the messages make visible. */
  ghost predicate InStep(shown: Shown, runtime: Runtime, messages: seq<Message>, stream: Stream, itemId: string) {
    && TextOf(Accumulated(stream, runtime), itemId) == Text(stream, messages, itemId)
    && Visible(shown, ArtifactId(Prefix(stream), itemId)) == View(stream, messages, itemId)
  }

  lemma {:induction false} ShowOne(shown: Shown, id: string, append: bool, parts: seq<Part>)
    ensures Visible(ApplyAll(shown, [Artifact(id, append, parts)]), id) ==
            (if append then Visible(shown, id) else "") + PartsText(parts)
  {
    assert [Artifact(id, append, parts)][1..] == [];
    PartsTextOfSum(if append && id in shown then shown[id] else [], parts);
  }

  lemma {:induction false} TextParts(data: Payload, text: string)
    ensures PartsText([TextPart(text)]) == text
    ensures PartsText([DataPart(data)]) == ""
    ensures PartsText([DataPart(data)] + if text != "" then [TextPart(text)] else []) == text
  {
    assert [TextPart(text)][1..] == [] && [DataPart(data)][1..] == [];
    assert text != "" ==> ([DataPart(data)] + [TextPart(text)])[1..] == [TextPart(text)];
  }

  lemma {:induction false} LastMessage(stream: Stream, messages: seq<Message>, message: Message, itemId: string)
    ensures Text(stream, messages + [message], itemId) ==
            Text(stream, messages, itemId) + DeltaOf(stream, message, itemId)
    ensures View(stream, messages + [message], itemId) ==
            ViewStep(stream, View(stream, messages, itemId), Text(stream, messages + [message], itemId), message,
                     itemId)
  {
    assert (messages + [message])[..|messages|] == messages;
  }

  /** A message that is about something else. */
  predicate Concerns(stream: Stream, message: Message, itemId: string) {
    || IsDelta(stream, message, itemId)
    || (Starts(stream, message, itemId) && !stream.Assistant?)
    || (Completes(stream, message, itemId) && (stream.Assistant? ==> message.item.text != ""))
  }

  lemma OtherStartSpares(item: Item, stream: Stream, itemId: string)
    requires !Concerns(stream, ItemStarted(item), itemId)
    ensures forall e :: e in StartArtifactEvents(item) ==> Spares(e, stream, itemId)
  {
    OtherArtifactsSpare(stream, itemId, "command", item.id);
    OtherArtifactsSpare(stream, itemId, "file-change", item.id);
  }

  lemma OtherCompletionSpares(runtime: Runtime, item: Item, stream: Stream, itemId: string)
    requires !Concerns(stream, ItemCompleted(item), itemId)
    ensures forall e :: e in CompletedArtifactEvents(runtime, item) ==> Spares(e, stream, itemId)
  {
    match item.kind
    case AgentMessage => OtherArtifactsSpare(stream, itemId, "assistant", item.id);
    case CommandExecution => OtherArtifactsSpare(stream, itemId, "command", item.id);
    case FileChange => OtherArtifactsSpare(stream, itemId, "file-change", item.id);
    case McpToolCall => OtherArtifactsSpare(stream, itemId, "mcpToolCall", item.id);
    case Reasoning => OtherArtifactsSpare(stream, itemId, "reasoning", item.id);
    case WebSearch => OtherArtifactsSpare(stream, itemId, "webSearch", item.id);
    case OtherItem =>
  }

  lemma OtherMessagesSpare(runtime: Runtime, message: Message, stream: Stream, itemId: string)
    requires !message.ServerRequest? && !Concerns(stream, message, itemId)
    ensures var h := HandleNotification(runtime, message);
            h.Some? ==>
              && (forall e :: e in h.value.events ==> Spares(e, stream, itemId))
              && TextOf(Accumulated(stream, h.value.runtime), itemId) == TextOf(Accumulated(stream, runtime), itemId)
  {
    match message
    case AgentDelta(y, _) => OtherArtifactsSpare(stream, itemId, "assistant", y);
    case CommandDelta(y, _) => OtherArtifactsSpare(stream, itemId, "command", y);
    case FileChangeDelta(y, _) => OtherArtifactsSpare(stream, itemId, "file-change", y);
    case ItemStarted(item) => OtherStartSpares(item, stream, itemId);
    case ItemCompleted(item) => OtherCompletionSpares(runtime, item, stream, itemId);
    case _ => FixedArtifactsSpare(stream, itemId);
  }

  lemma {:induction false} OtherMessagesInStep(
    shown: Shown, runtime: Runtime, messages: seq<Message>, message: Message, stream: Stream, itemId: string)
    requires !message.ServerRequest? && !Concerns(stream, message, itemId)
    requires InStep(shown, runtime, messages, stream, itemId)
    requires HandleNotification(runtime, message).Some?
    ensures var h := HandleNotification(runtime, message).value;
            InStep(ApplyAll(shown, h.events), h.runtime, messages + [message], stream, itemId)
  {
    var h := HandleNotification(runtime, message).value;
    OtherMessagesSpare(runtime, message, stream, itemId);
    SparedStays(shown, h.events, stream, itemId);
    LastMessage(stream, messages, message, itemId);
  }

  lemma {:induction false} OwnDeltaInStep(
    shown: Shown, runtime: Runtime, messages: seq<Message>, message: Message, stream: Stream, itemId: string)
    requires IsDelta(stream, message, itemId) && InStep(shown, runtime, messages, stream, itemId)
    ensures HandleNotification(runtime, message).Some?
    ensures var h := HandleNotification(runtime, message).value;
            InStep(ApplyAll(shown, h.events), h.runtime, messages + [message], stream, itemId)
  {
    var h := HandleNotification(runtime, message).value;
    var artifact := h.events[0];
    LastMessage(stream, messages, message, itemId);
    ShowOne(shown, ArtifactId(Prefix(stream), itemId), artifact.append, artifact.parts);
    TextParts(CommandState(""), artifact.parts[0].text);
  }

  lemma {:induction false} OwnStartInStep(
    shown: Shown, runtime: Runtime, messages: seq<Message>, message: Message, stream: Stream, itemId: string)
    requires Starts(stream, message, itemId) && !stream.Assistant? && InStep(shown, runtime, messages, stream, itemId)
    ensures HandleNotification(runtime, message).Some?
    ensures var h := HandleNotification(runtime, message).value;
            InStep(ApplyAll(shown, h.events), h.runtime, messages + [message], stream, itemId)
  {
    var h := HandleNotification(runtime, message).value;
    var artifact := h.events[0];
    LastMessage(stream, messages, message, itemId);
    ShowOne(shown, ArtifactId(Prefix(stream), itemId), false, artifact.parts);
    TextParts(artifact.parts[0].data, "");
  }

  lemma {:induction false} OwnCompletionInStep(
    shown: Shown, runtime: Runtime, messages: seq<Message>, message: Message, stream: Stream, itemId: string)
    requires Completes(stream, message, itemId) && Concerns(stream, message, itemId)
    requires InStep(shown, runtime, messages, stream, itemId)
    ensures HandleNotification(runtime, message).Some?
    ensures var h := HandleNotification(runtime, message).value;
            InStep(ApplyAll(shown, h.events), h.runtime, messages + [message], stream, itemId)
  {
    var h := HandleNotification(runtime, message).value;
    var artifact := h.events[0];
    LastMessage(stream, messages, message, itemId);
    ShowOne(shown, ArtifactId(Prefix(stream), itemId), false, artifact.parts);
    var view := View(stream, messages + [message], itemId);
    TextParts(if artifact.parts[0].DataPart? then artifact.parts[0].data else CommandState(""), view);
  }

  lemma {:induction false} MessageInStep(
    shown: Shown, runtime: Runtime, messages: seq<Message>, message: Message, stream: Stream, itemId: string)
    requires !message.ServerRequest? && InStep(shown, runtime, messages, stream, itemId)
    requires HandleNotification(runtime, message).Some?
    ensures var h := HandleNotification(runtime, message).value;
            InStep(ApplyAll(shown, h.events), h.runtime, messages + [message], stream, itemId)
  {
    if !Concerns(stream, message, itemId) {
      OtherMessagesInStep(shown, runtime, messages, message, stream, itemId);
    } else if IsDelta(stream, message, itemId) {
      OwnDeltaInStep(shown, runtime, messages, message, stream, itemId);
    } else if Starts(stream, message, itemId) {
      OwnStartInStep(shown, runtime, messages, message, stream, itemId);
    } else {
      OwnCompletionInStep(shown, runtime, messages, message, stream, itemId);
    }
  }

  // ----- A turn, an execution -----

  function MessagesOf(arrivals: seq<Arrival>): seq<Message> {
    seq(|arrivals|, i requires 0 <= i < |arrivals| => arrivals[i].message)
  }

  /** A message the loop stops on, or cannot decode, concerns no item. */
  lemma StopInStep(
    shown: Shown, runtime: Runtime, messages: seq<Message>, message: Message, stream: Stream, itemId: string)
    requires InStep(shown, runtime, messages, stream, itemId) && (message.ServerRequest? || message.Undecodable?)
    ensures InStep(shown, runtime, messages + [message], stream, itemId)
  {
    LastMessage(stream, messages, message, itemId);
  }

  /** Asking the user shows nothing of an item. */
  lemma {:induction false} AskingSpares(shown: Shown, pending: Pending, note: string, stream: Stream, itemId: string)
    ensures var id := ArtifactId(Prefix(stream), itemId);
            Visible(ApplyAll(shown, [PendingArtifact(pending, note), InputRequiredStatus(pending)]), id)
                == Visible(shown, id)
  {
    FixedArtifactsSpare(stream, itemId);
    SparedStays(shown, [PendingArtifact(pending, note), InputRequiredStatus(pending)], stream, itemId);
  }

  lemma FirstArrival(messages: seq<Message>, inbox: seq<Arrival>, used: nat)
    requires 1 <= used <= |inbox|
    ensures messages + MessagesOf(inbox[..used]) ==
            messages + [inbox[0].message] + MessagesOf(inbox[1..][..used - 1])
    ensures used == 1 ==> messages + MessagesOf(inbox[..used]) == messages + [inbox[0].message]
  {
    assert MessagesOf(inbox[..used]) == [inbox[0].message] + MessagesOf(inbox[1..][..used - 1]);
  }

  /** What handling a server request shows, without the loop around it. */
  lemma {:induction false} AskedInStep(
    shown: Shown, runtime: Runtime, runtime': Runtime, messages: seq<Message>, message: Message,
    pending: Option<Pending>, events: seq<Event>, stream: Stream, itemId: string)
    requires InStep(shown, runtime, messages, stream, itemId) && message.ServerRequest?
    requires Accumulated(stream, runtime') == Accumulated(stream, runtime)
    requires events == if pending.Some? then [PendingArtifact(pending.value, ""), InputRequiredStatus(pending.value)]
        else []
    ensures InStep(ApplyAll(shown, events), runtime', messages + [message], stream, itemId)
  {
    StopInStep(shown, runtime, messages, message, stream, itemId);
    if pending.Some? {
      AskingSpares(shown, pending.value, "", stream, itemId);
    }
  }

  lemma {:induction false} RequestIsConsumed(runtime: Runtime, inbox: seq<Arrival>, stream: Stream)
    requires inbox != [] && inbox[0].message.ServerRequest?
    ensures var c, pending := Consume(runtime, inbox), HandleServerRequest(inbox[0].message);
            && c.used == 1 && Accumulated(stream, c.runtime) == Accumulated(stream, runtime)
            && c.events == if pending.Some? then [PendingArtifact(pending.value, ""),
                                                  InputRequiredStatus(pending.value)]
               else []
  {
  }

  lemma {:induction false} RequestInStep(
    shown: Shown, runtime: Runtime, messages: seq<Message>, inbox: seq<Arrival>, stream: Stream, itemId: string)
    requires InStep(shown, runtime, messages, stream, itemId) && inbox != [] && inbox[0].message.ServerRequest?
    ensures var c := Consume(runtime, inbox);
            InStep(ApplyAll(shown, c.events), c.runtime, messages + MessagesOf(inbox[..c.used]), stream, itemId)
  {
    var c, message := Consume(runtime, inbox), inbox[0].message;
    FirstArrival(messages, inbox, 1);
    RequestIsConsumed(runtime, inbox, stream);
    AskedInStep(shown, runtime, c.runtime, messages, message, HandleServerRequest(message), c.events, stream, itemId);
  }

  lemma {:induction false} NotificationInStep(
    shown: Shown, runtime: Runtime, messages: seq<Message>, inbox: seq<Arrival>, stream: Stream, itemId: string)
    requires InStep(shown, runtime, messages, stream, itemId) && inbox != [] && !inbox[0].message.ServerRequest?
    ensures var h := HandleNotification(Noticed(runtime, inbox[0]), inbox[0].message);
            var next := messages + [inbox[0].message];
            if h == None then InStep(shown, runtime, next, stream, itemId)
            else InStep(ApplyAll(shown, h.value.events), h.value.runtime, next, stream, itemId)
  {
    var now, message := Noticed(runtime, inbox[0]), inbox[0].message;
    assert InStep(shown, now, messages, stream, itemId);
    if HandleNotification(now, message) == None {
      StopInStep(shown, runtime, messages, message, stream, itemId);
    } else {
      MessageInStep(shown, now, messages, message, stream, itemId);
    }
  }

  /** A message that the loop goes on after, and the rest. */
  lemma {:induction false} RestInStep(
    shown: Shown, messages: seq<Message>, inbox: seq<Arrival>, events: seq<Event>, rest: Consumed,
    stream: Stream, itemId: string)
    requires inbox != [] && rest.used < |inbox|
    requires InStep(ApplyAll(ApplyAll(shown, events), rest.events), rest.runtime,
                    messages + [inbox[0].message] + MessagesOf(inbox[1..][..rest.used]), stream, itemId)
    ensures InStep(ApplyAll(shown, events + rest.events), rest.runtime,
                   messages + MessagesOf(inbox[..1 + rest.used]), stream, itemId)
  {
    FirstArrival(messages, inbox, 1 + rest.used);
    ApplyAllOfSum(shown, events, rest.events);
  }

  lemma {:induction false} ConsumeInStep(
    shown: Shown, runtime: Runtime, messages: seq<Message>, inbox: seq<Arrival>, stream: Stream, itemId: string)
    requires InStep(shown, runtime, messages, stream, itemId)
    ensures var c := Consume(runtime, inbox);
            InStep(ApplyAll(shown, c.events), c.runtime, messages + MessagesOf(inbox[..c.used]), stream, itemId)
    decreases |inbox|
  {
    if inbox == [] {
      assert messages + MessagesOf(inbox[..0]) == messages;
    } else if inbox[0].message.ServerRequest? {
      RequestInStep(shown, runtime, messages, inbox, stream, itemId);
    } else {
      FirstArrival(messages, inbox, 1);
      NotificationInStep(shown, runtime, messages, inbox, stream, itemId);
      var h := HandleNotification(Noticed(runtime, inbox[0]), inbox[0].message);
      if h.Some? && h.value.outcome.Continue? {
        var rest := Consume(h.value.runtime, inbox[1..]);
        ConsumeInStep(ApplyAll(shown, h.value.events), h.value.runtime, messages + [inbox[0].message], inbox[1..],
                      stream, itemId);
        RestInStep(shown, messages, inbox, h.value.events, rest, stream, itemId);
      }
    }
  }

  // ----- What the visible text is -----

  /** The text of a completion that no delta of the assistant message came after. */
  function ClosedWith(messages: seq<Message>, itemId: string): Option<string> {
    if messages == [] then None
    else
      var n := |messages| - 1;
      if IsDelta(Assistant, messages[n], itemId) then None
      else if Completes(Assistant, messages[n], itemId) && messages[n].item.text != "" then Some(messages[n].item.text)
      else ClosedWith(messages[..n], itemId)
  }

  /** An assistant artifact shows the concatenation of all its deltas, or the text of the completion
      that closed it. */
  lemma {:induction false} AssistantShowsDeltas(messages: seq<Message>, itemId: string)
    ensures View(Assistant, messages, itemId) ==
            match ClosedWith(messages, itemId)
            case None => Text(Assistant, messages, itemId)
            case Some(text) => text
  {
    if messages != [] {
      AssistantShowsDeltas(messages[..|messages| - 1], itemId);
    }
  }

  /** What the last start or completion of an item made visible, and the text it stood for by then. */
  datatype Mark = Mark(shown: string, covered: string)

  /** A start shows nothing; a completion shows its own output, or else the accumulated text. */
  function MarkStep(stream: Stream, mark: Mark, text: string, message: Message, itemId: string): Mark {
    if Starts(stream, message, itemId) then Mark("", text)
    else if Completes(stream, message, itemId) then
      Mark(if stream.Command? then FirstNonEmpty(message.item.aggregatedOutput, text) else text, text)
    else mark
  }

  function LastMark(stream: Stream, messages: seq<Message>, itemId: string): Mark {
    if messages == [] then Mark("", "")
    else
      var n := |messages| - 1;
      MarkStep(stream, LastMark(stream, messages[..n], itemId), Text(stream, messages, itemId), messages[n], itemId)
  }

  function SinceStep(stream: Stream, since: string, message: Message, itemId: string): string {
    if Starts(stream, message, itemId) || Completes(stream, message, itemId) then ""
    else since + DeltaOf(stream, message, itemId)
  }

  /** The deltas after that. */
  function Since(stream: Stream, messages: seq<Message>, itemId: string): string {
    if messages == [] then ""
    else
      var n := |messages| - 1;
      SinceStep(stream, Since(stream, messages[..n], itemId), messages[n], itemId)
  }

  /** One message keeps the view and the text in line with the mark. */
  lemma OneMessageOn(stream: Stream, mark: Mark, since: string, message: Message, itemId: string)
    requires !stream.Assistant?
    ensures var text := mark.covered + since + DeltaOf(stream, message, itemId);
            var mark' := MarkStep(stream, mark, text, message, itemId);
            var since' := SinceStep(stream, since, message, itemId);
            && ViewStep(stream, mark.shown + since, text, message, itemId) == mark'.shown + since'
            && text == mark'.covered + since'
  {
    var delta := DeltaOf(stream, message, itemId);
    assert mark.shown + since + delta == mark.shown + (since + delta);
    assert mark.covered + since + delta == mark.covered + (since + delta);
  }

  /** A command or file change shows what its last start or completion made visible and the deltas
      since; the accumulated text is what that stood for and the same deltas. */
  lemma {:induction false} MarkThenDeltas(stream: Stream, messages: seq<Message>, itemId: string)
    requires !stream.Assistant?
    ensures View(stream, messages, itemId) ==
            LastMark(stream, messages, itemId).shown + Since(stream, messages, itemId)
    ensures Text(stream, messages, itemId) ==
            LastMark(stream, messages, itemId).covered + Since(stream, messages, itemId)
  {
    if messages != [] {
      var n := |messages| - 1;
      MarkThenDeltas(stream, messages[..n], itemId);
      OneMessageOn(stream, LastMark(stream, messages[..n], itemId), Since(stream, messages[..n], itemId), messages[n],
                   itemId);
    }
  }

  /** A completion that brings no output of its own. File changes never do. */
  predicate CompletesPlainly(stream: Stream, message: Message, itemId: string) {
    && Completes(stream, message, itemId)
    && (stream.Command? ==> FirstNonEmpty(message.item.aggregatedOutput, "") == "")
  }

  /** After any messages at all, a completion without output of its own shows the accumulated text of
      a command or file change, and leaves the visible text unchanged exactly when the last start or
      completion of the item made visible what it stood for. */
  lemma {:induction false} CompletionKeepsText(stream: Stream, messages: seq<Message>, completion: Message,
                                               itemId: string)
    requires !stream.Assistant? && CompletesPlainly(stream, completion, itemId)
    ensures View(stream, messages + [completion], itemId) == Text(stream, messages, itemId)
    ensures View(stream, messages + [completion], itemId) == View(stream, messages, itemId) <==>
            LastMark(stream, messages, itemId).shown == LastMark(stream, messages, itemId).covered
  {
    var mark, since := LastMark(stream, messages, itemId), Since(stream, messages, itemId);
    MarkThenDeltas(stream, messages, itemId);
    LastMessage(stream, messages, completion, itemId);
    SameBefore(mark.shown, mark.covered, since);
  }

  lemma SameBefore(a: string, b: string, rest: string)
    ensures a + rest == b + rest <==> a == b
  {
    if a + rest == b + rest {
      assert a == (a + rest)[..|a|] && b == (b + rest)[..|b|];
    }
  }

  /** The same for what a client sees: folding in the events of the completion. */
  lemma {:induction false} CompletionInFold(
    shown: Shown, runtime: Runtime, messages: seq<Message>, completion: Message, stream: Stream, itemId: string)
    requires InStep(shown, runtime, messages, stream, itemId)
    requires !stream.Assistant? && CompletesPlainly(stream, completion, itemId)
    ensures HandleNotification(runtime, completion).Some?
    ensures var id := ArtifactId(Prefix(stream), itemId);
            var after := ApplyAll(shown, HandleNotification(runtime, completion).value.events);
            && Visible(after, id) == Text(stream, messages, itemId)
            && (Visible(after, id) == Visible(shown, id) <==>
                  LastMark(stream, messages, itemId).shown == LastMark(stream, messages, itemId).covered)
  {
    MessageInStep(shown, runtime, messages, completion, stream, itemId);
    CompletionKeepsText(stream, messages, completion, itemId);
  }

  /** When no delta of an item came before a start, and no completion brought an output of its own,
      the next plain completion keeps the text. */
  lemma {:induction false} StartedFirstKeepsText(stream: Stream, messages: seq<Message>, itemId: string)
    requires !stream.Assistant?
    requires forall i, j :: 0 <= i < j < |messages| && IsDelta(stream, messages[i], itemId) ==>
               !Starts(stream, messages[j], itemId)
    requires forall m :: m in messages && Completes(stream, m, itemId) ==> CompletesPlainly(stream, m, itemId)
    ensures LastMark(stream, messages, itemId).shown == LastMark(stream, messages, itemId).covered
    ensures (forall m :: m in messages ==> !IsDelta(stream, m, itemId)) ==> Text(stream, messages, itemId) == ""
  {
    if messages != [] {
      var n := |messages| - 1;
      assert messages[n] in messages;
      assert forall m :: m in messages[..n] ==> m in messages;
      StartedFirstKeepsText(stream, messages[..n], itemId);
    }
  }

  /** A command that is started again after it wrote: its completion brings the hidden text back. */
  lemma {:induction false} RestartedCommandReadsDifferently(item: Item)
    requires item.kind == CommandExecution && item.aggregatedOutput == None
    ensures var before := [CommandDelta(item.id, "a"), ItemStarted(item)];
            && View(Command, before, item.id) == ""
            && View(Command, before + [ItemCompleted(item)], item.id) == "a"
  {
    var delta := [CommandDelta(item.id, "a")];
    LastMessage(Command, [], CommandDelta(item.id, "a"), item.id);
    LastMessage(Command, delta, ItemStarted(item), item.id);
    LastMessage(Command, delta + [ItemStarted(item)], ItemCompleted(item), item.id);
    assert [] + delta == delta;
    assert delta + [ItemStarted(item)] == [CommandDelta(item.id, "a"), ItemStarted(item)];
  }

  /** A command completed with an output of its own and then completed again without one: the second
      completion brings the accumulated text back, although no start hid any. */
  lemma {:induction false} CompletedTwiceReadsDifferently(item: Item)
    requires item.kind == CommandExecution && item.aggregatedOutput == None
    ensures var before := [CommandDelta(item.id, "a"), ItemCompleted(item.(aggregatedOutput := Some("b")))];
            && View(Command, before, item.id) == "b"
            && View(Command, before + [ItemCompleted(item)], item.id) == "a"
  {
    var delta, first := [CommandDelta(item.id, "a")], ItemCompleted(item.(aggregatedOutput := Some("b")));
    LastMessage(Command, [], CommandDelta(item.id, "a"), item.id);
    LastMessage(Command, delta, first, item.id);
    LastMessage(Command, delta + [first], ItemCompleted(item), item.id);
    assert [] + [CommandDelta(item.id, "a")] == delta;
    assert delta + [first] == [CommandDelta(item.id, "a"), first];
  }
}
