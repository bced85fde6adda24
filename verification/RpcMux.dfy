/** The client's request multiplexer. */
module RpcMux {
  // Concurrent calls, one read loop and a one-shot `finish` share a map from request IDs to one-slot
  // channels. A step of the machine is one critical section, one channel operation or one access to the
  // closed flag, so steps of different goroutines interleave freely.

  import opened Wrappers

  // ----- Request IDs on the wire -----

  /** `%d` of a request ID. */
  function Decimal(n: nat): (text: string)
    ensures text != "" && forall i :: 0 <= i < |text| ==> '0' <= text[i] <= '9'
  {
    var last := [('0' as int + n % 10) as char];
    if n < 10 then last else Decimal(n / 10) + last
  }

  /** The number a text of digits stands for. */
  function Number(text: string): nat
    requires forall i :: 0 <= i < |text| ==> '0' <= text[i] <= '9'
  {
    if text == "" then 0
    else 10 * Number(text[..|text| - 1]) + (text[|text| - 1] as int - '0' as int)
  }

  lemma {:induction false} DecimalReadsBack(n: nat)
    ensures Number(Decimal(n)) == n
  {
    var last := [('0' as int + n % 10) as char];
    if n >= 10 {
      DecimalReadsBack(n / 10);
      var text := Decimal(n / 10) + last;
      assert text[..|text| - 1] == Decimal(n / 10);
    } else {
      assert last[..0] == "";
    }
  }

  // ----- State -----

  type Call = nat

  /** What is sent to a waiting call: the response to the request with this ID, or an error. */
  datatype Response = Reply(id: string, body: string) | Shutdown(message: string)

  /** A channel of capacity one, with how often it was sent to and closed. */
  datatype Channel = Channel(buffer: Option<Response>, sends: nat, closes: nat)

  const EMPTY_CHANNEL: Channel := Channel(None, 0, 0)

  /** How `request` returns: with what it received (nothing from a closed empty channel), woken by
      `done`, abandoned by its context, or unable to write. */
  datatype Return =
    | Received(response: Option<Response>)
    | Woken(error: Option<string>)
    | Abandoned
    | NotWritten

  datatype Progress =
    | Numbered
    | Inserted
    | Writing
    | Waiting
    | Failing
    | Returned(how: Return)

  datatype CallState = CallState(id: nat, progress: Progress)

  datatype Reader =
    | Reading
    | Delivering(call: Call, response: Response)
    | Shutting(call: Call)
    | Stopped

  /** The goroutine that won the closed flag; it holds the lock from `Draining` to the unlock. */
  datatype Finisher =
    | NotStarted
    | Marked
    | Draining
    | DrainSending(call: Call)
    | DrainShutting(call: Call)
    | Drained
    | Signalled
    | Done

  /** `message` is what the drain sends; `done` is the one slot of the channel of that name. */
  datatype Mux = Mux(
    nextID: nat,
    pending: map<string, Call>,
    calls: map<Call, CallState>,
    channels: map<Call, Channel>,
    closed: bool,
    reader: Reader,
    finisher: Finisher,
    error: Option<string>,
    done: Option<Option<string>>)

  const INITIAL: Mux := Mux(0, map[], map[], map[], false, Reading, NotStarted, None, None)

  // ----- Steps -----

  datatype CallAct = AllocateID | Insert | CheckAlive | Write(ok: bool) | RemoveOwn | Receive | Wake | Abandon

  datatype ReadAct = Take(id: string, body: string) | Deliver | Shut | StopReading

  /** What `finish` does, and another receiver of `done`. */
  datatype FinishAct =
    | Mark(error: Option<string>)
    | LockToDrain
    | DrainTake(id: string)
    | DrainSend
    | DrainShut
    | Unlock
    | Signal
    | CloseDone
    | TakeDone

  datatype Step =
    | CallStep(call: Call, call_act: CallAct)
    | ReadStep(read_act: ReadAct)
    | FinishStep(finish_act: FinishAct)

  predicate Locked(s: Mux) {
    s.finisher.Draining? || s.finisher.DrainSending? || s.finisher.DrainShutting?
  }

  predicate At(s: Mux, c: Call, progress: Progress) {
    c in s.calls && s.calls[c].progress == progress
  }

  predicate HasChannel(s: Mux, c: Call) {
    c in s.channels
  }

  /** What a send, a close and a receive find possible on a channel. */
  predicate CanSend(s: Mux, c: Call) {
    HasChannel(s, c) && s.channels[c].buffer == None
  }

  predicate CanReceive(s: Mux, c: Call) {
    HasChannel(s, c) && (s.channels[c].buffer.Some? || s.channels[c].closes > 0)
  }

  predicate CallEnabled(s: Mux, c: Call, act: CallAct) {
    match act
    case AllocateID => c !in s.calls
    case Insert => At(s, c, Numbered) && !Locked(s)
    case CheckAlive => At(s, c, Inserted)
    case Write(ok) => At(s, c, Writing) && (ok ==> !Locked(s))
    case RemoveOwn => At(s, c, Failing) && !Locked(s)
    case Receive => At(s, c, Waiting) && CanReceive(s, c)
    case Wake => At(s, c, Waiting) && (s.done.Some? || s.finisher.Done?)
    case Abandon => At(s, c, Waiting)
  }

  predicate ReadEnabled(s: Mux, act: ReadAct) {
    match act
    case Take(_, _) => s.reader.Reading? && !Locked(s)
    case Deliver => s.reader.Delivering? && CanSend(s, s.reader.call)
    case Shut => s.reader.Shutting? && HasChannel(s, s.reader.call)
    case StopReading => s.reader.Reading?
  }

  predicate FinishEnabled(s: Mux, act: FinishAct) {
    match act
    case Mark(_) => true
    case LockToDrain => s.finisher.Marked?
    case DrainTake(id) => s.finisher.Draining? && id in s.pending
    case DrainSend => s.finisher.DrainSending? && CanSend(s, s.finisher.call)
    case DrainShut => s.finisher.DrainShutting? && HasChannel(s, s.finisher.call)
    case Unlock => s.finisher.Draining? && s.pending == map[]
    case Signal => s.finisher.Drained? && s.done == None
    case CloseDone => s.finisher.Signalled?
    case TakeDone => s.done.Some?
  }

  predicate Enabled(s: Mux, step: Step) {
    match step
    case CallStep(c, act) => CallEnabled(s, c, act)
    case ReadStep(act) => ReadEnabled(s, act)
    case FinishStep(act) => FinishEnabled(s, act)
  }

  function Moved(s: Mux, c: Call, progress: Progress): Mux
    requires c in s.calls
  {
    s.(calls := s.calls[c := s.calls[c].(progress := progress)])
  }

  function Sent(s: Mux, c: Call, response: Response): map<Call, Channel>
    requires c in s.channels
  {
    s.channels[c := Channel(Some(response), s.channels[c].sends + 1, s.channels[c].closes)]
  }

  function ShutDown(s: Mux, c: Call): map<Call, Channel>
    requires c in s.channels
  {
    s.channels[c := s.channels[c].(closes := s.channels[c].closes + 1)]
  }

  function CallApply(s: Mux, c: Call, act: CallAct): Mux
    requires CallEnabled(s, c, act)
  {
    match act
    case AllocateID =>
      s.(nextID := s.nextID + 1,
         calls := s.calls[c := CallState(s.nextID + 1, Numbered)],
         channels := s.channels[c := EMPTY_CHANNEL])
    case Insert => Moved(s, c, Inserted).(pending := s.pending[Decimal(s.calls[c].id) := c])
    case CheckAlive => Moved(s, c, if s.closed then Failing else Writing)
    case Write(ok) => Moved(s, c, if ok then Waiting else Failing)
    case RemoveOwn => Moved(s, c, Returned(NotWritten)).(pending := s.pending - {Decimal(s.calls[c].id)})
    case Receive =>
      Moved(s, c, Returned(Received(s.channels[c].buffer)))
        .(channels := s.channels[c := s.channels[c].(buffer := None)])
    case Wake =>
      if s.done.Some? then Moved(s, c, Returned(Woken(s.done.value))).(done := None)
      else Moved(s, c, Returned(Woken(None)))
    case Abandon => Moved(s, c, Returned(Abandoned))
  }

  function ReadApply(s: Mux, act: ReadAct): Mux
    requires ReadEnabled(s, act)
  {
    match act
    case Take(id, body) =>
      if id in s.pending then s.(pending := s.pending - {id}, reader := Delivering(s.pending[id], Reply(id, body)))
      else s
    case Deliver => s.(channels := Sent(s, s.reader.call, s.reader.response), reader := Shutting(s.reader.call))
    case Shut => s.(channels := ShutDown(s, s.reader.call), reader := Reading)
    case StopReading => s.(reader := Stopped)
  }

  /** The error a drained call is sent. */
  function ShutdownError(error: Option<string>): Response {
    Shutdown(if error.Some? then error.value else "codex app-server closed")
  }

  function FinishApply(s: Mux, act: FinishAct): Mux
    requires FinishEnabled(s, act)
  {
    match act
    case Mark(error) => if s.closed then s else s.(closed := true, finisher := Marked, error := error)
    case LockToDrain => s.(finisher := Draining)
    case DrainTake(id) => s.(pending := s.pending - {id}, finisher := DrainSending(s.pending[id]))
    case DrainSend =>
      s.(channels := Sent(s, s.finisher.call, ShutdownError(s.error)), finisher := DrainShutting(s.finisher.call))
    case DrainShut => s.(channels := ShutDown(s, s.finisher.call), finisher := Draining)
    case Unlock => s.(finisher := Drained)
    case Signal => s.(done := Some(s.error), finisher := Signalled)
    case CloseDone => s.(finisher := Done)
    case TakeDone => s.(done := None)
  }

  function Apply(s: Mux, step: Step): Mux
    requires Enabled(s, step)
  {
    match step
    case CallStep(c, act) => CallApply(s, c, act)
    case ReadStep(act) => ReadApply(s, act)
    case FinishStep(act) => FinishApply(s, act)
  }

  ghost predicate StepsTo(s: Mux, step: Step, s': Mux) {
    Enabled(s, step) && s' == Apply(s, step)
  }

  ghost predicate IsRun(states: seq<Mux>, steps: seq<Step>) {
    && |states| == |steps| + 1 && states[0] == INITIAL
    && forall i :: 0 <= i < |steps| ==> Enabled(states[i], steps[i]) && states[i + 1] == Apply(states[i], steps[i])
  }
}
