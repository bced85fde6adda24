/** The invariant of the client's multiplexer, which says where the channel of each call is, and that every step
    of calls, read loop and `finish` keeps it. */
module RpcSteps {
  import opened Wrappers
  import opened RpcMux

  // ----- The ownership invariant -----

  function One(holds: bool): nat {
    if holds then 1 else 0
  }

  predicate InMap(s: Mux, c: Call) {
    c in s.calls && Decimal(s.calls[c].id) in s.pending
  }

  predicate InReader(s: Mux, c: Call) {
    s.reader.Delivering? && s.reader.call == c
  }

  predicate InFinisher(s: Mux, c: Call) {
    s.finisher.DrainSending? && s.finisher.call == c
  }

  predicate ReaderShuts(s: Mux, c: Call) {
    s.reader.Shutting? && s.reader.call == c
  }

  predicate FinisherShuts(s: Mux, c: Call) {
    s.finisher.DrainShutting? && s.finisher.call == c
  }

  /** The hands and the spent channels: how often the channel of a call is to be found. */
  function Places(s: Mux, c: Call): nat
    requires c in s.calls && c in s.channels
  {
    One(InMap(s, c))
    + One(InReader(s, c))
    + One(InFinisher(s, c))
    + s.channels[c].sends
  }

  /** The closes that are still owed to a channel that was sent to. */
  function Owed(s: Mux, c: Call): nat {
    One(ReaderShuts(s, c)) + One(FinisherShuts(s, c))
  }

  /** A response the call may be sent. */
  predicate Fits(s: Mux, c: Call, response: Response)
    requires c in s.calls
  {
    match response
    case Reply(id, _) => id == Decimal(s.calls[c].id)
    case Shutdown(text) => s.closed && text == if s.error.Some? then s.error.value else "codex app-server closed"
  }

  ghost predicate CallOk(s: Mux, c: Call)
    requires c in s.calls && c in s.channels
  {
    var channel, progress := s.channels[c], s.calls[c].progress;
    && 1 <= s.calls[c].id <= s.nextID
    && Places(s, c) <= 1
    && (progress.Numbered? ==> Places(s, c) == 0)
    && (Places(s, c) == 0 ==> progress.Numbered? || progress == Returned(NotWritten))
    && channel.closes + Owed(s, c) == channel.sends
    && (channel.buffer.Some? ==> channel.sends == 1 && Fits(s, c, channel.buffer.value))
    && (channel.buffer == None && channel.sends == 1 ==> progress.Returned? && progress.how.Received?)
    && (progress.Returned? && progress.how.Received? ==>
          && channel.sends == 1 && channel.buffer == None
          && progress.how.response.Some? && Fits(s, c, progress.how.response.value))
  }

  ghost predicate CallsOk(s: Mux) {
    && s.channels.Keys == s.calls.Keys
    && forall c :: c in s.calls ==> CallOk(s, c)
  }

  /** An entry is filed under the ID of the call that owns it. */
  ghost predicate EntryOk(s: Mux, id: string)
    requires id in s.pending
  {
    s.pending[id] in s.calls && id == Decimal(s.calls[s.pending[id]].id)
  }

  ghost predicate EntriesOk(s: Mux) {
    && (forall id :: id in s.pending ==> EntryOk(s, id))
    && (forall c, d :: c in s.calls && d in s.calls && c != d ==> s.calls[c].id != s.calls[d].id)
  }

  ghost predicate HandsOk(s: Mux) {
    && (s.reader.Delivering? ==>
          s.reader.call in s.calls && s.reader.response.Reply? && Fits(s, s.reader.call, s.reader.response))
    && (s.reader.Shutting? ==> s.reader.call in s.calls)
    && (s.finisher.DrainSending? ==> s.finisher.call in s.calls)
    && (s.finisher.DrainShutting? ==> s.finisher.call in s.calls)
    && (s.closed <==> !s.finisher.NotStarted?)
    && (s.done.Some? ==> s.finisher.Signalled? || s.finisher.Done?)
  }

  predicate AfterDrain(s: Mux) {
    s.finisher.Drained? || s.finisher.Signalled? || s.finisher.Done?
  }

  /** Only calls that have yet to check the closed flag, or to remove their entry, are in the map. */
  ghost predicate Leaving(s: Mux, id: string)
    requires id in s.pending
  {
    At(s, s.pending[id], Inserted) || At(s, s.pending[id], Failing)
  }

  ghost predicate DrainOk(s: Mux) {
    AfterDrain(s) ==> forall id :: id in s.pending ==> Leaving(s, id)
  }

  ghost predicate Inv(s: Mux) {
    CallsOk(s) && EntriesOk(s) && HandsOk(s) && DrainOk(s)
  }

  lemma {:induction false} DecimalsDiffer(m: nat, n: nat)
    requires m != n
    ensures Decimal(m) != Decimal(n)
  {
    DecimalReadsBack(m);
    DecimalReadsBack(n);
  }

  /** No two calls share a request ID. */
  lemma {:induction false} KeysDiffer(s: Mux, c: Call)
    requires EntriesOk(s) && c in s.calls
    ensures forall d :: d in s.calls && d != c ==> Decimal(s.calls[d].id) != Decimal(s.calls[c].id)
    ensures InMap(s, c) <==> Decimal(s.calls[c].id) in s.pending && s.pending[Decimal(s.calls[c].id)] == c
  {
    forall d | d in s.calls && d != c ensures Decimal(s.calls[d].id) != Decimal(s.calls[c].id) {
      DecimalsDiffer(s.calls[d].id, s.calls[c].id);
    }
    if InMap(s, c) {
      assert EntryOk(s, Decimal(s.calls[c].id));
    }
  }

  lemma {:induction false} NewKeyIsFree(s: Mux)
    requires EntriesOk(s) && CallsOk(s)
    ensures Decimal(s.nextID + 1) !in s.pending
  {
    var id := Decimal(s.nextID + 1);
    if id in s.pending {
      assert CallOk(s, s.pending[id]);
      DecimalsDiffer(s.nextID + 1, s.calls[s.pending[id]].id);
    }
  }

  /** A step that does not concern a call. */
  ghost predicate Aside(s: Mux, s': Mux, c: Call) {
    && c in s.calls && c in s.channels && c in s'.calls && c in s'.channels
    && s'.calls[c] == s.calls[c] && s'.channels[c] == s.channels[c] && InMap(s', c) == InMap(s, c)
    && InReader(s', c) == InReader(s, c) && ReaderShuts(s', c) == ReaderShuts(s, c)
    && InFinisher(s', c) == InFinisher(s, c) && FinisherShuts(s', c) == FinisherShuts(s, c)
    && s.nextID <= s'.nextID && (s.closed ==> s'.closed && s'.error == s.error)
  }

  /** The call a step of the read loop, or of the drain, concerns. */
  function ReadFocus(s: Mux, act: ReadAct): Option<Call> {
    if act.Take? && act.id in s.pending then Some(s.pending[act.id])
    else if s.reader.Delivering? || s.reader.Shutting? then Some(s.reader.call)
    else None
  }

  function FinishFocus(s: Mux, act: FinishAct): Option<Call> {
    if act.DrainTake? && act.id in s.pending then Some(s.pending[act.id])
    else if s.finisher.DrainSending? || s.finisher.DrainShutting? then Some(s.finisher.call)
    else None
  }

  // A step of a call

  lemma CallActs(s: Mux, c: Call, act: CallAct)
    requires CallEnabled(s, c, act) && c in s.calls && c in s.channels && CallOk(s, c)
    ensures CallOk(CallApply(s, c, act), c)
  {
  }

  lemma NewCallIsUnheld(s: Mux, c: Call)
    requires EntriesOk(s) && CallsOk(s) && HandsOk(s) && CallEnabled(s, c, AllocateID)
    ensures CallOk(CallApply(s, c, AllocateID), c)
  {
    NewKeyIsFree(s);
  }

  lemma CallLeavesOthers(s: Mux, c: Call, act: CallAct, d: Call)
    requires EntriesOk(s) && CallEnabled(s, c, act) && d in s.calls && d in s.channels && d != c
    ensures Aside(s, CallApply(s, c, act), d)
  {
    KeysDiffer(s, d);
  }

  lemma CallKeepsOthers(s: Mux, c: Call, act: CallAct, d: Call)
    requires EntriesOk(s) && CallsOk(s) && CallEnabled(s, c, act) && d in s.calls && d != c
    ensures CallOk(CallApply(s, c, act), d)
  {
    CallLeavesOthers(s, c, act, d);
  }

  lemma CallKeepsKeys(s: Mux, c: Call, act: CallAct)
    requires CallEnabled(s, c, act) && s.channels.Keys == s.calls.Keys
    ensures var s' := CallApply(s, c, act); s'.calls.Keys == s'.channels.Keys == s.calls.Keys + {c}
  {
  }

  lemma CallKeepsOne(s: Mux, c: Call, act: CallAct, d: Call)
    requires EntriesOk(s) && CallsOk(s) && HandsOk(s) && CallEnabled(s, c, act) && (d == c || d in s.calls)
    ensures var s' := CallApply(s, c, act); d in s'.calls && d in s'.channels && CallOk(s', d)
  {
    CallKeepsKeys(s, c, act);
    if d != c {
      CallKeepsOthers(s, c, act, d);
    } else if act.AllocateID? {
      NewCallIsUnheld(s, c);
    } else {
      CallActs(s, c, act);
    }
  }

  lemma CallKeepsCalls(s: Mux, c: Call, act: CallAct)
    requires EntriesOk(s) && CallsOk(s) && HandsOk(s) && CallEnabled(s, c, act)
    ensures CallsOk(CallApply(s, c, act))
  {
    var s' := CallApply(s, c, act);
    CallKeepsKeys(s, c, act);
    forall d | d in s'.calls ensures d in s'.channels && CallOk(s', d) {
      CallKeepsOne(s, c, act, d);
    }
  }

  lemma NumberingKeepsEntries(s: Mux, c: Call)
    requires EntriesOk(s) && CallsOk(s) && CallEnabled(s, c, AllocateID)
    ensures EntriesOk(CallApply(s, c, AllocateID))
  {
    var s' := CallApply(s, c, AllocateID);
    forall d | d in s.calls ensures s.calls[d].id <= s.nextID {
      assert CallOk(s, d);
    }
    forall id | id in s'.pending ensures EntryOk(s', id) {
      assert EntryOk(s, id);
    }
  }

  lemma {:induction false} CallKeepsIds(s: Mux, c: Call, act: CallAct)
    requires CallEnabled(s, c, act) && !act.AllocateID?
    ensures var s' := CallApply(s, c, act);
            && s'.calls.Keys == s.calls.Keys
            && (forall d :: d in s.calls ==> s'.calls[d].id == s.calls[d].id)
            && s'.pending == (match act
                              case Insert => s.pending[Decimal(s.calls[c].id) := c]
                              case RemoveOwn => s.pending - {Decimal(s.calls[c].id)}
                              case _ => s.pending)
  {
  }

  lemma CallKeepsEntries(s: Mux, c: Call, act: CallAct)
    requires EntriesOk(s) && CallsOk(s) && CallEnabled(s, c, act)
    ensures EntriesOk(CallApply(s, c, act))
  {
    if act.AllocateID? {
      NumberingKeepsEntries(s, c);
    } else {
      CallKeepsIds(s, c, act);
    }
  }

  lemma CallKeepsDrain(s: Mux, c: Call, act: CallAct)
    requires EntriesOk(s) && HandsOk(s) && DrainOk(s) && CallEnabled(s, c, act)
    ensures DrainOk(CallApply(s, c, act))
  {
    var s' := CallApply(s, c, act);
    if AfterDrain(s) && act != AllocateID {
      CallKeepsIds(s, c, act);
      forall id | id in s'.pending ensures Leaving(s', id) {
        if id in s.pending && s.pending[id] == s'.pending[id] {
          assert EntryOk(s, id) && Leaving(s, id);
        }
      }
    }
  }

  lemma CallKeepsHands(s: Mux, c: Call, act: CallAct)
    requires HandsOk(s) && CallEnabled(s, c, act)
    ensures HandsOk(CallApply(s, c, act))
  {
  }

  lemma CallKeepsInv(s: Mux, c: Call, act: CallAct)
    requires Inv(s) && CallEnabled(s, c, act)
    ensures Inv(CallApply(s, c, act))
  {
    CallKeepsCalls(s, c, act);
    CallKeepsEntries(s, c, act);
    CallKeepsDrain(s, c, act);
    CallKeepsHands(s, c, act);
  }

  // A step of the read loop

  lemma ReadActs(s: Mux, act: ReadAct, c: Call)
    requires ReadEnabled(s, act) && c in s.calls && c in s.channels && CallOk(s, c)
    requires EntriesOk(s) && HandsOk(s)
    ensures CallOk(ReadApply(s, act), c)
  {
    var s' := ReadApply(s, act);
    KeysDiffer(s, c);
    if ReadFocus(s, act) != Some(c) {
      if act.Take? && act.id in s.pending {
        assert EntryOk(s, act.id);
      }
    }
  }

  lemma ReadKeepsEntries(s: Mux, act: ReadAct)
    requires EntriesOk(s) && DrainOk(s) && ReadEnabled(s, act)
    ensures EntriesOk(ReadApply(s, act)) && DrainOk(ReadApply(s, act))
  {
    var s' := ReadApply(s, act);
    forall id | id in s'.pending ensures EntryOk(s', id) && (AfterDrain(s') ==> Leaving(s', id)) {
      assert EntryOk(s, id);
    }
  }

  lemma ReadKeepsInv(s: Mux, act: ReadAct)
    requires Inv(s) && ReadEnabled(s, act)
    ensures Inv(ReadApply(s, act))
  {
    var s' := ReadApply(s, act);
    forall c | c in s'.calls ensures CallOk(s', c) {
      ReadActs(s, act, c);
    }
    ReadKeepsEntries(s, act);
  }

  // A step of `finish`

  lemma FinishActs(s: Mux, act: FinishAct, c: Call)
    requires FinishEnabled(s, act) && c in s.calls && c in s.channels && CallOk(s, c)
    requires EntriesOk(s) && HandsOk(s)
    ensures CallOk(FinishApply(s, act), c)
  {
    var s' := FinishApply(s, act);
    KeysDiffer(s, c);
    if FinishFocus(s, act) != Some(c) {
      if act.DrainTake? {
        assert EntryOk(s, act.id);
      }
    }
  }

  lemma FinishKeepsHands(s: Mux, act: FinishAct)
    requires EntriesOk(s) && HandsOk(s) && FinishEnabled(s, act)
    ensures HandsOk(FinishApply(s, act))
  {
    if act.DrainTake? {
      assert EntryOk(s, act.id);
    }
  }

  lemma FinishKeepsEntries(s: Mux, act: FinishAct)
    requires EntriesOk(s) && HandsOk(s) && DrainOk(s) && FinishEnabled(s, act)
    ensures EntriesOk(FinishApply(s, act)) && DrainOk(FinishApply(s, act))
  {
    var s' := FinishApply(s, act);
    forall id | id in s'.pending ensures EntryOk(s', id) && (AfterDrain(s') ==> Leaving(s', id)) {
      assert EntryOk(s, id);
    }
  }

  lemma FinishKeepsInv(s: Mux, act: FinishAct)
    requires Inv(s) && FinishEnabled(s, act)
    ensures Inv(FinishApply(s, act))
  {
    var s' := FinishApply(s, act);
    forall c | c in s'.calls ensures CallOk(s', c) {
      FinishActs(s, act, c);
    }
    FinishKeepsHands(s, act);
    FinishKeepsEntries(s, act);
  }

  lemma StepKeepsInv(s: Mux, step: Step, s': Mux)
    requires Inv(s) && StepsTo(s, step, s')
    ensures Inv(s')
  {
    match step
    case CallStep(c, act) => CallKeepsInv(s, c, act);
    case ReadStep(act) => ReadKeepsInv(s, act);
    case FinishStep(act) => FinishKeepsInv(s, act);
  }

  lemma {:induction false} RunKeepsInv(states: seq<Mux>, steps: seq<Step>, n: nat)
    requires IsRun(states, steps) && n < |states|
    ensures Inv(states[n])
  {
    if n > 0 {
      RunKeepsInv(states, steps, n - 1);
      StepKeepsInv(states[n - 1], steps[n - 1], states[n]);
    }
  }
}
