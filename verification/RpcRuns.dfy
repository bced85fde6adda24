/** What the client's multiplexer keeps. */
module RpcRuns {
  // Over every interleaving of requests, the read loop and `finish`.

  import opened Wrappers
  import opened RpcMux
  import opened RpcSteps

  // ----- What every interleaving keeps -----

  /** The channel of a call is in exactly one place from its insert on: in the map, in the hand of
      the read loop or of the drain, or spent by its one send; only the call itself takes it out of
      all of them, when its write failed. It is closed once for that send and never without it. */
  lemma EveryChannelHasOneOwner(states: seq<Mux>, steps: seq<Step>, n: nat, c: Call)
    requires IsRun(states, steps) && n < |states| && c in states[n].calls
    ensures var s := states[n];
            && c in s.channels && Places(s, c) <= 1
            && (Places(s, c) == 0 ==> s.calls[c].progress in {Numbered, Returned(NotWritten)})
            && s.channels[c].closes + Owed(s, c) == s.channels[c].sends
  {
    RunKeepsInv(states, steps, n);
    assert CallOk(states[n], c);
  }

  /** When the read loop is about to send, the slot of an open channel is empty; when it is about
      to close, the channel is open. It is never stuck in a delivery. */
  lemma DeliveryNeverBlocks(states: seq<Mux>, steps: seq<Step>, n: nat)
    requires IsRun(states, steps) && n < |states|
    ensures var s := states[n];
            && (s.reader.Delivering? ==> ReadEnabled(s, Deliver) && s.channels[s.reader.call] == EMPTY_CHANNEL)
            && (s.reader.Shutting? ==> ReadEnabled(s, Shut) && s.channels[s.reader.call].closes == 0)
  {
    RunKeepsInv(states, steps, n);
    var s := states[n];
    if s.reader.Delivering? || s.reader.Shutting? {
      assert CallOk(s, s.reader.call);
    }
  }

  ghost predicate FinishProceeds(s: Mux) {
    match s.finisher
    case NotStarted => true
    case Marked => FinishEnabled(s, LockToDrain)
    case Draining => FinishEnabled(s, Unlock) || exists id :: FinishEnabled(s, DrainTake(id))
    case DrainSending(_) => FinishEnabled(s, DrainSend)
    case DrainShutting(_) => FinishEnabled(s, DrainShut)
    case Drained => FinishEnabled(s, Signal)
    case Signalled => FinishEnabled(s, CloseDone)
    case Done => true
  }

  /** The same for the drain, which holds the lock: `finish` always has a step to make. */
  lemma FinishNeverBlocks(states: seq<Mux>, steps: seq<Step>, n: nat)
    requires IsRun(states, steps) && n < |states|
    ensures FinishProceeds(states[n])
    ensures var s := states[n];
            && (s.finisher.DrainSending? ==> s.channels[s.finisher.call] == EMPTY_CHANNEL)
            && (s.finisher.DrainShutting? ==> s.channels[s.finisher.call].closes == 0)
  {
    RunKeepsInv(states, steps, n);
    var s := states[n];
    if s.finisher.DrainSending? || s.finisher.DrainShutting? {
      assert CallOk(s, s.finisher.call);
    } else if s.finisher.Draining? && s.pending != map[] {
      var id :| id in s.pending;
      assert FinishEnabled(s, DrainTake(id));
    }
  }

  /** A waiting call that can receive finds a message, never a closed empty channel, and what a
      call received is the response with its own ID or, once the client has shut down, the error. */
  lemma ReceivedIsOwn(states: seq<Mux>, steps: seq<Step>, n: nat, c: Call)
    requires IsRun(states, steps) && n < |states| && c in states[n].calls
    ensures var s := states[n];
            && (CallEnabled(s, c, Receive) ==> s.channels[c].buffer.Some? && Fits(s, c, s.channels[c].buffer.value))
            && (s.calls[c].progress.Returned? && s.calls[c].progress.how.Received? ==>
                  var response := s.calls[c].progress.how.response;
                  && response.Some? && Fits(s, c, response.value)
                  && (forall d :: d in s.calls && d != c && response.value.Reply? ==>
                        !Fits(s, d, response.value)))
  {
    RunKeepsInv(states, steps, n);
    assert CallOk(states[n], c);
    KeysDiffer(states[n], c);
  }

  /** Nobody is forgotten at shutdown. Once the drain is done a call that still waits has its
      message, in its channel or in the hand of the read loop, and the map holds only calls that
      are about to find the client closed or to remove their entry. */
  lemma NoForgottenWaiter(states: seq<Mux>, steps: seq<Step>, n: nat, c: Call)
    requires IsRun(states, steps) && n < |states| && c in states[n].calls && AfterDrain(states[n])
    ensures var s := states[n];
            && (InMap(s, c) ==> s.calls[c].progress in {Inserted, Failing} && s.closed)
            && (s.calls[c].progress.Waiting? ==> InReader(s, c) || (CanReceive(s, c) && s.channels[c].buffer.Some?))
  {
    RunKeepsInv(states, steps, n);
    var s := states[n];
    assert CallOk(s, c);
    KeysDiffer(s, c);
    if InMap(s, c) {
      assert Leaving(s, Decimal(s.calls[c].id));
    }
  }

  /** A run that ends in this state. */
  ghost predicate Reaches(states: seq<Mux>, steps: seq<Step>, s: Mux) {
    IsRun(states, steps) && states[|steps|] == s
  }

  lemma Extended(states: seq<Mux>, steps: seq<Step>, s: Mux, step: Step, s': Mux)
    returns (states': seq<Mux>, steps': seq<Step>)
    requires Reaches(states, steps, s) && StepsTo(s, step, s')
    ensures Reaches(states', steps', s') && steps' == steps + [step]
  {
    states', steps' := states + [s'], steps + [step];
  }

  /** A state that some interleaving leads to. */
  ghost predicate Reached(s: Mux) {
    exists states, steps :: Reaches(states, steps, s)
  }

  lemma ReachedInv(s: Mux)
    requires Reached(s)
    ensures Inv(s) && s.channels.Keys == s.calls.Keys
  {
    var states, steps :| Reaches(states, steps, s);
    RunKeepsInv(states, steps, |steps|);
  }

  lemma ReachedStep(s: Mux, step: Step, s': Mux)
    requires Reached(s) && StepsTo(s, step, s')
    ensures Reached(s')
  {
    var states, steps :| Reaches(states, steps, s);
    var _, _ := Extended(states, steps, s, step, s');
  }

  lemma InitialReached()
    ensures Reached(INITIAL)
  {
    assert Reaches([INITIAL], [], INITIAL);
  }

  /** The calls that are left in the map after the drain take themselves out: such a call finds the
      client closed, and then nothing keeps it from removing its own entry, and only that. */
  lemma LeaversLeave(states: seq<Mux>, steps: seq<Step>, n: nat, c: Call, act: CallAct)
    requires IsRun(states, steps) && n < |states| && AfterDrain(states[n]) && CallEnabled(states[n], c, act)
    requires InMap(states[n], c)
    ensures var s := states[n];
            var s' := CallApply(s, c, act);
            if act.CheckAlive? then s'.calls[c].progress.Failing? && CallEnabled(s', c, RemoveOwn)
            else act.RemoveOwn? && !InMap(s', c) && forall d :: d in s.calls && d != c ==> InMap(s', d) == InMap(s, d)
  {
    RunKeepsInv(states, steps, n);
    KeysDiffer(states[n], c);
    assert Leaving(states[n], Decimal(states[n].calls[c].id));
  }

  // ----- What the drain leaves -----

  /** One round of the drain. */
  function DrainOne(s: Mux, id: string): Mux
    requires s.finisher.Draining? && id in s.pending && s.pending[id] in s.channels
  {
    var c := s.pending[id];
    s.(pending := s.pending - {id},
       channels := s.channels[c := Channel(Some(ShutdownError(s.error)), s.channels[c].sends + 1,
                                           s.channels[c].closes + 1)])
  }

  lemma DrainOneIsThreeSteps(s: Mux, id: string) returns (s1: Mux, s2: Mux)
    requires s.finisher.Draining? && id in s.pending
    requires s.pending[id] in s.channels && s.channels[s.pending[id]] == EMPTY_CHANNEL
    ensures StepsTo(s, FinishStep(DrainTake(id)), s1)
    ensures StepsTo(s1, FinishStep(DrainSend), s2)
    ensures StepsTo(s2, FinishStep(DrainShut), DrainOne(s, id))
  {
    var c := s.pending[id];
    s1 := s.(pending := s.pending - {id}, finisher := DrainSending(c));
    s2 := s1.(channels := s.channels[c := Channel(Some(ShutdownError(s.error)), 1, 0)], finisher := DrainShutting(c));
    assert DrainOne(s, id).channels == s2.channels[c := Channel(Some(ShutdownError(s.error)), 1, 1)];
  }

  /** The channel of a call once the drain is through. */
  function DrainedChannel(s: Mux, c: Call): Channel
    requires c in s.channels
  {
    if InMap(s, c) then Channel(Some(ShutdownError(s.error)), 1, 1) else s.channels[c]
  }

  /** What the whole drain leaves, whatever order it takes the entries in: the error in every
      channel that was in the map, each closed once, and an empty map. */
  function DrainedAll(s: Mux): Mux {
    s.(pending := map[], channels := map c | c in s.channels :: DrainedChannel(s, c))
  }

  lemma DrainOneKeepsChannel(s: Mux, id: string, d: Call)
    requires EntriesOk(s) && s.finisher.Draining? && id in s.pending && s.pending[id] in s.channels
    requires s.channels[s.pending[id]] == EMPTY_CHANNEL && d in s.channels && d in s.calls
    ensures DrainedChannel(DrainOne(s, id), d) == DrainedChannel(s, d)
  {
    assert EntryOk(s, id);
    KeysDiffer(s, s.pending[id]);
  }

  lemma SameDrainedChannels(s: Mux, s': Mux)
    requires s'.channels.Keys == s.channels.Keys
    requires forall c :: c in s.channels ==> DrainedChannel(s', c) == DrainedChannel(s, c)
    ensures DrainedAll(s').channels == DrainedAll(s).channels
  {
  }

  lemma {:induction false} DrainOrderFree(s: Mux, id: string)
    requires EntriesOk(s) && CallsOk(s) && s.finisher.Draining? && id in s.pending
    ensures s.pending[id] in s.channels && DrainedAll(DrainOne(s, id)) == DrainedAll(s)
  {
    var s' := DrainOne(s, id);
    forall d | d in s.channels ensures DrainedChannel(s', d) == DrainedChannel(s, d) {
      DrainOneKeepsChannel(s, id, d);
    }
    SameDrainedChannels(s, s');
  }

  /** A round of the drain is three steps of the machine, and what the drain will leave is settled. */
  lemma DrainRoundHolds(s: Mux, id: string)
    requires Reached(s) && s.finisher.Draining? && id in s.pending
    ensures s.pending[id] in s.channels && s.channels[s.pending[id]] == EMPTY_CHANNEL
    ensures Reached(DrainOne(s, id)) && DrainedAll(DrainOne(s, id)) == DrainedAll(s)
  {
    ReachedInv(s);
    var s1, s2 := DrainOneIsThreeSteps(s, id);
    ReachedStep(s, FinishStep(DrainTake(id)), s1);
    ReachedStep(s1, FinishStep(DrainSend), s2);
    ReachedStep(s2, FinishStep(DrainShut), DrainOne(s, id));
    DrainOrderFree(s, id);
  }

  /** What a whole `finish` leaves when it is the first. */
  function FinishedWith(s: Mux, error: Option<string>): Mux {
    DrainedAll(s.(closed := true, finisher := Draining, error := error)).(finisher := Done, done := Some(error))
  }

  lemma FinishBegins(s: Mux, error: Option<string>)
    requires Reached(s) && !s.closed
    ensures s.finisher.NotStarted? && s.done == None
    ensures Reached(s.(closed := true, finisher := Draining, error := error))
  {
    ReachedInv(s);
    var marked := s.(closed := true, finisher := Marked, error := error);
    ReachedStep(s, FinishStep(Mark(error)), marked);
    ReachedStep(marked, FinishStep(LockToDrain), marked.(finisher := Draining));
  }

  lemma FinishEnds(s: Mux)
    requires Reached(s) && s.finisher.Draining? && s.pending == map[]
    ensures Reached(s.(finisher := Done, done := Some(s.error)))
  {
    ReachedInv(s);
    var drained := s.(finisher := Drained);
    var signalled := s.(finisher := Signalled, done := Some(s.error));
    ReachedStep(s, FinishStep(Unlock), drained);
    ReachedStep(drained, FinishStep(Signal), signalled);
    ReachedStep(signalled, FinishStep(CloseDone), signalled.(finisher := Done));
  }

  // ----- What a call and a delivery leave -----

  lemma {:induction false} Numbers(s: Mux, c: Call)
    requires Reached(s) && c !in s.calls
    ensures Reached(CallApply(s, c, AllocateID)) && Decimal(s.nextID + 1) !in s.pending
  {
    ReachedStep(s, CallStep(c, AllocateID), CallApply(s, c, AllocateID));
    ReachedInv(s);
    NewKeyIsFree(s);
  }

  lemma Inserts(s: Mux, c: Call)
    requires Reached(s) && At(s, c, Numbered) && !Locked(s)
    ensures Reached(CallApply(s, c, Insert))
  {
    ReachedStep(s, CallStep(c, Insert), CallApply(s, c, Insert));
  }

  lemma Receives(s: Mux, c: Call)
    requires Reached(s) && CallEnabled(s, c, Receive)
    ensures s.channels[c].buffer.Some? && Fits(s, c, s.channels[c].buffer.value)
    ensures Reached(CallApply(s, c, Receive))
  {
    ReachedInv(s);
    assert CallOk(s, c);
    ReachedStep(s, CallStep(c, Receive), CallApply(s, c, Receive));
  }

  /** The rest of a call: a write that fails, also on a closed client, takes the entry out again. */
  function WrittenTo(s: Mux, c: Call, writes: bool): Mux
    requires c in s.calls
  {
    if writes && !s.closed then Moved(s, c, Waiting)
    else Moved(s, c, Returned(NotWritten)).(pending := s.pending - {Decimal(s.calls[c].id)})
  }

  lemma RequestWrites(s: Mux, c: Call, writes: bool)
    requires Reached(s) && At(s, c, Inserted) && !Locked(s)
    ensures Reached(WrittenTo(s, c, writes))
  {
    var checked := Moved(s, c, if s.closed then Failing else Writing);
    ReachedStep(s, CallStep(c, CheckAlive), checked);
    var written := if s.closed then checked else Moved(s, c, if writes then Waiting else Failing);
    if !s.closed {
      ReachedStep(checked, CallStep(c, Write(writes)), written);
    }
    if s.closed || !writes {
      ReachedStep(written, CallStep(c, RemoveOwn), WrittenTo(s, c, writes));
    }
  }

  /** What the read loop leaves of a response to a pending request. */
  function Answered(s: Mux, id: string, body: string): Mux
    requires id in s.pending
  {
    s.(pending := s.pending - {id}, channels := s.channels[s.pending[id] := Channel(Some(Reply(id, body)), 1, 1)])
  }

  lemma AnswerIsThreeSteps(s: Mux, id: string, body: string) returns (s1: Mux, s2: Mux)
    requires s.reader.Reading? && !Locked(s) && id in s.pending
    requires s.pending[id] in s.channels && s.channels[s.pending[id]] == EMPTY_CHANNEL
    ensures StepsTo(s, ReadStep(Take(id, body)), s1)
    ensures StepsTo(s1, ReadStep(Deliver), s2)
    ensures StepsTo(s2, ReadStep(Shut), Answered(s, id, body))
  {
    var c := s.pending[id];
    s1 := s.(pending := s.pending - {id}, reader := Delivering(c, Reply(id, body)));
    s2 := s1.(channels := s.channels[c := Channel(Some(Reply(id, body)), 1, 0)], reader := Shutting(c));
    assert Answered(s, id, body).channels == s2.channels[c := Channel(Some(Reply(id, body)), 1, 1)];
  }

  lemma AnswerArrives(s: Mux, id: string, body: string)
    requires Reached(s) && id in s.pending && s.reader.Reading? && !Locked(s)
    ensures s.pending[id] in s.channels && s.channels[s.pending[id]] == EMPTY_CHANNEL
    ensures Reached(Answered(s, id, body))
  {
    ReachedInv(s);
    var s1, s2 := AnswerIsThreeSteps(s, id, body);
    ReachedStep(s, ReadStep(Take(id, body)), s1);
    ReachedStep(s1, ReadStep(Deliver), s2);
    ReachedStep(s2, ReadStep(Shut), Answered(s, id, body));
  }

  /** What a call does not need to go on: a new call, a context that ends and a write that fails. */
  predicate Optional(act: CallAct) {
    act.AllocateID? || act.Abandon? || act == Write(false)
  }

  /** No step is left but a new call, the end of a call's context, a failing write, an unsolicited
      response, the end of the read loop, another `finish` or another reader of `done`. */
  ghost predicate Quiet(s: Mux) {
    && (forall c, act :: CallEnabled(s, c, act) ==> Optional(act))
    && !ReadEnabled(s, Deliver) && !ReadEnabled(s, Shut)
    && (forall act :: FinishEnabled(s, act) ==> act.Mark? || act.TakeDone?)
  }

  /** Once `done` is closed a call that has not returned can go on, though its context never ends
      and its write succeeds: a waiting one is woken. */
  lemma CallGoesOn(s: Mux, c: Call) returns (act: CallAct)
    requires c in s.calls && !s.calls[c].progress.Returned? && s.finisher.Done?
    ensures CallEnabled(s, c, act) && !Optional(act)
  {
    act := match s.calls[c].progress
      case Numbered => Insert
      case Inserted => CheckAlive
      case Writing => Write(true)
      case Waiting => Wake
      case _ => RemoveOwn;
  }

  /** When a client that was shut down comes to rest, though no context of a call ends and no write
      fails, every call has returned, the map is empty and every channel that was sent to was closed. */
  lemma ShutdownEndsEmpty(states: seq<Mux>, steps: seq<Step>, n: nat)
    requires IsRun(states, steps) && n < |states| && states[n].closed && Quiet(states[n])
    ensures var s := states[n];
            && s.pending == map[] && s.finisher.Done?
            && forall c :: c in s.calls ==>
                 s.calls[c].progress.Returned? && c in s.channels && s.channels[c].closes == s.channels[c].sends
  {
    var s := states[n];
    RunKeepsInv(states, steps, n);
    FinishNeverBlocks(states, steps, n);
    forall c | c in s.calls
      ensures s.calls[c].progress.Returned? && c in s.channels && s.channels[c].closes == s.channels[c].sends
    {
      EveryChannelHasOneOwner(states, steps, n, c);
      if !s.calls[c].progress.Returned? {
        var act := CallGoesOn(s, c);
        assert false;
      }
    }
  }

  /** The states of a client with one call, number 1 on the wire. */
  function Solo(progress: Progress, pending: map<string, Call>, channel: Channel, finisher: Finisher): Mux {
    Mux(1, pending, map[0 := CallState(1, progress)], map[0 := channel], !finisher.NotStarted?, Reading, finisher,
        if finisher.NotStarted? then None else Some("exit"), None)
  }

  const MINE: map<string, Call> := map["1" := 0]
  const SENT: Channel := Channel(Some(ShutdownError(Some("exit"))), 1, 0)
  const SPENT: Channel := SENT.(closes := 1)

  lemma SoloWaits() returns (states: seq<Mux>, steps: seq<Step>)
    ensures Reaches(states, steps, Solo(Waiting, MINE, EMPTY_CHANNEL, NotStarted))
  {
    assert Decimal(1) == "1";
    var numbered := Solo(Numbered, map[], EMPTY_CHANNEL, NotStarted);
    var inserted := Solo(Inserted, MINE, EMPTY_CHANNEL, NotStarted);
    var writing := Solo(Writing, MINE, EMPTY_CHANNEL, NotStarted);
    states, steps := Extended([INITIAL], [], INITIAL, CallStep(0, AllocateID), numbered);
    states, steps := Extended(states, steps, numbered, CallStep(0, Insert), inserted);
    states, steps := Extended(states, steps, inserted, CallStep(0, CheckAlive), writing);
    states, steps := Extended(states, steps, writing, CallStep(0, Write(true)),
                              writing.(calls := map[0 := CallState(1, Waiting)]));
  }

  lemma SoloDrains() returns (states: seq<Mux>, steps: seq<Step>)
    ensures Reaches(states, steps, Solo(Waiting, map[], SPENT, Drained))
  {
    var waiting := Solo(Waiting, MINE, EMPTY_CHANNEL, NotStarted);
    var marked := Solo(Waiting, MINE, EMPTY_CHANNEL, Marked);
    var draining := marked.(finisher := Draining);
    var taken := Solo(Waiting, map[], EMPTY_CHANNEL, DrainSending(0));
    var sent := Solo(Waiting, map[], SENT, DrainShutting(0));
    var shut := Solo(Waiting, map[], SPENT, Draining);
    states, steps := SoloWaits();
    states, steps := Extended(states, steps, waiting, FinishStep(Mark(Some("exit"))), marked);
    states, steps := Extended(states, steps, marked, FinishStep(LockToDrain), draining);
    assert MINE - {"1"} == map[];
    states, steps := Extended(states, steps, draining, FinishStep(DrainTake("1")), taken);
    states, steps := Extended(states, steps, taken, FinishStep(DrainSend), sent);
    states, steps := Extended(states, steps, sent, FinishStep(DrainShut), shut);
    states, steps := Extended(states, steps, shut, FinishStep(Unlock), shut.(finisher := Drained));
  }

  /** A call can return without an error and without a response: it is woken by `done` after
      another receiver took the error. */
  lemma SuccessWithoutResponse() returns (states: seq<Mux>, steps: seq<Step>)
    ensures IsRun(states, steps) && At(states[|steps|], 0, Returned(Woken(None)))
  {
    var drained := Solo(Waiting, map[], SPENT, Drained);
    var signalled := drained.(finisher := Signalled);
    var done := drained.(finisher := Done);
    states, steps := SoloDrains();
    states, steps := Extended(states, steps, drained, FinishStep(Signal), signalled.(done := Some(Some("exit"))));
    states, steps := Extended(states, steps, signalled.(done := Some(Some("exit"))), FinishStep(TakeDone), signalled);
    states, steps := Extended(states, steps, signalled, FinishStep(CloseDone), done);
    states, steps := Extended(states, steps, done, CallStep(0, Wake), Moved(done, 0, Returned(Woken(None))));
  }
}
