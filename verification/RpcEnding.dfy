/** How a client of the app server ends. */
module RpcEnding {
  // Who learns of the error, and that everything comes to rest.

  import opened Wrappers
  import opened RpcMux
  import opened RpcSteps
  import opened RpcRuns

  // ----- Who gets the error out of `done` -----

  /** A step that takes the error out of `done`: another receiver's, or a waiting call's. */
  predicate TakesDone(s: Mux, step: Step) {
    && s.done.Some?
    && (step == FinishStep(TakeDone) || (step.CallStep? && step.call_act.Wake? && At(s, step.call, Waiting)))
  }

  ghost predicate Taken(states: seq<Mux>, steps: seq<Step>, n: nat)
    requires n <= |steps| < |states|
  {
    exists k: nat :: k < n && TakesDone(states[k], steps[k])
  }

  predicate Signalled(s: Mux) {
    s.finisher.Signalled? || s.finisher.Done?
  }

  /** The error is in `done` from the signal on until one receiver takes it. */
  ghost predicate ErrorInDone(s: Mux, taken: bool) {
    && (s.done.Some? ==> s.done.value == s.error)
    && (s.done.Some? <==> Signalled(s) && !taken)
    && (taken ==> Signalled(s))
    && (!s.finisher.NotStarted? ==> s.closed)
  }

  /** A call step moves its own call on, and no other step moves any. */
  lemma StepMovesOwn(s: Mux, step: Step, s': Mux, d: Call)
    requires StepsTo(s, step, s') && !(step.CallStep? && step.call == d)
    ensures (d in s'.calls <==> d in s.calls) && (d in s.calls ==> s'.calls[d] == s.calls[d])
  {
    match step
    case CallStep(c, act) =>
    case ReadStep(act) => assert ReadApply(s, act).calls == s.calls;
    case FinishStep(act) => assert FinishApply(s, act).calls == s.calls;
  }

  lemma FinishKeepsError(s: Mux, act: FinishAct, taken: bool)
    requires FinishEnabled(s, act) && ErrorInDone(s, taken)
    ensures ErrorInDone(FinishApply(s, act), taken || (act.TakeDone? && s.done.Some?))
  {
  }

  lemma StepKeepsError(s: Mux, step: Step, s': Mux, taken: bool)
    requires StepsTo(s, step, s') && ErrorInDone(s, taken)
    ensures ErrorInDone(s', taken || TakesDone(s, step))
    ensures taken ==> !TakesDone(s, step)
  {
    match step
    case CallStep(c, act) =>
    case ReadStep(act) =>
    case FinishStep(act) => FinishKeepsError(s, act, taken);
  }

  lemma {:induction false} RunKeepsError(states: seq<Mux>, steps: seq<Step>, n: nat)
    requires IsRun(states, steps) && n <= |steps|
    ensures ErrorInDone(states[n], Taken(states, steps, n))
  {
    if n > 0 {
      RunKeepsError(states, steps, n - 1);
      StepKeepsError(states[n - 1], steps[n - 1], states[n], Taken(states, steps, n - 1));
      assert Taken(states, steps, n) <==> Taken(states, steps, n - 1) || TakesDone(states[n - 1], steps[n - 1]);
    }
  }

  /** A call that is woken returns without an error, and so without an error and without a response,
      exactly when the client ended without an error, or another receiver took it before. */
  lemma WakeWithoutError(states: seq<Mux>, steps: seq<Step>, n: nat, c: Call)
    requires IsRun(states, steps) && n < |steps| && steps[n] == CallStep(c, Wake)
    ensures c in states[n + 1].calls
    ensures states[n + 1].calls[c].progress ==
            Returned(Woken(if Taken(states, steps, n) then None else states[n].error))
    ensures states[n + 1].calls[c].progress == Returned(Woken(None)) <==>
            states[n].error == None || exists k: nat :: k < n && TakesDone(states[k], steps[k])
  {
    RunKeepsError(states, steps, n);
    assert StepsTo(states[n], steps[n], states[n + 1]);
  }

  /** At most one receiver ever gets the error. */
  lemma ErrorIsTakenOnce(states: seq<Mux>, steps: seq<Step>, j: nat, k: nat)
    requires IsRun(states, steps) && j < k < |steps|
    requires TakesDone(states[j], steps[j])
    ensures !TakesDone(states[k], steps[k])
  {
    RunKeepsError(states, steps, k);
    assert Taken(states, steps, k);
  }

  // ----- Nothing is made up -----

  /** The error of a client that ended is what the first `finish` was given. */
  lemma {:induction false} ErrorWasGiven(states: seq<Mux>, steps: seq<Step>, n: nat) returns (k: nat)
    requires IsRun(states, steps) && n <= |steps| && states[n].closed
    ensures k < n && !states[k].closed && steps[k] == FinishStep(Mark(states[n].error))
  {
    assert StepsTo(states[n - 1], steps[n - 1], states[n]);
    if states[n - 1].closed {
      k := ErrorWasGiven(states, steps, n - 1);
      StepKeepsGivenError(states[n - 1], steps[n - 1], states[n]);
    } else {
      k := n - 1;
      StepGivesError(states[n - 1], steps[n - 1], states[n]);
    }
  }

  lemma StepKeepsGivenError(s: Mux, step: Step, s': Mux)
    requires StepsTo(s, step, s') && s.closed
    ensures s'.error == s.error && s'.closed
  {
  }

  lemma StepGivesError(s: Mux, step: Step, s': Mux)
    requires StepsTo(s, step, s') && !s.closed && s'.closed
    ensures step == FinishStep(Mark(s'.error))
  {
  }

  /** A call has been handed a response, or the read loop is about to. */
  predicate HasReply(s: Mux, c: Call, response: Response) {
    || (c in s.channels && s.channels[c].buffer == Some(response))
    || (s.reader == Delivering(c, response))
    || (c in s.calls && s.calls[c].progress == Returned(Received(Some(response))))
  }

  lemma CallHandsNothing(s: Mux, d: Call, act: CallAct, c: Call, response: Response)
    requires CallEnabled(s, d, act) && HasReply(CallApply(s, d, act), c, response)
    ensures HasReply(s, c, response)
  {
  }

  lemma FinishHandsErrors(s: Mux, act: FinishAct, c: Call, response: Response)
    requires FinishEnabled(s, act) && HasReply(FinishApply(s, act), c, response) && response.Reply?
    ensures HasReply(s, c, response)
  {
  }

  lemma ReadHands(s: Mux, act: ReadAct, c: Call, response: Response)
    requires ReadEnabled(s, act) && HasReply(ReadApply(s, act), c, response) && !HasReply(s, c, response)
    ensures response.Reply? && act == Take(response.id, response.body)
    ensures response.id in s.pending && s.pending[response.id] == c
  {
  }

  lemma StepHandsReply(s: Mux, step: Step, s': Mux, c: Call, response: Response)
    requires StepsTo(s, step, s') && HasReply(s', c, response) && response.Reply? && !HasReply(s, c, response)
    ensures step == ReadStep(Take(response.id, response.body)) && response.id in s.pending &&
        s.pending[response.id] == c
  {
    match step
    case CallStep(d, act) => CallHandsNothing(s, d, act, c, response);
    case ReadStep(act) => ReadHands(s, act, c, response);
    case FinishStep(act) => FinishHandsErrors(s, act, c, response);
  }

  lemma NothingAtFirst(c: Call, response: Response)
    ensures !HasReply(INITIAL, c, response)
  {
  }

  /** A response that a call received, or has waiting, is one that Codex sent under an ID that was the call's in
      the map by then, unaltered. */
  lemma {:induction false} ReplyWasTaken(states: seq<Mux>, steps: seq<Step>, n: nat, c: Call, response: Response)
    returns (k: nat)
    requires IsRun(states, steps) && n <= |steps| && HasReply(states[n], c, response) && response.Reply?
    ensures k < n && steps[k] == ReadStep(Take(response.id, response.body))
    ensures response.id in states[k].pending && states[k].pending[response.id] == c
  {
    if n == 0 {
      NothingAtFirst(c, response);
    } else if HasReply(states[n - 1], c, response) {
      k := ReplyWasTaken(states, steps, n - 1, c, response);
    } else {
      k := n - 1;
      assert StepsTo(states[k], steps[k], states[k + 1]);
      StepHandsReply(states[k], steps[k], states[k + 1], c, response);
    }
  }

  // ----- When success means a response -----

  /** A call that returned without an error: with a response, or woken by an empty `done`. */
  predicate NoError(how: Return) {
    (how.Received? && how.response.Some? && how.response.value.Reply?) || how == Woken(None)
  }

  lemma ReturnedForGood(s: Mux, step: Step, s': Mux, c: Call)
    requires StepsTo(s, step, s') && c in s.calls && s.calls[c].progress.Returned?
    ensures c in s'.calls && s'.calls[c] == s.calls[c]
  {
    if !(step.CallStep? && step.call == c) {
      StepMovesOwn(s, step, s', c);
    }
  }

  ghost predicate IsReturned(s: Mux, c: Call, was: CallState) {
    c in s.calls && s.calls[c] == was && was.progress.Returned?
  }

  lemma {:induction false} StaysThroughout(states: seq<Mux>, k: nat, n: nat, c: Call, was: CallState)
    requires k <= n < |states| && IsReturned(states[k], c, was)
    requires forall i: nat :: k <= i < n && IsReturned(states[i], c, was) ==> IsReturned(states[i + 1], c, was)
    ensures IsReturned(states[n], c, was)
  {
    if k < n {
      StaysThroughout(states, k, n - 1, c, was);
      assert IsReturned(states[n - 1], c, was) ==> IsReturned(states[n - 1 + 1], c, was);
    }
  }

  lemma StaysReturned(states: seq<Mux>, steps: seq<Step>, k: nat, n: nat, c: Call, was: CallState)
    requires IsRun(states, steps) && k <= n <= |steps|
    requires c in states[k].calls && states[k].calls[c] == was && was.progress.Returned?
    ensures c in states[n].calls && states[n].calls[c] == was
  {
    forall i: nat | k <= i < n && IsReturned(states[i], c, was) ensures IsReturned(states[i + 1], c, was) {
      ReturnedForGood(states[i], steps[i], states[i + 1], c);
    }
    StaysThroughout(states, k, n, c, was);
  }

  /** The act that makes a call return in this way. */
  predicate ReturnsBy(act: CallAct, how: Return) {
    match how
    case Received(_) => act == Receive
    case Woken(_) => act == Wake
    case Abandoned => act == Abandon
    case NotWritten => act == RemoveOwn
  }

  lemma ActReturns(s: Mux, step: Step, s': Mux, c: Call)
    requires StepsTo(s, step, s') && c in s'.calls && s'.calls[c].progress.Returned?
    requires !(c in s.calls && s.calls[c].progress.Returned?)
    ensures step.CallStep? && step.call == c && ReturnsBy(step.call_act, s'.calls[c].progress.how)
  {
    if !(step.CallStep? && step.call == c) {
      StepMovesOwn(s, step, s', c);
    }
  }

  /** How a call returned is what it did last: it received, was woken, was abandoned by its context, or took its
      entry back because it could not write. */
  lemma {:induction false} ReturnedByAct(states: seq<Mux>, steps: seq<Step>, n: nat, c: Call) returns (k: nat)
    requires IsRun(states, steps) && n <= |steps| && c in states[n].calls && states[n].calls[c].progress.Returned?
    ensures k < n && steps[k].CallStep? && steps[k].call == c
    ensures ReturnsBy(steps[k].call_act, states[n].calls[c].progress.how)
  {
    var s, s' := states[n - 1], states[n];
    assert StepsTo(s, steps[n - 1], s');
    if c in s.calls && s.calls[c].progress.Returned? {
      k := ReturnedByAct(states, steps, n - 1, c);
      ReturnedForGood(s, steps[n - 1], s', c);
    } else {
      k := n - 1;
      ActReturns(s, steps[k], s', c);
    }
  }

  lemma OnlyWakeWakes(s: Mux, step: Step, s': Mux, c: Call)
    requires StepsTo(s, step, s') && c in s'.calls && step != CallStep(c, Wake)
    requires s'.calls[c].progress.Returned? && s'.calls[c].progress.how.Woken?
    ensures c in s.calls && s.calls[c] == s'.calls[c]
  {
    if !(step.CallStep? && step.call == c) {
      StepMovesOwn(s, step, s', c);
    }
  }

  /** The step that woke a call. */
  lemma {:induction false} WasWoken(states: seq<Mux>, steps: seq<Step>, n: nat, c: Call) returns (k: nat)
    requires IsRun(states, steps) && n <= |steps| && c in states[n].calls
    requires states[n].calls[c].progress.Returned? && states[n].calls[c].progress.how.Woken?
    ensures k < n && steps[k] == CallStep(c, Wake) && c in states[k + 1].calls
    ensures states[k + 1].calls[c].progress == states[n].calls[c].progress
  {
    assert n > 0;
    k := n - 1;
    if steps[n - 1] != CallStep(c, Wake) {
      OnlyWakeWakes(states[n - 1], steps[n - 1], states[n], c);
      k := WasWoken(states, steps, n - 1, c);
    }
  }

  /** The call was woken when the client had ended without an error, or another receiver had taken the
      error. */
  ghost predicate WokenInVain(states: seq<Mux>, steps: seq<Step>, n: nat, c: Call)
    requires n <= |steps| < |states|
  {
    exists k: nat ::
      k < n && steps[k] == CallStep(c, Wake) && (states[k].error == None || Taken(states, steps, k))
  }

  /** A call that returned without an error has a response, and then its own, exactly when it was not
      woken in vain. */
  lemma {:induction false} SuccessHasResponse(states: seq<Mux>, steps: seq<Step>, n: nat, c: Call)
    requires IsRun(states, steps) && n <= |steps| && c in states[n].calls
    requires states[n].calls[c].progress.Returned? && NoError(states[n].calls[c].progress.how)
    ensures var how := states[n].calls[c].progress.how;
            && (how.Received? <==> !WokenInVain(states, steps, n, c))
            && (how.Received? ==> how.response.value.id == Decimal(states[n].calls[c].id))
  {
    var how := states[n].calls[c].progress.how;
    ReceivedIsOwn(states, steps, n, c);
    if how.Woken? {
      var k := WasWoken(states, steps, n, c);
      WakeWithoutError(states, steps, k, c);
    } else {
      forall k: nat | k < n && steps[k] == CallStep(c, Wake) ensures false {
        WakeWithoutError(states, steps, k, c);
        StaysReturned(states, steps, k + 1, n, c, states[k + 1].calls[c]);
      }
    }
  }

  // ----- Everything comes to rest -----

  /** How many steps a call is from its return, at most. An insert leaves an entry to take out again. */
  function CallRank(progress: Progress): nat {
    match progress
    case Numbered => 8
    case Inserted => 4
    case Writing => 3
    case Waiting => 2
    case Failing => 1
    case Returned(_) => 0
  }

  function ReaderRank(reader: Reader): nat {
    match reader
    case Delivering(_, _) => 2
    case Shutting(_) => 1
    case _ => 0
  }

  function FinisherRank(finisher: Finisher): nat {
    match finisher
    case NotStarted => 6
    case Marked => 5
    case Draining => 4
    case DrainSending(_) => 6
    case DrainShutting(_) => 5
    case Drained => 3
    case Signalled => 2
    case Done => 1
  }

  ghost function CallRanks(calls: map<Call, CallState>, among: set<Call>): nat
    requires among <= calls.Keys
  {
    if among == {} then 0
    else
      var c :| c in among;
      CallRank(calls[c].progress) + CallRanks(calls, among - {c})
  }

  lemma {:induction false} CallRanksSplit(calls: map<Call, CallState>, among: set<Call>, c: Call)
    requires among <= calls.Keys && c in among
    ensures CallRanks(calls, among) == CallRank(calls[c].progress) + CallRanks(calls, among - {c})
    decreases |among|
  {
    var d :| d in among && CallRanks(calls, among) == CallRank(calls[d].progress) + CallRanks(calls, among - {d});
    if d != c {
      CallRanksSplit(calls, among - {d}, c);
      CallRanksSplit(calls, among - {c}, d);
      assert among - {d} - {c} == among - {c} - {d};
    }
  }

  lemma {:induction false} CallRanksSame(calls: map<Call, CallState>, calls': map<Call, CallState>, among: set<Call>)
    requires among <= calls.Keys && among <= calls'.Keys
    requires forall c :: c in among ==> calls'[c].progress == calls[c].progress
    ensures CallRanks(calls', among) == CallRanks(calls, among)
    decreases |among|
  {
    if among != {} {
      var c :| c in among;
      CallRanksSplit(calls, among, c);
      CallRanksSplit(calls', among, c);
      CallRanksSame(calls, calls', among - {c});
    }
  }

  /** What is left to do: the calls, three steps for each entry of the map, and the hands. */
  ghost function Left(s: Mux): nat {
    CallRanks(s.calls, s.calls.Keys) + 3 * |s.pending| + ReaderRank(s.reader) + FinisherRank(s.finisher)
  }

  /** A step that does some of it. */
  predicate Works(s: Mux, step: Step) {
    match step
    case CallStep(_, act) => !Optional(act)
    case ReadStep(act) => act.Deliver? || act.Shut? || (act.Take? && act.id in s.pending)
    case FinishStep(act) => !act.TakeDone? && (act.Mark? ==> !s.closed)
  }

  predicate NewCall(step: Step) {
    step.CallStep? && step.call_act.AllocateID?
  }

  lemma {:induction false} MovedRanks(s: Mux, s': Mux, c: Call, progress: Progress)
    requires c in s.calls && s'.calls == Moved(s, c, progress).calls
    ensures CallRanks(s'.calls, s'.calls.Keys) + CallRank(s.calls[c].progress) ==
            CallRanks(s.calls, s.calls.Keys) + CallRank(progress)
  {
    assert s'.calls.Keys == s.calls.Keys;
    CallRanksSplit(s.calls, s.calls.Keys, c);
    CallRanksSplit(s'.calls, s.calls.Keys, c);
    CallRanksSame(s.calls, s'.calls, s.calls.Keys - {c});
  }

  /** How a call step changes the calls and the map. */
  lemma {:induction false} CallMovesOnce(s: Mux, c: Call, act: CallAct)
    requires CallEnabled(s, c, act) && !act.AllocateID?
    ensures var s' := CallApply(s, c, act);
            && s'.calls == Moved(s, c, s'.calls[c].progress).calls
            && CallRank(s'.calls[c].progress) + (if act.Insert? then 3 else 0) < CallRank(s.calls[c].progress)
            && s'.reader == s.reader && s'.finisher == s.finisher
            && (s'.pending == s.pending || s'.pending == s.pending - {Decimal(s.calls[c].id)} ||
                (act.Insert? && s'.pending == s.pending[Decimal(s.calls[c].id) := c]))
  {
  }

  lemma CallLeavesLess(s: Mux, c: Call, act: CallAct)
    requires CallEnabled(s, c, act) && !act.AllocateID?
    ensures Left(CallApply(s, c, act)) < Left(s)
  {
    var s' := CallApply(s, c, act);
    CallMovesOnce(s, c, act);
    MovedRanks(s, s', c, s'.calls[c].progress);
    FewerEntries(s.pending, Decimal(s.calls[c].id), c);
  }

  lemma FewerEntries(m: map<string, Call>, id: string, c: Call)
    ensures |m[id := c]| <= |m| + 1 && |m - {id}| <= |m|
    ensures id in m ==> |m - {id}| == |m| - 1
  {
    assert m[id := c].Keys == m.Keys + {id};
    assert (m - {id}).Keys == m.Keys - {id};
  }

  lemma ReadLeavesLess(s: Mux, act: ReadAct)
    requires ReadEnabled(s, act)
    ensures Left(ReadApply(s, act)) <= Left(s)
    ensures Works(s, ReadStep(act)) ==> Left(ReadApply(s, act)) < Left(s)
  {
    if act.Take? && act.id in s.pending {
      FewerEntries(s.pending, act.id, s.pending[act.id]);
    }
  }

  lemma FinishLeavesLess(s: Mux, act: FinishAct)
    requires FinishEnabled(s, act) && (!s.closed <==> s.finisher.NotStarted?)
    ensures Left(FinishApply(s, act)) <= Left(s)
    ensures Works(s, FinishStep(act)) ==> Left(FinishApply(s, act)) < Left(s)
  {
    if act.DrainTake? {
      FewerEntries(s.pending, act.id, s.pending[act.id]);
    }
  }

  /** Nothing but a new call leaves more to do, and every working step leaves less. */
  lemma StepLeavesLess(s: Mux, step: Step, s': Mux)
    requires Inv(s) && StepsTo(s, step, s') && !NewCall(step)
    ensures Left(s') <= Left(s) && (Works(s, step) ==> Left(s') < Left(s))
  {
    match step
    case CallStep(c, act) => CallLeavesLess(s, c, act);
    case ReadStep(act) => ReadLeavesLess(s, act);
    case FinishStep(act) => FinishLeavesLess(s, act);
  }

  /** The working steps from `m` to `n`. */
  ghost function WorkDone(states: seq<Mux>, steps: seq<Step>, m: nat, n: nat): nat
    requires m <= n <= |steps| < |states|
    decreases n
  {
    if n == m then 0 else WorkDone(states, steps, m, n - 1) + if Works(states[n - 1], steps[n - 1]) then 1 else 0
  }

  /** While no call is new, whatever the interleaving, the calls, the read loop and `finish` take no
      more steps than are left: nothing goes on for ever. */
  lemma {:induction false} WorkIsBounded(states: seq<Mux>, steps: seq<Step>, m: nat, n: nat)
    requires IsRun(states, steps) && m <= n <= |steps|
    requires forall i :: m <= i < n ==> !NewCall(steps[i])
    ensures WorkDone(states, steps, m, n) + Left(states[n]) <= Left(states[m])
  {
    if m < n {
      WorkIsBounded(states, steps, m, n - 1);
      RunKeepsInv(states, steps, n - 1);
      StepLeavesLess(states[n - 1], steps[n - 1], states[n]);
    }
  }

  /** Until it is quiet, a client has work that it can do. */
  lemma SomeWork(s: Mux) returns (step: Step)
    requires !Quiet(s)
    ensures Enabled(s, step) && Works(s, step) && !NewCall(step)
  {
    if ReadEnabled(s, Deliver) {
      step := ReadStep(Deliver);
    } else if ReadEnabled(s, Shut) {
      step := ReadStep(Shut);
    } else if act :| FinishEnabled(s, act) && !act.Mark? && !act.TakeDone? {
      step := FinishStep(act);
    } else {
      var c, act :| CallEnabled(s, c, act) && !Optional(act);
      step := CallStep(c, act);
    }
  }

  /** A client that was shut down comes to rest: from wherever it is, without a new call, without a
      context that ends and without a write that fails, it gets to where every call has returned and
      the map is empty, in no more steps than are left. */
  lemma {:induction false} ShutdownComesToRest(states: seq<Mux>, steps: seq<Step>, s: Mux)
    returns (states': seq<Mux>, steps': seq<Step>, s': Mux)
    requires Reaches(states, steps, s) && s.closed
    ensures Reaches(states', steps', s') && s'.closed && Quiet(s')
    ensures steps <= steps' && |steps'| <= |steps| + Left(s)
    ensures forall i :: |steps| <= i < |steps'| ==> !NewCall(steps'[i])
    ensures s'.pending == map[] && s'.calls.Keys == s.calls.Keys
    ensures forall c :: c in s'.calls ==> s'.calls[c].progress.Returned?
    decreases Left(s)
  {
    if Quiet(s) {
      states', steps', s' := states, steps, s;
      ShutdownEndsEmpty(states, steps, |steps|);
    } else {
      var step := SomeWork(s);
      var next := Apply(s, step);
      RunKeepsInv(states, steps, |steps|);
      StepLeavesLess(s, step, next);
      StaysClosed(s, step, next);
      states', steps' := Extended(states, steps, s, step, next);
      states', steps', s' := ShutdownComesToRest(states', steps', next);
    }
  }

  lemma StaysClosed(s: Mux, step: Step, s': Mux)
    requires StepsTo(s, step, s') && !NewCall(step)
    ensures s.closed ==> s'.closed
    ensures s'.calls.Keys == s.calls.Keys
  {
  }
}
