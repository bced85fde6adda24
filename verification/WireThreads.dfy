/** The thread and the prompts that a wire log tells of. */
module WireThreads {
  import opened Wrappers
  import A2A
  import opened BrokerModel
  import opened ExecutorModel
  import opened ExecutorRuns
  import opened WireDiscipline

  /** The prompt of the turn that runs, and those of the turns that Codex completed, by the wire log. */
  datatype Progress = Progress(running: Option<string>, done: seq<string>)

  function Advanced(p: Progress, w: Wire): Progress {
    match w
    case SentTurnStart(_, prompt, accepted) => if accepted then p.(running := Some(prompt)) else p
    case Got(TurnEnded(TurnDone)) => Progress(None, if p.running.Some? then p.done + [p.running.value] else p.done)
    case _ => p
  }

  function ProgressOf(wire: seq<Wire>): Progress {
    if wire == [] then Progress(None, [])
    else Advanced(ProgressOf(wire[..|wire| - 1]), wire[|wire| - 1])
  }

  /** The prompts whose turns Codex completed. */
  function CompletedPrompts(wire: seq<Wire>): seq<string> {
    ProgressOf(wire).done
  }

  lemma {:induction false} ProgressOneMore(wire: seq<Wire>, w: Wire)
    ensures ProgressOf(wire + [w]) == Advanced(ProgressOf(wire), w)
  {
    assert (wire + [w])[..|wire|] == wire;
  }

  /** The thread Codex made for the log's task: its first request asks for it. */
  ghost predicate ThreadMade(wire: seq<Wire>, parent: Option<ThreadId>, thread: ThreadId) {
    wire != [] && wire[0] == SentThread(parent, Some(thread))
  }

  /** What a mode says about the log that leads to it. */
  ghost predicate ModeFits(wire: seq<Wire>, mode: Mode) {
    match mode
    case New => wire == []
    case Idle(thread) => exists parent :: ThreadMade(wire, parent, thread)
    case Running(thread) => ProgressOf(wire).running.Some? && exists parent :: ThreadMade(wire, parent, thread)
    case Waiting(thread, _, _) => ProgressOf(wire).running.Some? && exists parent :: ThreadMade(wire, parent, thread)
    case Over => wire != []
  }

  /** Every turn of the log was started on the thread that its first request made. */
  ghost predicate OnOwnThread(wire: seq<Wire>) {
    forall i :: 0 <= i < |wire| && wire[i].SentTurnStart? ==>
        exists parent :: ThreadMade(wire, parent, wire[i].threadId)
  }

  lemma AdvanceFits(wire: seq<Wire>, w: Wire, mode: Mode)
    requires ModeFits(wire, mode) && OnOwnThread(wire) && Advance(mode, w).Some?
    ensures ModeFits(wire + [w], Advance(mode, w).value) && OnOwnThread(wire + [w])
  {
    var wire' := wire + [w];
    ProgressOneMore(wire, w);
    if mode.New? {
      assert wire' == [w];
      assert w.made.Some? ==> ThreadMade(wire', w.parent, w.made.value);
    } else {
      assert wire'[0] == wire[0];
      forall parent, thread | ThreadMade(wire, parent, thread) ensures ThreadMade(wire', parent, thread) {
      }
      forall i | 0 <= i < |wire'| && wire'[i].SentTurnStart?
        ensures exists parent :: ThreadMade(wire', parent, wire'[i].threadId)
      {
        if i < |wire| {
          assert wire'[i] == wire[i];
          var parent :| ThreadMade(wire, parent, wire[i].threadId);
          assert ThreadMade(wire', parent, wire'[i].threadId);
        }
      }
    }
  }

  lemma {:induction false} TrackFits(wire: seq<Wire>)
    requires Track(New, wire).Some?
    ensures ModeFits(wire, Track(New, wire).value) && OnOwnThread(wire)
  {
    if wire != [] {
      var before, w := wire[..|wire| - 1], wire[|wire| - 1];
      assert wire == before + [w];
      TrackOfPrefix(New, before, [w]);
      TrackOfSum(New, before, [w]);
      TrackFits(before);
      assert [w][1..] == [];
      AdvanceFits(before, w, Track(New, before).value);
    }
  }

  /** The discipline of a log: when it goes on with a message of Codex a turn runs, with the prompt that
      started it; and its thread is made first of all. */
  lemma {:induction false} DisciplineTells(wire: seq<Wire>, w: Wire)
    requires Track(New, wire + [w]).Some?
    ensures w.Got? ==> ProgressOf(wire).running.Some?
    ensures w.SentThread? ==> wire == []
    ensures OnOwnThread(wire)
  {
    TrackOfPrefix(New, wire, [w]);
    TrackOfSum(New, wire, [w]);
    TrackFits(wire);
  }
}
