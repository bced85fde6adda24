/** The client's multiplexer as the program has it: an object whose methods update the map of waiting
    channels. Each method is a run of the machine's steps with no other goroutine in between. */
module RpcObjects {
  import opened Wrappers
  import opened RpcMux
  import opened RpcRuns

  /** A channel of capacity one. The preconditions are what keeps a send from blocking and a close
      from panicking. */
  class Slot {
    var buffer: Option<Response>
    var closed: bool

    constructor ()
      ensures buffer == None && !closed
    {
      buffer, closed := None, false;
    }

    method Send(response: Response)
      requires buffer == None && !closed
      modifies this`buffer
      ensures buffer == Some(response)
    {
      buffer := Some(response);
    }

    method Shut()
      requires !closed
      modifies this`closed
      ensures closed
    {
      closed := true;
    }

    method Receive() returns (response: Option<Response>)
      requires buffer.Some? || closed
      modifies this`buffer
      ensures response == old(buffer) && buffer == None
    {
      response := buffer;
      buffer := None;
    }
  }

  /** An entry of the map is the channel of the call the machine has there. */
  ghost predicate EntryIs(pending: map<string, Slot>, owners: map<string, Call>, slots: map<Call, Slot>, id: string) {
    id in pending && id in owners && owners[id] in slots && pending[id] == slots[owners[id]]
  }

  ghost predicate EntriesAre(pending: map<string, Slot>, owners: map<string, Call>, slots: map<Call, Slot>) {
    forall id :: id in pending ==> EntryIs(pending, owners, slots, id)
  }

  /** A call goes by its ID. */
  ghost predicate CallsAreIds(s: Mux) {
    forall c :: c in s.calls ==> s.calls[c].id == c <= s.nextID
  }

  lemma ActKeepsNumbers(s: Mux, c: Call, act: CallAct)
    requires CallsAreIds(s) && CallEnabled(s, c, act) && (act.AllocateID? ==> c == s.nextID + 1)
    ensures CallsAreIds(CallApply(s, c, act))
  {
  }

  lemma WriteKeepsNumbers(s: Mux, c: Call, writes: bool)
    requires CallsAreIds(s) && c in s.calls
    ensures CallsAreIds(WrittenTo(s, c, writes))
  {
  }

  lemma PutDelete<K, V>(m: map<K, V>, k: K, v: V)
    requires k !in m
    ensures m[k := v] - {k} == m
  {
  }

  class CodexClient {
    var nextID: nat
    var pending: map<string, Slot>
    var closed: bool
    var done: Option<Option<string>>

    /** The machine's state, and the channel each call made; a call goes by its ID. */
    ghost var mux: Mux
    ghost var slots: map<Call, Slot>
    ghost var objects: set<Slot>

    ghost predicate SlotOk(c: Call)
      requires c in slots
      reads this, slots[c]
    {
      && c in mux.channels && slots[c].buffer == mux.channels[c].buffer
      && slots[c].closed == (mux.channels[c].closes > 0)
    }

    /** The fields say what the machine's state says. */
    ghost predicate Matches()
      reads this, objects
    {
      && nextID == mux.nextID && closed == mux.closed && done == mux.done
      && pending.Keys == mux.pending.Keys && EntriesAre(pending, mux.pending, slots)
      && slots.Keys == mux.calls.Keys
      && (forall c :: c in slots ==> slots[c] in objects && SlotOk(c))
      && (forall c, d :: c in slots && d in slots && c != d ==> slots[c] != slots[d])
    }

    ghost predicate Valid()
      reads this, objects
    {
      && Reached(mux) && Matches()
      && mux.reader.Reading? && (mux.finisher.NotStarted? || mux.finisher.Done?)
      && CallsAreIds(mux)
    }

    constructor ()
      ensures Valid() && mux == INITIAL
    {
      InitialReached();
      nextID, pending, closed, done := 0, map[], false, None;
      mux, slots, objects := INITIAL, map[], {};
    }

    /** Sends to a channel that was taken out of the map and closes it. */
    method SendAndShut(slot: Slot, ghost c: Call, response: Response)
      requires Matches() && c in slots && slots[c] == slot
      requires mux.channels[c] == EMPTY_CHANNEL
      modifies slot, `mux
      ensures Matches() && slot.buffer == Some(response) && slot.closed
      ensures mux == old(mux).(channels := old(mux).channels[c := Channel(Some(response), 1, 1)])
    {
      slot.Send(response);
      slot.Shut();
      mux := mux.(channels := mux.channels[c := Channel(Some(response), 1, 1)]);
      assert forall d :: d in slots && d != c ==> slots[d] != slot;
    }

    /** `delete(c.pending, id)` */
    method Delete(id: string)
      requires Matches()
      modifies `pending, `mux
      ensures Matches() && pending == old(pending) - {id}
      ensures mux == old(mux).(pending := old(mux).pending - {id})
    {
      pending := pending - {id};
      mux := mux.(pending := mux.pending - {id});
      assert forall k :: k in pending ==> EntryIs(old(pending), old(mux).pending, slots, k);
    }

    /** One round of the drain: the entry is deleted, its channel sent the error and closed. */
    method DrainRound(id: string, error: Option<string>)
      requires Matches()
      requires id in pending && EntryIs(pending, mux.pending, slots, id) &&
          mux.channels[mux.pending[id]] == EMPTY_CHANNEL
      requires mux.finisher.Draining? && mux.error == error
      modifies `pending, `mux, pending[id]
      ensures Matches() && pending == old(pending) - {id} && mux == DrainOne(old(mux), id)
    {
      var slot := pending[id];
      ghost var c := mux.pending[id];
      Delete(id);
      SendAndShut(slot, c, ShutdownError(error));
    }

    /** The drain of `finish`, under the lock. */
    method Drain(error: Option<string>)
      requires Reached(mux) && Matches() && mux.finisher.Draining? && mux.error == error
      modifies `pending, `mux, objects
      ensures Reached(mux) && Matches() && pending == map[]
      ensures mux == DrainedAll(old(mux))
    {
      while pending != map[]
        invariant Reached(mux) && Matches() && mux.finisher.Draining? && mux.error == error
        invariant DrainedAll(mux) == DrainedAll(old(mux))
        decreases pending.Keys
      {
        var id :| id in pending;
        assert EntryIs(pending, mux.pending, slots, id);
        DrainRoundHolds(mux, id);
        assert pending[id] in old(objects);
        DrainRound(id, error);
      }
    }

    // ----- `request` -----

    /** A new ID for a new channel. */
    method Adopt(slot: Slot)
      requires Matches() && nextID + 1 !in mux.calls
      requires slot !in objects && slot.buffer == None && !slot.closed
      modifies `nextID, `mux, `slots, `objects
      ensures Matches() && nextID == old(nextID) + 1
      ensures slots == old(slots)[nextID := slot] && mux == CallApply(old(mux), nextID, AllocateID)
    {
      nextID := nextID + 1;
      mux, slots, objects := CallApply(mux, nextID, AllocateID), slots[nextID := slot], objects + {slot};
    }

    method Number() returns (id: nat, slot: Slot)
      requires Valid()
      modifies `nextID, `mux, `slots, `objects
      ensures Valid() && id == nextID == old(nextID) + 1 && Decimal(id) !in pending
      ensures fresh(slot) && slots == old(slots)[id := slot]
      ensures mux == CallApply(old(mux), id, AllocateID)
    {
      slot := new Slot();
      Numbers(mux, nextID + 1);
      assert Decimal(nextID + 1) !in pending;
      Adopt(slot);
      id := nextID;
    }

    /** The entry in the map. */
    method Put(id: nat, slot: Slot)
      requires Matches() && At(mux, id, Numbered) && !Locked(mux) && mux.calls[id].id == id
      requires id in slots && slots[id] == slot
      modifies `pending, `mux
      ensures Matches() && pending == old(pending)[Decimal(id) := slot]
      ensures CallEnabled(old(mux), id, Insert) && mux == CallApply(old(mux), id, Insert)
    {
      pending := pending[Decimal(id) := slot];
      mux := CallApply(mux, id, Insert);
    }

    /** The locked section of `request`. */
    method Enlist() returns (id: nat, slot: Slot)
      requires Valid()
      modifies `nextID, `pending, `mux, `slots, `objects
      ensures Valid() && id == nextID == old(nextID) + 1
      ensures fresh(slot) && slots == old(slots)[id := slot]
      ensures Decimal(id) !in old(pending) && pending == old(pending)[Decimal(id) := slot]
      ensures At(mux, id, Inserted)
    {
      id, slot := Number();
      Inserts(mux, id);
      ActKeepsNumbers(mux, id, Insert);
      Put(id, slot);
    }

    /** The last part of a call's start: an error of the write, or a closed client, takes the entry
        out again. */
    method WriteJson(id: nat, writes: bool) returns (ok: bool)
      requires Matches() && At(mux, id, Inserted) && mux.calls[id].id == id
      modifies `pending, `mux
      ensures Matches() && ok == (writes && !closed) && mux == WrittenTo(old(mux), id, writes)
      ensures pending == if ok then old(pending) else old(pending) - {Decimal(id)}
    {
      ok := !closed && writes;
      ghost var before := mux;
      if !ok {
        Delete(Decimal(id));
      }
      mux := WrittenTo(before, id, writes);
    }

    /** `request` up to its wait. A call that could not be written leaves no entry behind. */
    method Request(writes: bool) returns (id: nat, slot: Slot, ok: bool)
      requires Valid()
      modifies `nextID, `pending, `mux, `slots, `objects
      ensures Valid() && id == nextID == old(nextID) + 1 && ok == (writes && !closed)
      ensures fresh(slot) && slots == old(slots)[id := slot]
      ensures Decimal(id) !in old(pending)
      ensures pending == if ok then old(pending)[Decimal(id) := slot] else old(pending)
      ensures At(mux, id, if ok then Waiting else Returned(NotWritten))
    {
      ghost var before := pending;
      id, slot := Enlist();
      PutDelete(before, Decimal(id), slot);
      RequestWrites(mux, id, writes);
      WriteKeepsNumbers(mux, id, writes);
      ok := WriteJson(id, writes);
    }

    method TakeMessage(id: nat, slot: Slot) returns (response: Response)
      requires Matches() && id in slots && slots[id] == slot
      requires CallEnabled(mux, id, RpcMux.Receive) && slot.buffer.Some?
      modifies `mux, slot
      ensures Matches() && Some(response) == old(slot.buffer) && slot.buffer == None
      ensures mux == CallApply(old(mux), id, RpcMux.Receive)
    {
      var received := slot.Receive();
      response := received.value;
      mux := CallApply(mux, id, RpcMux.Receive);
      assert forall d :: d in slots && d != id ==> slots[d] != slot;
    }

    /** The wait of `request` when its channel is ready: there is a message in it, the call's own
        response or the error of a shutdown. */
    method Receive(id: nat, slot: Slot) returns (response: Response)
      requires Valid() && id in slots && slots[id] == slot
      requires At(mux, id, Waiting) && (slot.buffer.Some? || slot.closed)
      modifies `mux, slot
      ensures Valid() && Some(response) == old(slot.buffer) && slot.buffer == None
      ensures response.Reply? ==> response.id == Decimal(id)
      ensures response.Shutdown? ==> closed
      ensures At(mux, id, Returned(Received(Some(response))))
    {
      assert SlotOk(id);
      Receives(mux, id);
      response := TakeMessage(id, slot);
    }

    // ----- The response half of the read loop -----

    /** A response goes to the call whose ID it has, when that is still in the map. */
    method Deliver(id: string, body: string)
      requires Valid()
      modifies `pending, `mux, if id in pending then {pending[id]} else {}
      ensures Valid() && pending == old(pending) - {id}
      ensures mux == if id in old(pending) then Answered(old(mux), id, body) else old(mux)
      ensures id in old(pending) ==> old(pending)[id].buffer == Some(Reply(id, body)) && old(pending)[id].closed
    {
      if id !in pending {
        assert pending - {id} == pending;
        return;
      }
      assert EntryIs(pending, mux.pending, slots, id);
      AnswerArrives(mux, id, body);
      var slot := pending[id];
      ghost var c := mux.pending[id];
      Delete(id);
      SendAndShut(slot, c, Reply(id, body));
    }

    // ----- `finish` -----

    /** The closed flag is won and the lock taken. */
    method Mark(error: Option<string>)
      requires Matches() && !closed && Reached(mux)
      modifies `closed, `mux
      ensures Matches() && Reached(mux) && closed
      ensures mux == old(mux).(closed := true, finisher := Draining, error := error)
    {
      FinishBegins(mux, error);
      closed := true;
      mux := mux.(closed := true, finisher := Draining, error := error);
    }

    /** The lock is released, and `done` is sent the error and closed. */
    method SignalDone(error: Option<string>)
      requires Matches() && Reached(mux) && mux.finisher.Draining? && pending == map[] && mux.error == error
      modifies `done, `mux
      ensures Matches() && Reached(mux) && done == Some(error)
      ensures mux == old(mux).(finisher := Done, done := Some(error))
    {
      FinishEnds(mux);
      done := Some(error);
      mux := mux.(finisher := Done, done := Some(error));
    }

    /** The locked section of the first `finish`, with what becomes of the channels in the map. */
    method Empty(error: Option<string>)
      requires Matches() && Reached(mux) && !closed
      modifies `closed, `pending, `mux, objects
      ensures Matches() && Reached(mux) && closed && pending == map[]
      ensures mux == DrainedAll(old(mux).(closed := true, finisher := Draining, error := error))
      ensures forall id :: id in old(pending) ==>
                old(pending)[id].buffer == Some(ShutdownError(error)) && old(pending)[id].closed
    {
      ghost var was := pending;
      Mark(error);
      ghost var before := mux;
      ReachedInv(before);
      Drain(error);
    }

    method FinishFirst(error: Option<string>)
      requires Valid() && !closed
      modifies `closed, `pending, `done, `mux, objects
      ensures Valid() && closed && pending == map[] && done == Some(error) && mux == FinishedWith(old(mux), error)
      ensures forall id :: id in old(pending) ==>
                old(pending)[id].buffer == Some(ShutdownError(error)) && old(pending)[id].closed
    {
      Empty(error);
      SignalDone(error);
    }

    /** The first `finish` empties the map and leaves the error in every channel that was in it, closed
        once; any other one changes nothing. */
    method Finish(error: Option<string>)
      requires Valid()
      modifies `closed, `pending, `done, `mux, objects
      ensures Valid() && closed
      ensures old(closed) ==> pending == old(pending) && done == old(done) && mux == old(mux)
      ensures !old(closed) ==>
                && pending == map[] && done == Some(error) && mux == FinishedWith(old(mux), error)
                && forall id :: id in old(pending) ==>
                     && old(pending)[id].closed
                     && old(pending)[id].buffer ==
                        Some(Shutdown(if error.Some? then error.value else "codex app-server closed"))
    {
      if !closed {
        FinishFirst(error);
      }
    }
  }
}
