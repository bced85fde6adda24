/** What is sent to Codex, reply by reply. */
module Replies {
  import opened Wrappers
  import opened A2A
  import opened BrokerModel
  import opened ExecutorModel

  // ----- What a reply says -----

  /** White space, by its code points. */
  predicate Blank(c: char) {
    var n := c as int;
    || 9 <= n <= 13 || n == 32 || n == 133 || n == 160 || n == 5760 || 8192 <= n <= 8202
    || n == 8232 || n == 8233 || n == 8239 || n == 8287 || n == 12288
  }

  /** A small letter, or one whose lower case it is: its capital, the dotted capital I, the Kelvin sign. */
  predicate Letter(c: char, small: char) {
    || c == small || ('a' <= small <= 'z' && c as int == small as int - 32)
    || (small == 'i' && c as int == 304) || (small == 'k' && c as int == 8490)
  }

  predicate IsWord(word: string) {
    word != "" && forall k :: 0 <= k < |word| ==> 'a' <= word[k] <= 'z'
  }

  /** From `i` to `j` a text says the word, in any case, and all around is blank. */
  predicate SaysAt(text: string, word: string, i: nat, j: nat) {
    && i <= j <= |text| && j - i == |word|
    && (forall k :: 0 <= k < i ==> Blank(text[k])) && (forall k :: j <= k < |text| ==> Blank(text[k]))
    && (forall k :: 0 <= k < |word| ==> Letter(text[i + k], word[k]))
  }

  ghost predicate Says(text: string, word: string) {
    exists i: nat, j: nat :: SaysAt(text, word, i, j)
  }

  ghost predicate SaysOneOf(text: string, words: set<string>) {
    exists word :: word in words && Says(text, word)
  }

  /** The reply gives this answer: a structured one its decision, or its action and content; a text only
      one of a few words. */
  ghost predicate Gives(message: UserMessage, kind: PendingKind, answer: Answer) {
    match message.data
    case Some(fields) =>
      if kind == Elicitation
      then "action" in fields &&
           answer == Action(fields["action"], if "content" in fields then Some(fields["content"]) else None)
      else "decision" in fields && answer == Decision(fields["decision"])
    case None =>
      if kind == Elicitation
      then
        || (answer == Action("decline", None) && Says(message.text, "decline"))
        || (answer == Action("cancel", None) && Says(message.text, "cancel"))
      else
        || (answer == Decision("accept") && SaysOneOf(message.text, {"accept", "approve", "approved", "yes", "y"}))
        || (answer == Decision("decline") && SaysOneOf(message.text, {"decline", "deny", "reject", "no", "n"}))
        || (answer == Decision("cancel") && Says(message.text, "cancel"))
  }

  // ----- Trimming and lower case -----

  lemma BlankIsSpace(c: char)
    ensures IsSpace(c) <==> Blank(c)
  {
  }

  lemma LowerIsLetter(c: char, small: char)
    requires 'a' <= small <= 'z'
    ensures Lower(c) == small <==> Letter(c, small)
    ensures Letter(c, small) ==> !Blank(c)
  {
  }

  /** Trimming takes the blanks from both ends, and no more. */
  ghost predicate Trims(text: string, core: string, i: nat, j: nat) {
    && i <= j <= |text| && core == text[i..j]
    && (forall k :: 0 <= k < i ==> Blank(text[k])) && (forall k :: j <= k < |text| ==> Blank(text[k]))
    && (core != "" ==> !Blank(core[0]) && !Blank(core[|core| - 1]))
  }

  lemma {:induction false} TrimLeftTrims(text: string) returns (i: nat)
    ensures i <= |text| && TrimLeft(text) == text[i..] && forall k :: 0 <= k < i ==> Blank(text[k])
    ensures i < |text| ==> !Blank(text[i])
  {
    i := 0;
    if text != "" {
      BlankIsSpace(text[0]);
      if Blank(text[0]) {
        var rest := TrimLeftTrims(text[1..]);
        i := rest + 1;
        assert forall k :: 0 < k < i ==> text[k] == text[1..][k - 1];
      }
    }
  }

  lemma {:induction false} TrimRightTrims(text: string) returns (j: nat)
    ensures j <= |text| && TrimRight(text) == text[..j] && forall k :: j <= k < |text| ==> Blank(text[k])
    ensures j > 0 ==> !Blank(text[j - 1])
  {
    j := |text|;
    if text != "" {
      BlankIsSpace(text[|text| - 1]);
      if Blank(text[|text| - 1]) {
        var rest := text[..|text| - 1];
        j := TrimRightTrims(rest);
        assert rest[..j] == text[..j];
        forall k | j <= k < |text| ensures Blank(text[k]) {
          assert k < |rest| ==> rest[k] == text[k];
        }
      }
    }
  }

  lemma TrimSpaceTrims(text: string) returns (i: nat, j: nat)
    ensures Trims(text, TrimSpace(text), i, j)
  {
    i := TrimLeftTrims(text);
    var left := text[i..];
    var n := TrimRightTrims(left);
    j := i + n;
    forall k | j <= k < |text| ensures Blank(text[k]) {
      assert text[k] == left[k - i];
    }
  }

  /** Lower case is the word exactly when the text is, letter by letter. */
  lemma LowerIsWord(core: string, word: string)
    requires IsWord(word)
    ensures ToLower(core) == word <==> |core| == |word| && forall k :: 0 <= k < |word| ==> Letter(core[k], word[k])
  {
    forall k | 0 <= k < |core| && k < |word| ensures ToLower(core)[k] == word[k] <==> Letter(core[k], word[k]) {
      LowerIsLetter(core[k], word[k]);
    }
  }

  /** Trimmed and in lower case a text is a word exactly when it says it. */
  lemma TrimmedIsSaid(text: string, word: string)
    requires IsWord(word)
    ensures ToLower(TrimSpace(text)) == word <==> Says(text, word)
  {
    var core := TrimSpace(text);
    var i, j := TrimSpaceTrims(text);
    LowerIsWord(core, word);
    if ToLower(core) == word {
      assert SaysAt(text, word, i, j);
    }
    forall p: nat, q: nat | SaysAt(text, word, p, q) ensures p == i && q == j {
      LowerIsLetter(text[p], word[0]);
      LowerIsLetter(text[p + |word| - 1], word[|word| - 1]);
      assert !Blank(text[p]) && !Blank(text[q - 1]);
      assert core == "" ==> i == j;
    }
  }

  // ----- What is answered -----

  /** A text gives one of these words exactly when it says one. */
  lemma OneIsSaid(text: string, words: set<string>)
    requires forall word :: word in words ==> IsWord(word)
    ensures ToLower(TrimSpace(text)) in words <==> SaysOneOf(text, words)
  {
    forall word | word in words ensures ToLower(TrimSpace(text)) == word <==> Says(text, word) {
      TrimmedIsSaid(text, word);
    }
  }

  lemma ApprovalTextGives(message: UserMessage, kind: PendingKind, answer: Answer)
    requires message.data == None && kind != Elicitation
    ensures ResponseForPending(message, kind) == Some(answer) <==> Gives(message, kind, answer)
  {
    var accepting, declining := {"accept", "approve", "approved", "yes", "y"}, {"decline", "deny", "reject", "no", "n"};
    WordsAreWords();
    OneIsSaid(message.text, accepting);
    OneIsSaid(message.text, declining);
    TrimmedIsSaid(message.text, "cancel");
  }

  lemma ElicitationTextGives(message: UserMessage, answer: Answer)
    requires message.data == None
    ensures ResponseForPending(message, Elicitation) == Some(answer) <==> Gives(message, Elicitation, answer)
  {
    WordsAreWords();
    TrimmedIsSaid(message.text, "decline");
    TrimmedIsSaid(message.text, "cancel");
  }

  lemma WordsAreWords()
    ensures forall word :: word in {"accept", "approve", "approved", "yes", "y"} ==> IsWord(word)
    ensures forall word :: word in {"decline", "deny", "reject", "no", "n"} ==> IsWord(word)
    ensures IsWord("cancel") && IsWord("decline")
  {
  }

  /** The answer is the one the reply gives, and there is none exactly when it gives none. */
  lemma AnswerIsGiven(message: UserMessage, kind: PendingKind, answer: Answer)
    ensures ResponseForPending(message, kind) == Some(answer) <==> Gives(message, kind, answer)
  {
    if message.data == None {
      if kind == Elicitation {
        ElicitationTextGives(message, answer);
      } else {
        ApprovalTextGives(message, kind, answer);
      }
    }
  }

  // ----- What goes out on the wire -----

  lemma NoneAmongGot(arrivals: seq<Arrival>)
    ensures forall w :: w in GotAll(arrivals) ==> !w.SentResponse?
  {
  }

  lemma NewTurnAnswersNothing(b: Broker, id: TaskId, prompt: string, inbox: seq<Arrival>, world: World)
    requires id in b.tasks && SessionOf(b, id).Some?
    ensures forall w :: w in StartNewTurn(b, id, prompt, inbox, world).wire ==> !w.SentResponse?
  {
    if world.turn.Some? {
      var b' := Turning(b, id, world.turn.value);
      NoneAmongGot(inbox[..Consume(b'.tasks[id], inbox).used]);
    }
  }

  /** When a request waits, a reply is sent as the answer under its ID, first of all and once, exactly when
      it gives one and the write succeeds. */
  lemma ResumeAnswers(
    b: Broker, id: TaskId, inbox: seq<Arrival>, message: UserMessage, world: World, under: string, answer: Answer)
    requires id in b.tasks && b.tasks[id].pending.Some?
    ensures var wire, pending := ResumeInputRequired(b, id, inbox, message, world).wire, b.tasks[id].pending.value;
            && (SentResponse(under, answer) in wire <==>
                  world.responds && under == pending.id && Gives(message, pending.kind, answer))
            && (forall i :: 0 <= i < |wire| && wire[i].SentResponse? ==> i == 0)
  {
    var pending := b.tasks[id].pending.value;
    AnswerIsGiven(message, pending.kind, answer);
    if ResponseForPending(message, pending.kind).Some? && world.responds {
      var b' := Resumed(b, id);
      NoneAmongGot(inbox[..Consume(b'.tasks[id], inbox).used]);
    }
  }

  /** What answers are in a wire log: those that a reply to the waiting request gives, if it can be written. */
  ghost predicate AnswersOf(wire: seq<Wire>, pending: Pending, message: UserMessage, writes: bool) {
    forall under, answer ::
      SentResponse(under, answer) in wire <==> writes && under == pending.id && Gives(message, pending.kind, answer)
  }

  lemma ResumeAnswersAll(b: Broker, id: TaskId, inbox: seq<Arrival>, message: UserMessage, world: World)
    requires id in b.tasks && b.tasks[id].pending.Some?
    ensures AnswersOf(
        ResumeInputRequired(b, id, inbox, message, world).wire, b.tasks[id].pending.value, message, world.responds)
  {
    forall under, answer
      ensures SentResponse(under, answer) in ResumeInputRequired(b, id, inbox, message, world).wire <==>
                && world.responds && under == b.tasks[id].pending.value.id
                && Gives(message, b.tasks[id].pending.value.kind, answer)
    {
      ResumeAnswers(b, id, inbox, message, world, under, answer);
    }
  }

  /** An execution answers what Codex asked exactly when a request waits for the task, the reply gives that
      answer, and the write succeeds; it answers nothing else, and once. */
  lemma ExecutionAnswers(b: Broker, req: Request, inbox: seq<Arrival>, world: World, under: string, answer: Answer)
    requires Ready(b, req, world)
    ensures var wire := ExecuteStream(b, req, inbox, world).wire;
            && (SentResponse(under, answer) in wire <==>
                  && req.stored == Some(InputRequired) && req.id in b.tasks && b.tasks[req.id].pending.Some?
                  && world.responds && under == b.tasks[req.id].pending.value.id
                  && Gives(req.message, b.tasks[req.id].pending.value.kind, answer))
            && (forall i :: 0 <= i < |wire| && wire[i].SentResponse? ==> i == 0)
  {
    if req.stored == None && req.message.prompt.Some? {
      var started := StartTask(b, req, world);
      if started.ok {
        NewTurnAnswersNothing(started.broker, req.id, req.message.prompt.value, inbox, world);
      }
    } else if req.stored == Some(InputRequired) && req.id in b.tasks {
      if b.tasks[req.id].pending.Some? {
        ResumeAnswers(b, req.id, inbox, req.message, world, under, answer);
      } else if req.message.prompt.Some? {
        NewTurnAnswersNothing(b, req.id, req.message.prompt.value, inbox, world);
      }
    }
  }

  // ----- What starts a thread and a turn -----

  lemma OnlyGot(arrivals: seq<Arrival>)
    ensures forall w :: w in GotAll(arrivals) ==> w.Got?
  {
  }

  /** A new turn is asked for first of all, on the session's thread and with the prompt. */
  lemma NewTurnSends(b: Broker, id: TaskId, prompt: string, inbox: seq<Arrival>, world: World)
    requires id in b.tasks && SessionOf(b, id).Some?
    ensures forall w :: w in StartNewTurn(b, id, prompt, inbox, world).wire && !w.Got? <==>
              w == SentTurnStart(SessionOf(b, id).value.threadId, prompt, world.turn.Some?)
  {
    var x := StartNewTurn(b, id, prompt, inbox, world);
    assert x.wire[0] == SentTurnStart(SessionOf(b, id).value.threadId, prompt, world.turn.Some?);
    if world.turn.Some? {
      var b' := Turning(b, id, world.turn.value);
      OnlyGot(inbox[..Consume(b'.tasks[id], inbox).used]);
    }
  }

  lemma ResumeSendsNoTurn(b: Broker, id: TaskId, inbox: seq<Arrival>, message: UserMessage, world: World)
    requires id in b.tasks && b.tasks[id].pending.Some?
    ensures forall w :: w in ResumeInputRequired(b, id, inbox, message, world).wire ==> w.Got? || w.SentResponse?
  {
    if ResponseForPending(message, b.tasks[id].pending.value.kind).Some? && world.responds {
      var b' := Resumed(b, id);
      OnlyGot(inbox[..Consume(b'.tasks[id], inbox).used]);
    }
  }

  lemma NewTaskSends(b: Broker, req: Request, inbox: seq<Arrival>, world: World, w: Wire)
    requires Ready(b, req, world) && req.stored == None && req.message.prompt.Some?
    ensures w in Execute(b, req, inbox, world).wire && !w.Got? <==>
              && Resolve(b, req.contextId, req.references, world.order).Ok? && world.client.Some?
              && var base := Resolve(b, req.contextId, req.references, world.order).value;
              || w == SentThread(if base.Some? then Some(base.value.threadId) else None, world.thread)
              || (world.thread.Some? &&
                  w == SentTurnStart(world.thread.value, req.message.prompt.value, world.turn.Some?))
  {
    var started := StartTask(b, req, world);
    if started.ok {
      var x := StartNewTurn(started.broker, req.id, req.message.prompt.value, inbox, world);
      NewTurnSends(started.broker, req.id, req.message.prompt.value, inbox, world);
      assert w in started.sent + x.wire <==> w in started.sent || w in x.wire;
    }
  }

  /** What an execution sends to Codex, but for answers, and exactly when. A new task with a prompt, when it is
      resolved and a client launched, asks for a thread: a fork of its base's, or a new one. A turn is started
      with the prompt on that thread, or on the thread of a task that was told to go on and has nothing
      pending. */
  lemma ExecutionSends(b: Broker, req: Request, inbox: seq<Arrival>, world: World, w: Wire)
    requires Ready(b, req, world)
    ensures var resolved := Resolve(b, req.contextId, req.references, world.order);
            var starts := req.stored == None && req.message.prompt.Some? && resolved.Ok? && world.client.Some?;
            w in ExecuteStream(b, req, inbox, world).wire && !w.Got? && !w.SentResponse? <==>
              || (starts &&
                  w == SentThread(if resolved.value.Some? then Some(resolved.value.value.threadId) else None,
                                  world.thread))
              || (starts && world.thread.Some? &&
                  w == SentTurnStart(world.thread.value, req.message.prompt.value, world.turn.Some?))
              || (req.stored == Some(InputRequired) && req.id in b.tasks && b.tasks[req.id].pending == None &&
                  req.message.prompt.Some? &&
                  w == SentTurnStart(SessionOf(b, req.id).value.threadId, req.message.prompt.value, world.turn.Some?))
  {
    if req.stored == None && req.message.prompt.Some? {
      NewTaskSends(b, req, inbox, world, w);
    } else if req.stored == Some(InputRequired) && req.id in b.tasks {
      if b.tasks[req.id].pending.Some? {
        ResumeSendsNoTurn(b, req.id, inbox, req.message, world);
      } else if req.message.prompt.Some? {
        NewTurnSends(b, req.id, req.message.prompt.value, inbox, world);
      }
    }
  }
}
