/** What a paging client sees. */
module PagingRuns {
  // Other callers keep creating and updating tasks between its pages.

  import opened Wrappers
  import opened A2A
  import opened Ordering
  import opened PageTokens
  import opened Pagination
  import opened TaskStore

  /** The paging client: before its first page, holding the token of its last page, or at the end. */
  datatype Client = Fresh | Holding(token: string) | Exhausted

  datatype Query = Query(codec: Codec, user: string, req: ListRequest)

  /** The store and the client. `matched` are the tasks that matched at the first page and
      `touched` those updated between it and the end of the paging. */
  datatype World = World(
    tasks: Tasks,
    clock: int,
    client: Client,
    returned: seq<string>,
    matched: set<string>,
    touched: set<string>)

  /** One critical section of the store; stamps and page sizes are free. */
  datatype Step =
    | CreateTask(creator: string, created: Task, createdAt: int)
    | UpdateTask(updater: string, updated: Task, prev: PrevVersion, updatedAt: int)
    | NextPage(pageSize: int)

  ghost function Ids(tasks: seq<StoredTask>): seq<string> {
    seq(|tasks|, i requires 0 <= i < |tasks| => tasks[i].task.id)
  }

  ghost function MatchingIds(tasks: Tasks, q: Query): set<string> {
    set id | id in tasks && Matches(tasks[id], q.user, q.req)
  }

  /** The page the store cuts for a request of this size with this token. */
  ghost function Answer(q: Query, tasks: Tasks, pageSize: int, token: string): Option<Page>
    requires Keyed(tasks)
  {
    var req := q.req.(pageSize := pageSize);
    match EffectivePageSize(req)
    case Err(_) => None
    case Ok(size) =>
      match PageOf(q.codec, Listing(tasks, q.user, req), size, token)
      case Err(_) => None
      case Ok(page) => Some(page)
  }

  ghost function Apply(q: Query, w: World, step: Step): (w': World)
    requires Keyed(w.tasks)
    ensures Keyed(w'.tasks)
  {
    match step
    case CreateTask(creator, task, now) =>
      var outcome := CreateOutcome(w.tasks, creator, task.id);
      w.(tasks := Written(w.tasks, creator, task, outcome, now), clock := now)
    case UpdateTask(updater, task, prev, now) =>
      var outcome := UpdateOutcome(w.tasks, updater, task.id, prev);
      w.(tasks := Written(w.tasks, updater, task, outcome, now),
         clock := now,
         touched := if outcome.Ok? && w.client.Holding? then w.touched + {task.id} else w.touched)
    case NextPage(pageSize) =>
      if w.client.Exhausted? then w
      else
        match Answer(q, w.tasks, pageSize, if w.client.Fresh? then "" else w.client.token)
        case None => w
        case Some(page) =>
          w.(client := if page.nextToken == "" then Exhausted else Holding(page.nextToken),
             returned := w.returned + Ids(page.tasks),
             matched := if w.client.Fresh? then MatchingIds(w.tasks, q) else w.matched)
  }

  /** The clock read inside the lock never runs backwards. */
  predicate Timely(w: World, step: Step) {
    match step
    case CreateTask(_, _, now) => now >= w.clock
    case UpdateTask(_, _, _, now) => now >= w.clock
    case NextPage(_) => true
  }

  ghost predicate StepsTo(q: Query, w: World, step: Step, w': World) {
    Keyed(w.tasks) && Timely(w, step) && w' == Apply(q, w, step)
  }

  /** A store with a past, and a client that has not asked yet. */
  ghost predicate Initial(w: World) {
    && Keyed(w.tasks)
    && (forall id :: id in w.tasks ==> w.tasks[id].lastUpdated <= w.clock)
    && w.client == Fresh && w.returned == [] && w.matched == {} && w.touched == {}
  }

  /** A run: the worlds it passes through, one step at a time. */
  ghost predicate IsRun(q: Query, worlds: seq<World>, steps: seq<Step>) {
    && |worlds| == |steps| + 1 && Initial(worlds[0])
    && forall i :: 0 <= i < |steps| ==> StepsTo(q, worlds[i], steps[i], worlds[i + 1])
  }

  ghost predicate NoRepeats(s: seq<string>) {
    forall i, j :: 0 <= i < j < |s| ==> s[i] != s[j]
  }

  // ----- The invariant -----

  ghost predicate Stamped(w: World) {
    && Keyed(w.tasks)
    && (forall id :: id in w.tasks ==> w.tasks[id].lastUpdated <= w.clock)
  }

  /** Everything returned lies at or before the cursor and every untouched match is either
      returned or still after it. */
  ghost predicate SplitAt(q: Query, w: World, cursor: Position) {
    && w.client == Holding(Encode(q.codec, cursor))
    && (forall id :: id in w.returned ==> id in w.tasks && AtOrBefore(w.tasks[id].Place(), cursor))
    && (forall id :: id in w.matched && id !in w.touched ==>
          && id in w.tasks && Matches(w.tasks[id], q.user, q.req)
          && (id in w.returned || Before(cursor, w.tasks[id].Place())))
  }

  ghost predicate Inv(q: Query, w: World) {
    && Stamped(w)
    && NoRepeats(w.returned)
    && match w.client
       case Fresh => w.returned == [] && w.matched == {} && w.touched == {}
       case Holding(_) => exists cursor :: SplitAt(q, w, cursor)
       case Exhausted => forall id :: id in w.matched && id !in w.touched ==> id in w.returned
  }

  /** A write only ever moves an existing entry forward in the listing. */
  lemma WriteKeepsInv(q: Query, w: World, step: Step)
    requires Inv(q, w) && Timely(w, step) && !step.NextPage?
    ensures Inv(q, Apply(q, w, step))
  {
    var w' := Apply(q, w, step);
    if w.client.Holding? {
      var cursor :| SplitAt(q, w, cursor);
      forall id | id in w'.returned ensures id in w'.tasks && AtOrBefore(w'.tasks[id].Place(), cursor) {
        RestampMovesForward(id, w.tasks[id].lastUpdated, w'.tasks[id].lastUpdated);
        AtOrBeforeTransitive(w'.tasks[id].Place(), w.tasks[id].Place(), cursor);
      }
      assert SplitAt(q, w', cursor);
    }
  }

  lemma {:induction false} MembersRemaining(tasks: seq<StoredTask>, cursor: Position)
    ensures forall e :: e in Remaining(tasks, Some(cursor)) <==> e in tasks && Before(cursor, e.Place())
  {
    if tasks != [] {
      MembersRemaining(tasks[1..], cursor);
    }
  }

  lemma MembersIds(tasks: seq<StoredTask>, e: StoredTask)
    requires e in tasks
    ensures e.task.id in Ids(tasks)
  {
    var i :| 0 <= i < |tasks| && tasks[i] == e;
    assert Ids(tasks)[i] == e.task.id;
  }

  /** Appending a page of entries that all lie after everything returned repeats nothing. */
  lemma AppendPage(tasks: Tasks, returned: seq<string>, page: seq<StoredTask>)
    requires NoRepeats(returned) && Sorted(page)
    requires forall e :: e in page ==> e.task.id in tasks && e == tasks[e.task.id] && e.task.id !in returned
    ensures NoRepeats(returned + Ids(page))
  {
    forall i, j | 0 <= i < j < |page| ensures Ids(page)[i] != Ids(page)[j] {
      assert page[i] in page && page[j] in page;
      BeforeTotal(page[i].Place(), page[j].Place());
    }
    forall i | 0 <= i < |page| ensures Ids(page)[i] !in returned {
      assert page[i] in page;
    }
  }

  /** One page, cut from entries `rest` that hold every match not yet returned. */
  lemma CutPage(q: Query, w: World, w': World, rest: seq<StoredTask>, k: nat)
    requires Stamped(w) && NoRepeats(w.returned) && Sorted(rest) && k <= |rest|
    requires forall e :: e in rest ==> e.task.id in w.tasks && e == w.tasks[e.task.id] && e.task.id !in w.returned
    requires forall id :: id in w'.matched && id !in w.touched && id !in w.returned ==>
               id in w.tasks && w.tasks[id] in rest
    requires forall id :: id in w'.matched && id !in w.touched ==> id in w.tasks && Matches(w.tasks[id], q.user, q.req)
    requires w' == w.(client := w'.client, returned := w.returned + Ids(rest[..k]), matched := w'.matched)
    requires if k == |rest| then w'.client == Exhausted
             else k > 0 && w'.client == Holding(Encode(q.codec, rest[k - 1].Place()))
    requires k > 0 ==> forall id :: id in w.returned ==>
               id in w.tasks && AtOrBefore(w.tasks[id].Place(), rest[k - 1].Place())
    ensures Inv(q, w')
  {
    AppendPage(w.tasks, w.returned, rest[..k]);
    forall id | id in w'.matched && id !in w'.touched && id !in w'.returned
      ensures k < |rest| && Before(rest[k - 1].Place(), w.tasks[id].Place())
    {
      assert id !in w.returned;
      var i :| 0 <= i < |rest| && rest[i] == w.tasks[id];
      if i < k {
        assert rest[..k][i] == rest[i];
        MembersIds(rest[..k], rest[i]);
      }
    }
    if k < |rest| {
      var cursor := rest[k - 1].Place();
      forall id | id in w'.returned ensures id in w'.tasks && AtOrBefore(w'.tasks[id].Place(), cursor) {
        if id !in w.returned {
          var i :| 0 <= i < k && Ids(rest[..k])[i] == id;
          assert rest[i] in rest;
          BeforeTotal(rest[i].Place(), cursor);
        }
      }
      assert SplitAt(q, w', cursor);
    }
  }

  /** What an answer is made of: a sorted remainder of the listing and how much of it is cut. */
  ghost predicate Cut(q: Query, w: World, w': World, rest: seq<StoredTask>, k: nat) {
    && Keyed(w.tasks) && Sorted(rest) && k <= |rest|
    && (forall e :: e in rest ==> e.task.id in w.tasks && e == w.tasks[e.task.id])
    && w' == w.(client := w'.client, returned := w.returned + Ids(rest[..k]), matched := w'.matched)
    && (if k == |rest| then w'.client == Exhausted
        else k > 0 && w'.client == Holding(Encode(q.codec, rest[k - 1].Place())))
  }

  lemma AnswerCuts(q: Query, w: World, pageSize: int, token: string) returns (rest: seq<StoredTask>, k: nat)
    requires q.codec.Faithful() && Keyed(w.tasks) && !w.client.Exhausted?
    requires token == if w.client.Holding? then w.client.token else ""
    requires Answer(q, w.tasks, pageSize, token).Some?
    ensures rest == Unread(q.codec, Listing(w.tasks, q.user, q.req.(pageSize := pageSize)), token)
    ensures Cut(q, w, Apply(q, w, NextPage(pageSize)), rest, k)
  {
    var req := q.req.(pageSize := pageSize);
    var listing := Listing(w.tasks, q.user, req);
    var size := EffectivePageSize(req).value;
    rest := UnreadIsSuffix(q.codec, listing, token);
    NextTokenContinues(q.codec, listing, size, token);
    k := if |rest| <= size then |rest| else size;
    if |rest| > size {
      TokenRoundTrip(q.codec, rest[size - 1].Place());
    }
    if token != "" {
      MembersRemaining(listing, Decode(q.codec, token).value);
    }
  }

  lemma FirstPageKeepsInv(q: Query, w: World, pageSize: int)
    requires q.codec.Faithful() && Inv(q, w) && w.client.Fresh?
    requires Answer(q, w.tasks, pageSize, "").Some?
    ensures Inv(q, Apply(q, w, NextPage(pageSize)))
  {
    var rest, k := AnswerCuts(q, w, pageSize, "");
    CutPage(q, w, Apply(q, w, NextPage(pageSize)), rest, k);
  }

  lemma LaterPageKeepsInv(q: Query, w: World, pageSize: int)
    requires q.codec.Faithful() && Inv(q, w) && w.client.Holding?
    requires Answer(q, w.tasks, pageSize, w.client.token).Some?
    ensures Inv(q, Apply(q, w, NextPage(pageSize)))
  {
    var cursor :| SplitAt(q, w, cursor);
    TokenRoundTrip(q.codec, cursor);
    var rest, k := AnswerCuts(q, w, pageSize, w.client.token);
    MembersRemaining(Listing(w.tasks, q.user, q.req.(pageSize := pageSize)), cursor);
    forall id | k > 0 && id in w.returned ensures AtOrBefore(w.tasks[id].Place(), rest[k - 1].Place()) {
      assert rest[k - 1] in rest;
      BeforeTotal(cursor, rest[k - 1].Place());
      AtOrBeforeTransitive(w.tasks[id].Place(), cursor, rest[k - 1].Place());
    }
    CutPage(q, w, Apply(q, w, NextPage(pageSize)), rest, k);
  }

  lemma PageKeepsInv(q: Query, w: World, pageSize: int)
    requires q.codec.Faithful() && Inv(q, w)
    ensures Inv(q, Apply(q, w, NextPage(pageSize)))
  {
    if w.client.Fresh? && Answer(q, w.tasks, pageSize, "").Some? {
      FirstPageKeepsInv(q, w, pageSize);
    } else if w.client.Holding? && Answer(q, w.tasks, pageSize, w.client.token).Some? {
      LaterPageKeepsInv(q, w, pageSize);
    }
  }

  lemma StepKeepsInv(q: Query, w: World, step: Step, w': World)
    requires q.codec.Faithful() && Inv(q, w) && StepsTo(q, w, step, w')
    ensures Inv(q, w')
  {
    if step.NextPage? {
      PageKeepsInv(q, w, step.pageSize);
    } else {
      WriteKeepsInv(q, w, step);
    }
  }

  lemma {:induction false} RunKeepsInv(q: Query, worlds: seq<World>, steps: seq<Step>, n: nat)
    requires q.codec.Faithful() && IsRun(q, worlds, steps) && n <= |steps|
    ensures Inv(q, worlds[n])
  {
    if n > 0 {
      RunKeepsInv(q, worlds, steps, n - 1);
      StepKeepsInv(q, worlds[n - 1], steps[n - 1], worlds[n]);
    }
  }

  // ----- The theorem -----

  /** Paging under change. Whatever creates and updates come between the pages, and whatever the
      page sizes, no task is ever returned twice. When the paging ends, every task that matched at
      the first page and was not updated in between has been returned, exactly once. */
  lemma PagingUnderChange(q: Query, worlds: seq<World>, steps: seq<Step>, n: nat)
    requires q.codec.Faithful() && IsRun(q, worlds, steps) && n <= |steps|
    ensures NoRepeats(worlds[n].returned)
    ensures worlds[n].client == Exhausted ==>
              forall id :: id in worlds[n].matched && id !in worlds[n].touched ==> multiset(worlds[n].returned)[id] == 1
  {
    RunKeepsInv(q, worlds, steps, n);
    var w := worlds[n];
    forall id | id in w.returned ensures multiset(w.returned)[id] == 1 {
      CountOnce(w.returned, id);
    }
  }

  /** The same without bookkeeping: a task that matched when the first page was read, and that no
      step since then updates, is returned exactly once by the time the paging ends. */
  lemma UnwrittenTaskReturnedOnce(q: Query, worlds: seq<World>, steps: seq<Step>, first: nat, n: nat, id: string)
    requires q.codec.Faithful() && IsRun(q, worlds, steps) && first < n <= |steps|
    requires FirstPageOf(q, worlds[first], steps[first], id)
    requires forall i :: first < i < n && steps[i].UpdateTask? ==> steps[i].updated.id != id
    ensures multiset(worlds[n].returned)[id] <= 1
    ensures worlds[n].client == Exhausted ==> multiset(worlds[n].returned)[id] == 1
  {
    PagingUnderChange(q, worlds, steps, n);
    TrackedSets(q, worlds, steps, first, n, id);
    CountOnce(worlds[n].returned, id);
  }

  /** The client reads its first page, from a store with this matching task. */
  ghost predicate FirstPageOf(q: Query, w: World, step: Step, id: string) {
    && w.client == Fresh && Keyed(w.tasks) && step.NextPage? && Answer(q, w.tasks, step.pageSize, "").Some?
    && id in w.tasks && w.tasks[id].user == q.user
    && (q.req.contextId == "" || w.tasks[id].task.contextId == q.req.contextId)
    && (q.req.status == Unspecified || w.tasks[id].task.state == q.req.status)
    && (q.req.after == None || w.tasks[id].lastUpdated >= q.req.after.value)
  }

  /** What has been returned is the user's. */
  ghost predicate OwnReturned(q: Query, w: World) {
    forall id :: id in w.returned ==> id in w.tasks && w.tasks[id].user == q.user
  }

  lemma PageIsOwn(q: Query, w: World, pageSize: int)
    requires Keyed(w.tasks) && OwnReturned(q, w)
    ensures OwnReturned(q, Apply(q, w, NextPage(pageSize)))
  {
    var w', req := Apply(q, w, NextPage(pageSize)), q.req.(pageSize := pageSize);
    if w'.returned != w.returned {
      var token := if w.client.Fresh? then "" else w.client.token;
      var page := Answer(q, w.tasks, pageSize, token).value.tasks;
      var listing, size := Listing(w.tasks, q.user, req), EffectivePageSize(req).value;
      ListingIsWanted(w.tasks, q.user, req);
      PageIsOfListing(q.codec, listing, size, token);
      forall id | id in Ids(page) ensures id in w.tasks && w.tasks[id].user == q.user {
        var i :| 0 <= i < |page| && Ids(page)[i] == id;
        assert page[i] in page;
      }
    }
  }

  /** In every run, whatever other users write, a client is never returned another user's task. */
  lemma {:induction false} OnlyOwnTasksReturned(q: Query, worlds: seq<World>, steps: seq<Step>, n: nat)
    requires IsRun(q, worlds, steps) && n <= |steps|
    ensures forall id :: id in worlds[n].returned ==> id in worlds[n].tasks && worlds[n].tasks[id].user == q.user
  {
    if n > 0 {
      OnlyOwnTasksReturned(q, worlds, steps, n - 1);
      var w, step := worlds[n - 1], steps[n - 1];
      assert StepsTo(q, w, step, worlds[n]);
      if step.NextPage? {
        PageIsOwn(q, w, step.pageSize);
      }
    }
  }

  /** From the first page on the matches are remembered, and the unwritten task is untouched. */
  lemma {:induction false} TrackedSets(q: Query, worlds: seq<World>, steps: seq<Step>, first: nat, n: nat, id: string)
    requires q.codec.Faithful() && IsRun(q, worlds, steps) && first < n <= |steps|
    requires FirstPageOf(q, worlds[first], steps[first], id)
    requires forall i :: first < i < n && steps[i].UpdateTask? ==> steps[i].updated.id != id
    ensures worlds[n].client != Fresh && id in worlds[n].matched && id !in worlds[n].touched
  {
    assert StepsTo(q, worlds[n - 1], steps[n - 1], worlds[n]);
    if n == first + 1 {
      RunKeepsInv(q, worlds, steps, first);
    } else {
      TrackedSets(q, worlds, steps, first, n - 1, id);
    }
  }

  /** What `List` answers to the client when it asks for its next page. */
  ghost function ListAnswer(q: Query, w: World, pageSize: int): Result<ListResponse, StoreError>
    requires Keyed(w.tasks)
  {
    ListOutcome(q.codec, w.tasks, q.user, q.req.(pageSize := pageSize), if w.client.Holding? then w.client.token
                else "")
  }

  /** The IDs that `List` answers in a step. */
  ghost function ListedIn(q: Query, w: World, step: Step): seq<string> {
    if Keyed(w.tasks) && step.NextPage? && !w.client.Exhausted? && ListAnswer(q, w, step.pageSize).Ok?
    then IdsOf(ListAnswer(q, w, step.pageSize).value.tasks)
    else []
  }

  /** The same for the first steps of a run, one answer after the other. */
  ghost function Listed(q: Query, worlds: seq<World>, steps: seq<Step>, n: nat): seq<string>
    requires n <= |steps| < |worlds|
  {
    if n == 0 then [] else Listed(q, worlds, steps, n - 1) + ListedIn(q, worlds[n - 1], steps[n - 1])
  }

  /** A page is what `List` answers: the client gets the IDs of its tasks and its token, and an error
      changes nothing. */
  lemma PageIsListed(q: Query, w: World, step: Step, w': World)
    requires StepsTo(q, w, step, w') && step.NextPage? && !w.client.Exhausted?
    ensures match ListAnswer(q, w, step.pageSize)
            case Err(_) => w' == w
            case Ok(response) =>
              && w'.returned == w.returned + IdsOf(response.tasks)
              && w'.client == (if response.nextPageToken == "" then Exhausted else Holding(response.nextPageToken))
  {
    var answer := Answer(q, w.tasks, step.pageSize, if w.client.Fresh? then "" else w.client.token);
    if answer.Some? {
      assert IdsOf(PresentedAll(answer.value.tasks, q.req.(pageSize := step.pageSize))) == Ids(answer.value.tasks);
    }
  }

  lemma StepIsListed(q: Query, w: World, step: Step, w': World)
    requires StepsTo(q, w, step, w')
    ensures w'.returned == w.returned + ListedIn(q, w, step)
  {
    if step.NextPage? && !w.client.Exhausted? {
      PageIsListed(q, w, step, w');
    }
  }

  /** The pages of a run are those of `List`: what the client has been returned are the IDs of all that
      `List` answered it, in order. */
  lemma {:induction false} PagesAreListed(q: Query, worlds: seq<World>, steps: seq<Step>, n: nat)
    requires IsRun(q, worlds, steps) && n <= |steps|
    ensures worlds[n].returned == Listed(q, worlds, steps, n)
  {
    if n > 0 {
      PagesAreListed(q, worlds, steps, n - 1);
      assert StepsTo(q, worlds[n - 1], steps[n - 1], worlds[n]);
      StepIsListed(q, worlds[n - 1], steps[n - 1], worlds[n]);
    }
  }

  ghost function IdsOf(tasks: seq<Task>): seq<string> {
    seq(|tasks|, i requires 0 <= i < |tasks| => tasks[i].id)
  }

  /** The limit of the promise. The next page of a client holding the token of an entry is refused,
      whatever the store holds by then, exactly when the entry's ID has the token separator (or the
      request itself is malformed). Such a client never reaches the end. */
  lemma NextPageRefused(q: Query, tasks: Tasks, pageSize: int, cursor: Position)
    requires q.codec.Faithful() && Keyed(tasks)
    ensures Answer(q, tasks, pageSize, Encode(q.codec, cursor)) == None <==>
              SEPARATOR in cursor.id || EffectivePageSize(q.req.(pageSize := pageSize)).Err?
  {
    TokenRoundTrip(q.codec, cursor);
  }

  lemma {:induction false} CountOnce(s: seq<string>, x: string)
    requires NoRepeats(s)
    ensures multiset(s)[x] == if x in s then 1 else 0
  {
    if s != [] {
      var n := |s| - 1;
      CountOnce(s[..n], x);
      assert s == s[..n] + [s[n]];
    }
  }
}
