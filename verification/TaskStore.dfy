/** The in-memory task store. */
module TaskStore {
  // A versioned map with per-user ownership and sorted listings.

  import opened Wrappers
  import opened A2A
  import opened Ordering
  import opened PageTokens
  import opened Pagination

  datatype StoreError =
    | TaskNotFound
    | TaskAlreadyExists
    | ConcurrentModification
    | BadPageSize(size: int)
    | BadHistoryLength(length: int)
    | BadToken(cause: TokenError)

  /** The version an update was based on; `Missing` skips the check. */
  datatype PrevVersion = Missing | Real(version: nat)

  type Tasks = map<string, StoredTask>

  datatype ListRequest = ListRequest(
    pageSize: int,
    historyLength: Option<int>,
    contextId: string,
    status: TaskState,
    after: Option<int>,
    includeArtifacts: bool)

  datatype ListResponse = ListResponse(tasks: seq<Task>, totalSize: nat, pageSize: nat, nextPageToken: string)

  /** Entries are filed under their own task ID. */
  ghost predicate Keyed(tasks: Tasks) {
    forall id :: id in tasks ==> tasks[id].task.id == id
  }

  // ----- Writes -----

  function CreateOutcome(tasks: Tasks, user: string, id: string): Result<nat, StoreError> {
    if id !in tasks then Ok(1)
    else if tasks[id].user != user then Err(TaskNotFound)
    else Err(TaskAlreadyExists)
  }

  function UpdateOutcome(tasks: Tasks, user: string, id: string, prev: PrevVersion): Result<nat, StoreError> {
    if id !in tasks || tasks[id].user != user then Err(TaskNotFound)
    else if prev.Real? && tasks[id].version != prev.version then Err(ConcurrentModification)
    else Ok(tasks[id].version + 1)
  }

  /** A successful write files the task under the version it returns; a refused one changes nothing. */
  function Written(tasks: Tasks, user: string, task: Task, outcome: Result<nat, StoreError>, now: int): Tasks {
    match outcome
    case Err(_) => tasks
    case Ok(version) => tasks[task.id := StoredTask(task, user, version, now)]
  }

  // ----- Listings -----

  predicate Matches(stored: StoredTask, user: string, req: ListRequest) {
    && stored.user == user
    && (req.contextId == "" || stored.task.contextId == req.contextId)
    && (req.status == Unspecified || stored.task.state == req.status)
    && (req.after == None || stored.lastUpdated >= req.after.value)
  }

  ghost function Matching(tasks: Tasks, user: string, req: ListRequest): set<StoredTask> {
    set id | id in tasks && Matches(tasks[id], user, req) :: tasks[id]
  }

  ghost predicate IsListing(s: seq<StoredTask>, entries: set<StoredTask>) {
    Sorted(s) && (forall e :: e in s <==> e in entries)
  }

  ghost predicate DistinctPlaces(entries: set<StoredTask>) {
    forall e, e' :: e in entries && e' in entries && e != e' ==> e.Place() != e'.Place()
  }

  lemma {:induction false} ListingExists(entries: set<StoredTask>) returns (s: seq<StoredTask>)
    requires DistinctPlaces(entries)
    ensures IsListing(s, entries)
  {
    if entries == {} {
      s := [];
    } else {
      var e :| e in entries;
      var rest := ListingExists(entries - {e});
      s := InsertPlace(rest, e);
    }
  }

  lemma {:induction false} InsertPlace(rest: seq<StoredTask>, e: StoredTask) returns (s: seq<StoredTask>)
    requires Sorted(rest) && forall i :: 0 <= i < |rest| ==> rest[i].Place() != e.Place()
    ensures Sorted(s) && forall x :: x in s <==> x == e || x in rest
  {
    if rest == [] {
      s := [e];
    } else {
      BeforeTotal(e.Place(), rest[0].Place());
      if Before(e.Place(), rest[0].Place()) {
        s := [e] + rest;
        forall i | 0 < i < |rest| ensures Before(e.Place(), rest[i].Place()) {
          BeforeTransitive(e.Place(), rest[0].Place(), rest[i].Place());
        }
      } else {
        var tail := InsertPlace(rest[1..], e);
        s := [rest[0]] + tail;
        forall i | 0 <= i < |tail| ensures Before(rest[0].Place(), tail[i].Place()) {
          assert tail[i] in tail;
          if tail[i] != e {
            var k :| 0 <= k < |rest[1..]| && rest[1..][k] == tail[i];
            assert rest[k + 1] == tail[i];
          }
        }
        assert rest == [rest[0]] + rest[1..];
      }
    }
  }

  /** The order leaves no choice: two listings of the same entries are the same sequence. */
  lemma {:induction false} ListingUnique(a: seq<StoredTask>, b: seq<StoredTask>)
    requires Sorted(a) && Sorted(b)
    requires forall e :: e in a <==> e in b
    ensures a == b
  {
    if a == [] {
      HeadIsMember(b);
    } else {
      assert a[0] in b;
      FirstPlace(a, b);
      assert a[0] == b[0];
      forall e ensures e in a[1..] <==> e in b[1..] {
        TailMembers(a, e);
        TailMembers(b, e);
      }
      ListingUnique(a[1..], b[1..]);
      assert a == [a[0]] + a[1..] && b == [b[0]] + b[1..];
    }
  }

  lemma HeadIsMember(s: seq<StoredTask>)
    ensures s != [] ==> s[0] in s
  {
  }

  lemma FirstPlace(a: seq<StoredTask>, b: seq<StoredTask>)
    requires Sorted(a) && Sorted(b) && a != [] && b != []
    requires a[0] in b && b[0] in a
    ensures a[0] == b[0]
  {
    var i :| 0 <= i < |b| && b[i] == a[0];
    var j :| 0 <= j < |a| && a[j] == b[0];
    if i > 0 && j > 0 {
      BeforeTotal(a[0].Place(), b[0].Place());
      assert false;
    }
  }

  lemma TailMembers(a: seq<StoredTask>, e: StoredTask)
    requires Sorted(a) && a != []
    ensures e in a[1..] <==> e in a && e != a[0]
  {
    if e in a[1..] {
      var k :| 0 <= k < |a[1..]| && a[1..][k] == e;
      assert e == a[k + 1];
      BeforeTotal(a[0].Place(), a[k + 1].Place());
    }
  }

  /** The matching entries in listing order. */
  ghost function Listing(tasks: Tasks, user: string, req: ListRequest): (s: seq<StoredTask>)
    requires Keyed(tasks)
    ensures IsListing(s, Matching(tasks, user, req))
  {
    assert exists s :: IsListing(s, Matching(tasks, user, req)) by {
      var s := ListingExists(Matching(tasks, user, req));
    }
    var s :| IsListing(s, Matching(tasks, user, req));
    s
  }

  lemma {:induction false} CountById(s: seq<StoredTask>, ids: set<string>)
    requires Sorted(s) && forall e :: e in s ==> e.task.id in ids
    requires forall i, j :: 0 <= i < j < |s| ==> s[i].task.id != s[j].task.id
    requires forall id :: id in ids ==> exists i :: 0 <= i < |s| && s[i].task.id == id
    ensures |s| == |ids|
  {
    if s == [] {
      assert ids == {};
    } else {
      var id := s[0].task.id;
      assert s[0] in s;
      forall other | other in ids - {id} ensures exists i :: 0 <= i < |s[1..]| && s[1..][i].task.id == other {
        var i :| 0 <= i < |s| && s[i].task.id == other;
        assert s[1..][i - 1] == s[i];
      }
      forall e | e in s[1..] ensures e.task.id in ids - {id} {
        var i :| 0 <= i < |s[1..]| && s[1..][i] == e;
        assert s[i + 1] == e;
      }
      CountById(s[1..], ids - {id});
    }
  }

  /** What is listed: every task stored under the user whose context, status and stamp are those asked
      for, where they are, and no other; each once. */
  lemma ListingIsWanted(tasks: Tasks, user: string, req: ListRequest)
    requires Keyed(tasks)
    ensures forall e :: e in Listing(tasks, user, req) ==>
              && e.task.id in tasks && tasks[e.task.id] == e && e.user == user
              && (req.contextId == "" || e.task.contextId == req.contextId)
              && (req.status == Unspecified || e.task.state == req.status)
              && (req.after == None || e.lastUpdated >= req.after.value)
    ensures forall id ::
              && id in tasks && tasks[id].user == user
              && (req.contextId == "" || tasks[id].task.contextId == req.contextId)
              && (req.status == Unspecified || tasks[id].task.state == req.status)
              && (req.after == None || tasks[id].lastUpdated >= req.after.value)
              ==> tasks[id] in Listing(tasks, user, req)
    ensures |Listing(tasks, user, req)| ==
            |set id |
               && id in tasks && tasks[id].user == user
               && (req.contextId == "" || tasks[id].task.contextId == req.contextId)
               && (req.status == Unspecified || tasks[id].task.state == req.status)
               && (req.after == None || tasks[id].lastUpdated >= req.after.value)|
  {
    var listing := Listing(tasks, user, req);
    var ids := set id |
        && id in tasks && tasks[id].user == user
        && (req.contextId == "" || tasks[id].task.contextId == req.contextId)
        && (req.status == Unspecified || tasks[id].task.state == req.status)
        && (req.after == None || tasks[id].lastUpdated >= req.after.value);
    forall i, j | 0 <= i < j < |listing| ensures listing[i].task.id != listing[j].task.id {
      assert listing[i] in listing && listing[j] in listing;
      BeforeTotal(listing[i].Place(), listing[j].Place());
    }
    forall id | id in ids ensures exists i :: 0 <= i < |listing| && listing[i].task.id == id {
      assert tasks[id] in Matching(tasks, user, req);
      assert tasks[id] in listing;
    }
    CountById(listing, ids);
  }

  ghost predicate Distinct(s: seq<StoredTask>) {
    forall i, j :: 0 <= i < j < |s| ==> s[i].Place() != s[j].Place()
  }

  /** `s[..i + 1]` is sorted but for the entry at `j`, which may still belong further left. */
  ghost predicate Sinking(s: seq<StoredTask>, i: nat, j: nat) {
    && j <= i < |s|
    && forall p, q :: 0 <= p < q <= i && q != j ==> Before(s[p].Place(), s[q].Place())
  }

  lemma Sunk(s: seq<StoredTask>, i: nat, j: nat)
    requires Sinking(s, i, j) && Distinct(s)
    requires j == 0 || !Before(s[j].Place(), s[j - 1].Place())
    ensures forall p, q :: 0 <= p < q <= i ==> Before(s[p].Place(), s[q].Place())
  {
    forall p | 0 <= p < j ensures Before(s[p].Place(), s[j].Place()) {
      BeforeTotal(s[j - 1].Place(), s[j].Place());
      if p < j - 1 {
        BeforeTransitive(s[p].Place(), s[j - 1].Place(), s[j].Place());
      }
    }
  }

  /** `sort.Slice` on the listing order, in place. */
  method SortListing(a: array<StoredTask>)
    requires Distinct(a[..])
    modifies a
    ensures Sorted(a[..])
    ensures multiset(a[..]) == multiset(old(a[..]))
  {
    for i := 0 to a.Length
      invariant Distinct(a[..])
      invariant forall p, q :: 0 <= p < q < i ==> Before(a[..][p].Place(), a[..][q].Place())
      invariant multiset(a[..]) == multiset(old(a[..]))
    {
      var j := i;
      while j > 0 && Before(a[j].Place(), a[j - 1].Place())
        invariant Sinking(a[..], i, j) && Distinct(a[..])
        invariant multiset(a[..]) == multiset(old(a[..]))
      {
        ghost var before := a[..];
        a[j], a[j - 1] := a[j - 1], a[j];
        j := j - 1;
      }
      Sunk(a[..], i, j);
    }
  }

  /** What a listing shows of a task: the end of its history, of the length asked for when that is
      positive, its artifacts only on request, and the rest as it is. */
  predicate Shows(copy: Task, task: Task, req: ListRequest) {
    && copy.id == task.id && copy.contextId == task.contextId && copy.state == task.state
    && (copy.artifacts == if req.includeArtifacts then task.artifacts else [])
    && (|copy.history| == if req.historyLength.Some? && 0 < req.historyLength.value < |task.history|
                          then req.historyLength.value else |task.history|)
    && copy.history == task.history[|task.history| - |copy.history|..]
  }

  /** The copy a listing hands out. */
  function Presented(task: Task, req: ListRequest): (copy: Task)
    ensures Shows(copy, task, req)
  {
    var trimmed :=
      if req.historyLength.Some? && req.historyLength.value > 0 && |task.history| > req.historyLength.value
      then task.(history := task.history[|task.history| - req.historyLength.value..])
      else task;
    if req.includeArtifacts then trimmed else trimmed.(artifacts := [])
  }

  function PresentedAll(page: seq<StoredTask>, req: ListRequest): seq<Task> {
    seq(|page|, i requires 0 <= i < |page| => Presented(page[i].task, req))
  }

  function EffectivePageSize(req: ListRequest): Result<nat, StoreError> {
    if req.pageSize != 0 && (req.pageSize < 1 || req.pageSize > 100) then Err(BadPageSize(req.pageSize))
    else if req.historyLength.Some? && req.historyLength.value < 0 then Err(BadHistoryLength(req.historyLength.value))
    else Ok(if req.pageSize == 0 then 50 else req.pageSize)
  }

  /** The answer to a list request: one page of the matching entries, or what was wrong with it. */
  ghost function ListOutcome(codec: Codec, tasks: Tasks, user: string, req: ListRequest, token: string)
    : Result<ListResponse, StoreError>
    requires Keyed(tasks)
  {
    match EffectivePageSize(req)
    case Err(e) => Err(e)
    case Ok(size) =>
      var listing := Listing(tasks, user, req);
      match PageOf(codec, listing, size, token)
      case Err(e) => Err(BadToken(e))
      case Ok(page) => Ok(ListResponse(PresentedAll(page.tasks, req), |listing|, size, page.nextToken))
  }

  lemma PageIsOfListing(codec: Codec, listing: seq<StoredTask>, size: nat, token: string)
    requires size >= 1 && PageOf(codec, listing, size, token).Ok?
    ensures |PageOf(codec, listing, size, token).value.tasks| <= size
    ensures forall e :: e in PageOf(codec, listing, size, token).value.tasks ==> e in listing
  {
    if token != "" {
      RemainingIsOfListing(listing, Decode(codec, token).value);
    }
  }

  lemma {:induction false} RemainingIsOfListing(listing: seq<StoredTask>, cursor: Position)
    ensures forall e :: e in Remaining(listing, Some(cursor)) ==> e in listing
  {
    if listing != [] {
      RemainingIsOfListing(listing[1..], cursor);
    }
  }

  /** What `List` answers. Every task it returns is stored under the user and of the context, status and
      stamp asked for, and is shown as asked; the total counts all such tasks; a page has the size asked
      for at most, 50 if none is. It refuses a page size out of range, then a negative history length,
      then a token it cannot read. */
  lemma ListAnswersWanted(codec: Codec, tasks: Tasks, user: string, req: ListRequest, token: string)
    requires Keyed(tasks)
    ensures match ListOutcome(codec, tasks, user, req, token)
            case Ok(r) =>
              && (forall copy :: copy in r.tasks ==>
                    && copy.id in tasks && tasks[copy.id].user == user && Shows(copy, tasks[copy.id].task, req)
                    && (req.contextId == "" || tasks[copy.id].task.contextId == req.contextId)
                    && (req.status == Unspecified || tasks[copy.id].task.state == req.status)
                    && (req.after == None || tasks[copy.id].lastUpdated >= req.after.value))
              && r.totalSize ==
                 |set id |
                    && id in tasks && tasks[id].user == user
                    && (req.contextId == "" || tasks[id].task.contextId == req.contextId)
                    && (req.status == Unspecified || tasks[id].task.state == req.status)
                    && (req.after == None || tasks[id].lastUpdated >= req.after.value)|
              && r.pageSize == (if req.pageSize == 0 then 50 else req.pageSize) && |r.tasks| <= r.pageSize <= 100
            case Err(BadPageSize(size)) => size == req.pageSize && (size < 0 || size > 100)
            case Err(BadHistoryLength(length)) => 0 <= req.pageSize <= 100 && req.historyLength == Some(length) &&
                length < 0
            case Err(BadToken(e)) =>
              && 0 <= req.pageSize <= 100 && (req.historyLength.Some? ==> req.historyLength.value >= 0)
              && token != "" && Decode(codec, token) == Err(e)
            case Err(_) => false
  {
    if ListOutcome(codec, tasks, user, req, token).Ok? {
      var listing, size := Listing(tasks, user, req), EffectivePageSize(req).value;
      ListingIsWanted(tasks, user, req);
      PageIsOfListing(codec, listing, size, token);
      var page := PageOf(codec, listing, size, token).value.tasks;
      forall copy | copy in PresentedAll(page, req)
        ensures copy.id in tasks && tasks[copy.id] in listing && Shows(copy, tasks[copy.id].task, req)
      {
        var i :| 0 <= i < |page| && PresentedAll(page, req)[i] == copy;
        assert page[i] in page;
        assert copy == Presented(page[i].task, req);
      }
    }
  }

  /** The store object. Every method is one critical section of the store's lock; `now` is the
      clock reading taken inside it. */
  class Store {
    var tasks: Tasks

    ghost predicate Valid()
      reads this
    {
      Keyed(tasks)
    }

    constructor ()
      ensures Valid() && tasks == map[]
    {
      tasks := map[];
    }

    method Create(user: string, task: Task, now: int) returns (r: Result<nat, StoreError>)
      requires Valid()
      modifies this
      ensures Valid()
      ensures r == CreateOutcome(old(tasks), user, task.id) && tasks == Written(old(tasks), user, task, r, now)
      ensures r == if task.id !in old(tasks) then Ok(1)
                   else if old(tasks)[task.id].user != user then Err(TaskNotFound)
                   else Err(TaskAlreadyExists)
      ensures tasks == if r.Ok? then old(tasks)[task.id := StoredTask(task, user, 1, now)] else old(tasks)
    {
      if task.id in tasks {
        var stored := tasks[task.id];
        if stored.user != user {
          return Err(TaskNotFound);
        }
        return Err(TaskAlreadyExists);
      }
      tasks := tasks[task.id := StoredTask(task, user, 1, now)];
      return Ok(1);
    }

    method Update(user: string, task: Task, prev: PrevVersion, now: int) returns (r: Result<nat, StoreError>)
      requires Valid()
      modifies this
      ensures Valid()
      ensures r == UpdateOutcome(old(tasks), user, task.id, prev) && tasks == Written(old(tasks), user, task, r, now)
      ensures r == if task.id !in old(tasks) || old(tasks)[task.id].user != user then Err(TaskNotFound)
                   else if prev.Real? && prev.version != old(tasks)[task.id].version then Err(ConcurrentModification)
                   else Ok(old(tasks)[task.id].version + 1)
      ensures tasks == if r.Ok? then old(tasks)[task.id := StoredTask(task, user, r.value, now)] else old(tasks)
    {
      if task.id !in tasks || tasks[task.id].user != user {
        return Err(TaskNotFound);
      }
      var stored := tasks[task.id];
      if prev != Missing && stored.version != prev.version {
        return Err(ConcurrentModification);
      }
      var version := stored.version + 1;
      tasks := tasks[task.id := StoredTask(task, user, version, now)];
      return Ok(version);
    }

    method Get(user: string, id: string) returns (r: Result<(Task, nat), StoreError>)
      requires Valid()
      ensures r.Ok? <==> id in tasks && tasks[id].user == user
      ensures r.Ok? ==> r.value == (tasks[id].task, tasks[id].version)
      ensures r.Err? ==> r.error == TaskNotFound
    {
      if id !in tasks || tasks[id].user != user {
        return Err(TaskNotFound);
      }
      return Ok((tasks[id].task, tasks[id].version));
    }

    /** The filter loop of a listing, visiting the map in any order. */
    method Filter(user: string, req: ListRequest) returns (filtered: seq<StoredTask>)
      requires Valid()
      ensures forall e :: e in filtered <==> e in Matching(tasks, user, req)
      ensures forall e :: e in filtered ==>
                && e.task.id in tasks && tasks[e.task.id] == e && e.user == user
                && (req.contextId == "" || e.task.contextId == req.contextId)
                && (req.status == Unspecified || e.task.state == req.status)
                && (req.after == None || e.lastUpdated >= req.after.value)
      ensures forall id ::
                && id in tasks && tasks[id].user == user
                && (req.contextId == "" || tasks[id].task.contextId == req.contextId)
                && (req.status == Unspecified || tasks[id].task.state == req.status)
                && (req.after == None || tasks[id].lastUpdated >= req.after.value)
                ==> tasks[id] in filtered
      ensures Distinct(filtered)
    {
      filtered := [];
      var left := tasks.Keys;
      while left != {}
        invariant left <= tasks.Keys
        invariant forall e :: e in filtered ==>
                    e.task.id in tasks && e.task.id !in left && e == tasks[e.task.id] && Matches(e, user, req)
        invariant forall id :: id in tasks && id !in left && Matches(tasks[id], user, req) ==> tasks[id] in filtered
        invariant forall i, j :: 0 <= i < j < |filtered| ==> filtered[i].task.id != filtered[j].task.id
      {
        var id :| id in left;
        left := left - {id};
        var stored := tasks[id];
        if stored.user != user {
          continue;
        }
        if req.contextId != "" && stored.task.contextId != req.contextId {
          continue;
        }
        if req.status != Unspecified && stored.task.state != req.status {
          continue;
        }
        if req.after.Some? && stored.lastUpdated < req.after.value {
          continue;
        }
        assert forall i :: 0 <= i < |filtered| ==> filtered[i] in filtered;
        filtered := filtered + [stored];
      }
    }

    method SortedMatches(user: string, req: ListRequest) returns (sorted: seq<StoredTask>)
      requires Valid()
      ensures sorted == Listing(tasks, user, req)
    {
      var filtered := Filter(user, req);
      var a := new StoredTask[|filtered|](i requires 0 <= i < |filtered| => filtered[i]);
      assert a[..] == filtered;
      SortListing(a);
      sorted := a[..];
      assert forall e :: e in sorted <==> e in multiset(sorted);
      assert forall e :: e in filtered <==> e in multiset(filtered);
      ListingUnique(sorted, Listing(tasks, user, req));
    }

    /** The copy loop of a listing. */
    method Present(page: seq<StoredTask>, req: ListRequest) returns (out: seq<Task>)
      ensures out == PresentedAll(page, req)
      ensures |out| == |page| && forall i :: 0 <= i < |page| ==> Shows(out[i], page[i].task, req)
    {
      out := [];
      for i := 0 to |page|
        invariant |out| == i
        invariant forall k :: 0 <= k < i ==> out[k] == Presented(page[k].task, req)
      {
        out := out + [Presented(page[i].task, req)];
      }
    }

    method List(codec: Codec, user: string, req: ListRequest, token: string)
      returns (r: Result<ListResponse, StoreError>)
      requires Valid()
      ensures r == ListOutcome(codec, tasks, user, req, token)
      ensures r.Ok? ==>
                forall copy :: copy in r.value.tasks ==>
                  && copy.id in tasks && tasks[copy.id].user == user && Shows(copy, tasks[copy.id].task, req)
                  && (req.contextId == "" || tasks[copy.id].task.contextId == req.contextId)
                  && (req.status == Unspecified || tasks[copy.id].task.state == req.status)
                  && (req.after == None || tasks[copy.id].lastUpdated >= req.after.value)
      ensures r.Ok? ==>
                r.value.totalSize ==
                |set id |
                   && id in tasks && tasks[id].user == user
                   && (req.contextId == "" || tasks[id].task.contextId == req.contextId)
                   && (req.status == Unspecified || tasks[id].task.state == req.status)
                   && (req.after == None || tasks[id].lastUpdated >= req.after.value)|
    {
      ListAnswersWanted(codec, tasks, user, req, token);
      var pageSize := req.pageSize;
      if pageSize == 0 {
        pageSize := 50;
      } else if pageSize < 1 || pageSize > 100 {
        return Err(BadPageSize(req.pageSize));
      }
      if req.historyLength.Some? && req.historyLength.value < 0 {
        return Err(BadHistoryLength(req.historyLength.value));
      }

      var sorted := SortedMatches(user, req);
      var page := PaginateTasks(codec, sorted, pageSize, token);
      if page.Err? {
        return Err(BadToken(page.error));
      }
      var out := Present(page.value.tasks, req);
      return Ok(ListResponse(out, |sorted|, pageSize, page.value.nextToken));
    }
  }

  /** Static paging of a request: its pages put together are exactly the matching tasks of the
      user, newest first, unless a page ends on an ID its token cannot carry. */
  lemma {:induction false} RequestWalkExact(codec: Codec, tasks: Tasks, user: string, req: ListRequest)
    requires codec.Faithful() && Keyed(tasks) && EffectivePageSize(req).Ok?
    ensures var size := EffectivePageSize(req).value;
            var listing := Listing(tasks, user, req);
            var w := Follow(codec, listing, size, "");
            && (w.refusal == None <==> ReadableBoundaries(listing, size))
            && (w.refusal == None ==> IsListing(Concat(w.pages), Matching(tasks, user, req)))
  {
    StaticPagingExact(codec, Listing(tasks, user, req), EffectivePageSize(req).value);
  }
}
