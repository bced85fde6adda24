/** Keyset pagination over a sorted listing. */
module Pagination {
  import opened Wrappers
  import opened A2A
  import opened Ordering
  import opened PageTokens

  datatype Task = Task(id: string, contextId: string, state: TaskState, history: seq<string>, artifacts: seq<string>)

  datatype StoredTask = StoredTask(task: Task, user: string, version: nat, lastUpdated: int) {
    function Place(): Position {
      Position(lastUpdated, task.id)
    }
  }

  ghost predicate Sorted(tasks: seq<StoredTask>) {
    forall i, j :: 0 <= i < j < |tasks| ==> Before(tasks[i].Place(), tasks[j].Place())
  }

  /** The entries a cursor leaves: all of them, or those strictly after it. */
  function Remaining(tasks: seq<StoredTask>, cursor: Option<Position>): (rest: seq<StoredTask>)
    ensures |rest| <= |tasks|
  {
    if cursor == None then tasks
    else if tasks == [] then []
    else (if Before(cursor.value, tasks[0].Place()) then [tasks[0]] else []) + Remaining(tasks[1..], cursor)
  }

  /** How many entries lie at or before a cursor. */
  function CountAtOrBefore(tasks: seq<StoredTask>, cursor: Position): (n: nat)
    ensures n <= |tasks|
  {
    if tasks == [] then 0
    else (if AtOrBefore(tasks[0].Place(), cursor) then 1 else 0) + CountAtOrBefore(tasks[1..], cursor)
  }

  /** Where a cursor splits a listing: everything up to `k` is at or before it, the rest after. */
  ghost predicate SplitsAt(tasks: seq<StoredTask>, cursor: Position, k: nat)
    requires k <= |tasks|
  {
    && (forall i :: 0 <= i < k ==> AtOrBefore(tasks[i].Place(), cursor))
    && (forall i :: k <= i < |tasks| ==> Before(cursor, tasks[i].Place()))
  }

  /** A split is where the count of the entries at or before the cursor says, and what follows it is
      what the cursor leaves. */
  lemma {:induction false} SplitIsCount(tasks: seq<StoredTask>, cursor: Position, k: nat)
    requires k <= |tasks| && SplitsAt(tasks, cursor, k)
    ensures k == CountAtOrBefore(tasks, cursor)
    ensures tasks[k..] == Remaining(tasks, Some(cursor))
  {
    if tasks != [] {
      var tail := tasks[1..];
      SplitIsCount(tail, cursor, if k == 0 then 0 else k - 1);
      if k == 0 {
        assert tasks == [tasks[0]] + tail;
      } else {
        assert tasks[k..] == tail[k - 1..];
      }
    }
  }

  /** In a sorted listing the entries at or before a cursor form a prefix, whether or not the cursor
      itself is listed; their count is its length, and the remaining entries are the rest. */
  lemma {:induction false} CountIsBoundary(tasks: seq<StoredTask>, cursor: Position)
    requires Sorted(tasks)
    ensures SplitsAt(tasks, cursor, CountAtOrBefore(tasks, cursor))
    ensures tasks[CountAtOrBefore(tasks, cursor)..] == Remaining(tasks, Some(cursor))
  {
    var k := SplitExists(tasks, cursor, |tasks|);
    SplitIsCount(tasks, cursor, k);
  }

  /** Going back from the end of a sorted listing to the last entry at or before the cursor. */
  lemma {:induction false} SplitExists(tasks: seq<StoredTask>, cursor: Position, above: nat) returns (k: nat)
    requires Sorted(tasks) && above <= |tasks|
    requires forall i :: above <= i < |tasks| ==> Before(cursor, tasks[i].Place())
    ensures k <= |tasks| && SplitsAt(tasks, cursor, k)
  {
    if above == 0 {
      k := 0;
    } else if Before(cursor, tasks[above - 1].Place()) {
      k := SplitExists(tasks, cursor, above - 1);
    } else {
      k := above;
      EarlierAtOrBefore(tasks, cursor, above - 1);
    }
  }

  lemma EarlierAtOrBefore(tasks: seq<StoredTask>, cursor: Position, h: nat)
    requires Sorted(tasks) && h < |tasks| && !Before(cursor, tasks[h].Place())
    ensures forall i :: 0 <= i <= h ==> AtOrBefore(tasks[i].Place(), cursor)
  {
    forall i | 0 <= i <= h ensures AtOrBefore(tasks[i].Place(), cursor) {
      BeforeTotal(cursor, tasks[h].Place());
      BeforeTotal(tasks[i].Place(), tasks[h].Place());
      AtOrBeforeTransitive(tasks[i].Place(), tasks[h].Place(), cursor);
    }
  }

  /** `sort.Search` with the pagination predicate. */
  method SearchAfter(tasks: seq<StoredTask>, cursor: Position) returns (start: nat)
    requires Sorted(tasks)
    ensures start <= |tasks|
    ensures start == CountAtOrBefore(tasks, cursor)
    ensures tasks[start..] == Remaining(tasks, Some(cursor))
  {
    var i, j := 0, |tasks|;
    while i < j
      invariant 0 <= i <= j <= |tasks|
      invariant forall k :: 0 <= k < i ==> AtOrBefore(tasks[k].Place(), cursor)
      invariant forall k :: j <= k < |tasks| ==> Before(cursor, tasks[k].Place())
    {
      var h := (i + j) / 2;
      if !Before(cursor, tasks[h].Place()) {
        EarlierAtOrBefore(tasks, cursor, h);
        i := h + 1;
      } else {
        forall k | h < k < |tasks| ensures Before(cursor, tasks[k].Place()) {
          BeforeTransitive(cursor, tasks[h].Place(), tasks[k].Place());
        }
        j := h;
      }
    }
    SplitIsCount(tasks, cursor, i);
    start := i;
  }

  datatype Page = Page(tasks: seq<StoredTask>, nextToken: string)

  /** A page is the first `size` entries a token leaves, with a token for its last entry exactly
      when more remain. */
  function PageOf(codec: Codec, tasks: seq<StoredTask>, size: nat, token: string): Result<Page, TokenError>
    requires size >= 1
  {
    if token == "" then Ok(PageAfter(codec, tasks, size, None))
    else match Decode(codec, token)
      case Err(e) => Err(e)
      case Ok(cursor) => Ok(PageAfter(codec, tasks, size, Some(cursor)))
  }

  function PageAfter(codec: Codec, tasks: seq<StoredTask>, size: nat, cursor: Option<Position>): Page
    requires size >= 1
  {
    var rest := Remaining(tasks, cursor);
    if |rest| <= size then Page(rest, "")
    else Page(rest[..size], Encode(codec, rest[size - 1].Place()))
  }

  method PaginateTasks(codec: Codec, tasks: seq<StoredTask>, pageSize: nat, pageToken: string)
    returns (r: Result<Page, TokenError>)
    requires Sorted(tasks) && pageSize >= 1
    ensures r == PageOf(codec, tasks, pageSize, pageToken)
  {
    var start: nat := 0;
    if pageToken != "" {
      match Decode(codec, pageToken) {
        case Err(e) => return Err(e);
        case Ok(cursor) => start := SearchAfter(tasks, cursor);
      }
    }
    var page := tasks[start..];
    if |page| <= pageSize {
      return Ok(Page(page, ""));
    }
    var last := page[pageSize - 1];
    return Ok(Page(page[..pageSize], Encode(codec, last.Place())));
  }

  /** The cursor at an entry leaves exactly the entries that follow it. */
  lemma {:induction false} RemainingAfterEntry(tasks: seq<StoredTask>, k: nat)
    requires Sorted(tasks) && k < |tasks|
    ensures Remaining(tasks, Some(tasks[k].Place())) == tasks[k + 1..]
  {
    var cursor := tasks[k].Place();
    BeforeTotal(cursor, cursor);
    EarlierAtOrBefore(tasks, cursor, k);
    SplitIsCount(tasks, cursor, k + 1);
  }

  /** What a token leaves of a listing; nothing when the token cannot be read. */
  function Unread(codec: Codec, tasks: seq<StoredTask>, token: string): seq<StoredTask> {
    if token == "" then tasks
    else match Decode(codec, token)
      case Err(_) => []
      case Ok(cursor) => Remaining(tasks, Some(cursor))
  }

  /** What a token leaves is a sorted tail of the listing, and so is what its next page leaves. */
  lemma {:induction false} UnreadIsSuffix(codec: Codec, tasks: seq<StoredTask>,
                                          token: string) returns (rest: seq<StoredTask>)
    requires Sorted(tasks) && (token == "" || Decode(codec, token).Ok?)
    ensures rest == Unread(codec, tasks, token) && Sorted(rest)
    ensures forall size: nat :: 0 < size < |rest| ==>
              Remaining(tasks, Some(rest[size - 1].Place())) == rest[size..]
  {
    var start := 0;
    if token != "" {
      var cursor := Decode(codec, token).value;
      CountIsBoundary(tasks, cursor);
      start := CountAtOrBefore(tasks, cursor);
    }
    rest := tasks[start..];
    RemainingInSuffix(tasks, start);
  }

  lemma {:induction false} RemainingInSuffix(tasks: seq<StoredTask>, start: nat)
    requires Sorted(tasks) && start <= |tasks|
    ensures forall size: nat :: 0 < size < |tasks[start..]| ==>
              Remaining(tasks, Some(tasks[start..][size - 1].Place())) == tasks[start..][size..]
  {
    forall size: nat | 0 < size < |tasks[start..]|
      ensures Remaining(tasks, Some(tasks[start..][size - 1].Place())) == tasks[start..][size..]
    {
      RemainingAfterEntry(tasks, start + size - 1);
      assert tasks[start + size - 1 + 1..] == tasks[start..][size..];
    }
  }

  /** The token of a page leaves what the page left, or cannot be read at all. */
  lemma NextTokenContinues(codec: Codec, tasks: seq<StoredTask>, size: nat, token: string)
    requires codec.Faithful() && Sorted(tasks) && size >= 1
    requires PageOf(codec, tasks, size, token).Ok?
    ensures var page := PageOf(codec, tasks, size, token).value;
            var rest := Unread(codec, tasks, token);
            && Sorted(rest)
            && page.tasks == rest[..if |rest| <= size then |rest| else size]
            && (page.nextToken == "" <==> |rest| <= size)
            && (|rest| > size ==>
                  && page.nextToken == Encode(codec, rest[size - 1].Place())
                  && (SEPARATOR in rest[size - 1].task.id ==> Decode(codec, page.nextToken) == Err(ParseError))
                  && (SEPARATOR !in rest[size - 1].task.id ==>
                        PageOf(codec, tasks, size, page.nextToken).Ok? &&
                        Unread(codec, tasks, page.nextToken) == rest[size..]))
  {
    var rest := UnreadIsSuffix(codec, tasks, token);
    if |rest| > size {
      TokenRoundTrip(codec, rest[size - 1].Place());
    }
  }

  /** Following page tokens over an unchanging listing: the pages read, and the error if the client
      met a token the store could not read back instead of the end. */
  datatype Walk = Walk(pages: seq<seq<StoredTask>>, refusal: Option<TokenError>)

  ghost function Follow(codec: Codec, tasks: seq<StoredTask>, size: nat, token: string): Walk
    requires codec.Faithful() && Sorted(tasks) && size >= 1
    decreases |Unread(codec, tasks, token)|
  {
    match PageOf(codec, tasks, size, token)
    case Err(e) => Walk([], Some(e))
    case Ok(page) =>
      NextTokenContinues(codec, tasks, size, token);
      if page.nextToken == "" then Walk([page.tasks], None)
      else
        var more := Follow(codec, tasks, size, page.nextToken);
        Walk([page.tasks] + more.pages, more.refusal)
  }

  function Concat(pages: seq<seq<StoredTask>>): seq<StoredTask> {
    if pages == [] then [] else pages[0] + Concat(pages[1..])
  }

  /** max(1, ceil(n / size)) */
  function PageCount(n: nat, size: nat): nat
    requires size >= 1
  {
    if n == 0 then 1 else (n - 1) / size + 1
  }

  /** Every full page that has a successor ends on an ID its token can carry. */
  ghost predicate ReadableBoundaries(tasks: seq<StoredTask>, size: nat)
    requires size >= 1
  {
    forall i :: 0 <= i < |tasks| - 1 && (i + 1) % size == 0 ==> SEPARATOR !in tasks[i].task.id
  }

  lemma ShiftBySize(n: int, size: nat)
    requires size >= 1
    ensures (n + size) % size == n % size
    ensures (n + size) / size == n / size + 1
  {
    var q, r := n / size, n % size;
    assert n + size == (q + 1) * size + r;
    QuotientUnique(n + size, size, q + 1, r);
  }

  lemma {:induction false} MultipleIsFar(d: nat, size: nat)
    ensures d >= 1 ==> d * size >= size
  {
    if d > 1 {
      MultipleIsFar(d - 1, size);
      assert d * size == (d - 1) * size + size;
    }
  }

  lemma QuotientUnique(n: int, size: nat, q: int, r: int)
    requires 0 <= r < size && n == q * size + r
    ensures n / size == q && n % size == r
  {
    var d := n / size - q;
    assert d * size == r - n % size;
    MultipleIsFar(if d < 0 then -d else d, size);
    assert -d * size == -(d * size);
  }

  lemma BoundariesShift(tasks: seq<StoredTask>, size: nat)
    requires size >= 1 && |tasks| > size
    ensures ReadableBoundaries(tasks, size) <==>
              SEPARATOR !in tasks[size - 1].task.id && ReadableBoundaries(tasks[size..], size)
  {
    var tail := tasks[size..];
    forall i | 0 <= i < |tail| ensures tail[i] == tasks[i + size] && (i + size + 1) % size == (i + 1) % size {
      ShiftBySize(i + 1, size);
    }
    QuotientUnique(size, size, 1, 0);
    if ReadableBoundaries(tasks, size) {
      assert (size - 1 + 1) % size == 0;
    } else {
      var i :| 0 <= i < |tasks| - 1 && (i + 1) % size == 0 && SEPARATOR in tasks[i].task.id;
      if i < size - 1 {
        QuotientUnique(i + 1, size, 0, i + 1);
      } else if i >= size {
        assert tail[i - size] == tasks[i];
      }
    }
  }

  lemma PageCountStep(n: nat, size: nat)
    requires size >= 1
    ensures PageCount(n, size) == if n <= size then 1 else 1 + PageCount(n - size, size)
  {
    if 0 < n <= size {
      QuotientUnique(n - 1, size, 0, n - 1);
    } else if n > size {
      ShiftBySize(n - size - 1, size);
    }
  }

  /** The last of some tasks has an ID that its token cannot carry. */
  predicate EndsUnreadably(tasks: seq<StoredTask>) {
    tasks != [] && SEPARATOR in tasks[|tasks| - 1].task.id
  }

  /** A walk reads a listing from its beginning, and to its end exactly when every token on the way
      can be read; otherwise it meets the parse error after an ID that its token cannot carry. */
  ghost predicate Walks(w: Walk, rest: seq<StoredTask>, size: nat)
    requires size >= 1
  {
    && Concat(w.pages) <= rest
    && (w.refusal == None <==> ReadableBoundaries(rest, size))
    && (if w.refusal == None then Concat(w.pages) == rest && |w.pages| == PageCount(|rest|, size)
        else w.refusal == Some(ParseError) && EndsUnreadably(Concat(w.pages)))
  }

  lemma LastPageWalks(rest: seq<StoredTask>, size: nat)
    requires size >= 1 && |rest| <= size
    ensures Walks(Walk([rest], None), rest, size)
  {
    PageCountStep(|rest|, size);
  }

  lemma PageThenWalks(rest: seq<StoredTask>, size: nat, more: Walk)
    requires size >= 1 && |rest| > size
    requires if SEPARATOR in rest[size - 1].task.id then more == Walk([], Some(ParseError))
             else Walks(more, rest[size..], size)
    ensures Walks(Walk([rest[..size]] + more.pages, more.refusal), rest, size)
  {
    PageCountStep(|rest|, size);
    BoundariesShift(rest, size);
  }

  lemma {:induction false} FollowFrom(codec: Codec, tasks: seq<StoredTask>, size: nat, token: string)
    requires codec.Faithful() && Sorted(tasks) && size >= 1
    requires PageOf(codec, tasks, size, token).Ok?
    ensures Walks(Follow(codec, tasks, size, token), Unread(codec, tasks, token), size)
    decreases |Unread(codec, tasks, token)|
  {
    NextTokenContinues(codec, tasks, size, token);
    var rest := Unread(codec, tasks, token);
    var page := PageOf(codec, tasks, size, token).value;
    if |rest| <= size {
      LastPageWalks(rest, size);
    } else {
      if SEPARATOR !in rest[size - 1].task.id {
        FollowFrom(codec, tasks, size, page.nextToken);
      }
      PageThenWalks(rest, size, Follow(codec, tasks, size, page.nextToken));
    }
  }

  /** Static paging is exact. With a fixed page size, following tokens over an unchanged listing
      never repeats or reorders an entry. It reaches the end, after max(1, ceil(n / size)) pages
      whose concatenation is the whole listing, exactly when no page but the last ends on an ID
      with the token separator; otherwise it breaks off after such an ID with the parse error. */
  lemma {:induction false} StaticPagingExact(codec: Codec, tasks: seq<StoredTask>, size: nat)
    requires codec.Faithful() && Sorted(tasks) && size >= 1
    ensures var w := Follow(codec, tasks, size, "");
            && Concat(w.pages) <= tasks
            && (w.refusal == None <==> ReadableBoundaries(tasks, size))
            && (if w.refusal == None then Concat(w.pages) == tasks && |w.pages| == PageCount(|tasks|, size)
                else w.refusal == Some(ParseError) && EndsUnreadably(Concat(w.pages)))
  {
    FollowFrom(codec, tasks, size, "");
  }
}
