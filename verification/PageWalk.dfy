/** A client that reads a list page by page, while rows are added, deleted and changed
    between its requests. */
module PageWalk {
  import opened Sequences
  import opened Keyset
  import Arithmetic

  /** `stamps` records the time part of every key ever inserted: ids are not reused.
      `seen` is everything the client received, `ended` says has_more was false. */
  datatype Walk<T> = Walk(
    table: seq<Entry<T>>,
    stamps: map<nat, int>,
    cursor: Option<Cursor>,
    seen: seq<Entry<T>>,
    ended: bool)

  datatype WalkEvent<T> =
    | Add(e: Entry<T>)
    | Drop(id: nat)
    | Change(id: nat, row: T)
    | Fetch

  function Start<T>(table: seq<Entry<T>>, stamps: map<nat, int>): Walk<T> {
    Walk(table, stamps, None, [], false)
  }

  function Other<T>(id: nat): Entry<T> -> bool {
    (e: Entry<T>) => e.key.id != id
  }

  function Changed<T>(table: seq<Entry<T>>, id: nat, row: T): seq<Entry<T>> {
    if table == [] then []
    else [if table[0].key.id == id then table[0].(row := row) else table[0]] + Changed(table[1..], id, row)
  }

  function Fetched<T>(w: Walk<T>, matches: T -> bool, limit: nat): Walk<T> {
    var p := PageAt(w.table, matches, w.cursor, limit);
    w.(cursor := if p.next.Some? then p.next else w.cursor,
       seen := w.seen + p.rows,
       ended := !p.hasMore)
  }

  function WalkApply<T>(matches: T -> bool, limit: nat, w: Walk<T>, ev: WalkEvent<T>): Walk<T> {
    match ev
    case Add(e) =>
      if e.key.id in w.stamps then w
      else w.(table := w.table + [e], stamps := w.stamps[e.key.id := e.key.ts])
    case Drop(id) => w.(table := Select(w.table, Other(id)))
    case Change(id, row) => w.(table := Changed(w.table, id, row))
    case Fetch => if w.ended then w else Fetched(w, matches, limit)
  }

  function WalkRun<T>(matches: T -> bool, limit: nat, w: Walk<T>, evs: seq<WalkEvent<T>>): Walk<T> {
    if evs == [] then w else WalkApply(matches, limit, WalkRun(matches, limit, w, evs[..|evs| - 1]), evs[|evs| - 1])
  }

  // Never twice

  ghost predicate Stamped<T>(s: seq<Entry<T>>, stamps: map<nat, int>) {
    forall i | 0 <= i < |s| :: s[i].key.id in stamps && stamps[s[i].key.id] == s[i].key.ts
  }

  ghost predicate Sound<T>(w: Walk<T>) {
    && UniqueIds(w.table)
    && Stamped(w.table, w.stamps)
    && Stamped(w.seen, w.stamps)
    && Descending(w.seen)
    && (!w.ended ==> w.cursor == if w.seen == [] then None else Some(CursorOf(w.seen[|w.seen| - 1].key)))
  }

  lemma {:induction false} ChangedKeys<T>(table: seq<Entry<T>>, id: nat, row: T)
    ensures |Changed(table, id, row)| == |table|
    ensures forall i | 0 <= i < |table| :: Changed(table, id, row)[i].key == table[i].key
  {
    if table != [] {
      ChangedKeys(table[1..], id, row);
    }
  }

  lemma FetchSound<T>(w: Walk<T>, matches: T -> bool, limit: nat)
    requires Sound(w) && !w.ended && limit >= 1
    ensures Sound(Fetched(w, matches, limit))
  {
    var rest := Rest(w.table, matches, w.cursor);
    var rows := PageAt(w.table, matches, w.cursor, limit).rows;
    RestSorted(w.table, matches, w.cursor);
    forall i | 0 <= i < |rows|
      ensures rows[i] in w.table && Before(rows[i].key, w.cursor)
    {
      assert rows[i] == rest[i] && rest[i] in rest;
    }
  }

  lemma DropSound<T>(w: Walk<T>, id: nat)
    requires Sound(w)
    ensures Sound(w.(table := Select(w.table, Other(id))))
  {
    SelectUnique(w.table, Other(id));
    SelectMembers(w.table, Other(id));
    var t := Select(w.table, Other(id));
    forall i | 0 <= i < |t|
      ensures t[i] in w.table
    {
      assert t[i] in t;
    }
  }

  lemma AddSound<T>(w: Walk<T>, e: Entry<T>)
    requires Sound(w) && e.key.id !in w.stamps
    ensures Sound(w.(table := w.table + [e], stamps := w.stamps[e.key.id := e.key.ts]))
  {
  }

  lemma ChangeSound<T>(w: Walk<T>, id: nat, row: T)
    requires Sound(w)
    ensures Sound(w.(table := Changed(w.table, id, row)))
  {
    ChangedKeys(w.table, id, row);
  }

  lemma SoundStep<T>(matches: T -> bool, limit: nat, w: Walk<T>, ev: WalkEvent<T>)
    requires Sound(w) && limit >= 1
    ensures Sound(WalkApply(matches, limit, w, ev))
  {
    match ev
    case Add(e) =>
      if e.key.id !in w.stamps {
        AddSound(w, e);
      }
    case Drop(id) => DropSound(w, id);
    case Change(id, row) => ChangeSound(w, id, row);
    case Fetch =>
      if !w.ended {
        FetchSound(w, matches, limit);
      }
  }

  lemma {:induction false} SoundRun<T>(matches: T -> bool, limit: nat, w: Walk<T>, evs: seq<WalkEvent<T>>)
    requires Sound(w) && limit >= 1
    ensures Sound(WalkRun(matches, limit, w, evs))
  {
    if evs != [] {
      SoundRun(matches, limit, w, evs[..|evs| - 1]);
      SoundStep(matches, limit, WalkRun(matches, limit, w, evs[..|evs| - 1]), evs[|evs| - 1]);
    }
  }

  /** Whatever happens to the table, no row is returned twice, and rows come newest first. */
  lemma NeverTwice<T>(matches: T -> bool, limit: nat, evs: seq<WalkEvent<T>>, i: nat, j: nat)
    requires limit >= 1
    requires i < j < |WalkRun(matches, limit, Start([], map[]), evs).seen|
    ensures var seen := WalkRun(matches, limit, Start([], map[]), evs).seen;
      seen[i].key.id != seen[j].key.id && Less(seen[j].key, seen[i].key)
  {
    SoundRun(matches, limit, Start([], map[]), evs);
  }

  // Complete

  ghost predicate Present<T>(table: seq<Entry<T>>, matches: T -> bool, k: Key) {
    exists i | 0 <= i < |table| :: table[i].key == k && matches(table[i].row)
  }

  ghost predicate Shown<T>(w: Walk<T>, k: Key) {
    exists i | 0 <= i < |w.seen| :: w.seen[i].key == k
  }

  ghost predicate Covered<T>(w: Walk<T>, k: Key) {
    Shown(w, k) || (!w.ended && Before(k, w.cursor))
  }

  lemma PageReaches<T>(table: seq<Entry<T>>, matches: T -> bool, c: Option<Cursor>, limit: nat, k: Key)
    requires UniqueIds(table) && limit >= 1 && Present(table, matches, k) && Before(k, c)
    ensures var p := PageAt(table, matches, c, limit);
      (exists j | 0 <= j < |p.rows| :: p.rows[j].key == k) || (p.next.Some? && Before(k, p.next))
  {
    var rest := Rest(table, matches, c);
    var p := PageAt(table, matches, c, limit);
    RestSorted(table, matches, c);
    var i :| 0 <= i < |table| && table[i].key == k && matches(table[i].row);
    assert table[i] in rest;
    var j :| 0 <= j < |rest| && rest[j] == table[i];
    if j < |p.rows| {
      assert p.rows[j].key == k;
    } else {
      assert Less(rest[j].key, rest[limit - 1].key);
    }
  }

  lemma FetchCovers<T>(w: Walk<T>, matches: T -> bool, limit: nat, k: Key)
    requires Sound(w) && !w.ended && limit >= 1
    requires Covered(w, k) && Present(w.table, matches, k)
    ensures Covered(Fetched(w, matches, limit), k)
  {
    var w' := Fetched(w, matches, limit);
    if Shown(w, k) {
      var i :| 0 <= i < |w.seen| && w.seen[i].key == k;
      assert w'.seen[i].key == k;
    } else {
      var rows := PageAt(w.table, matches, w.cursor, limit).rows;
      PageReaches(w.table, matches, w.cursor, limit, k);
      if j :| 0 <= j < |rows| && rows[j].key == k {
        assert w'.seen[|w.seen| + j].key == k;
      }
    }
  }

  /** The row with key k is there and matches whenever a page is fetched. */
  ghost predicate PresentThroughout<T>(matches: T -> bool, limit: nat, w: Walk<T>, evs: seq<WalkEvent<T>>, k: Key) {
    forall i | 0 <= i < |evs| && evs[i] == Fetch ::
      Present(WalkRun(matches, limit, w, evs[..i]).table, matches, k)
  }

  lemma PresentPrefix<T>(matches: T -> bool, limit: nat, w: Walk<T>, evs: seq<WalkEvent<T>>, k: Key)
    requires evs != [] && PresentThroughout(matches, limit, w, evs, k)
    ensures PresentThroughout(matches, limit, w, evs[..|evs| - 1], k)
  {
    var front := evs[..|evs| - 1];
    forall i | 0 <= i < |front| && front[i] == Fetch
      ensures Present(WalkRun(matches, limit, w, front[..i]).table, matches, k)
    {
      assert front[..i] == evs[..i];
      assert evs[i] == Fetch;
    }
  }

  lemma {:induction false} CoveredRun<T>(matches: T -> bool, limit: nat, evs: seq<WalkEvent<T>>, k: Key)
    requires limit >= 1 && PresentThroughout(matches, limit, Start([], map[]), evs, k)
    ensures Covered(WalkRun(matches, limit, Start([], map[]), evs), k)
  {
    if evs != [] {
      var front := evs[..|evs| - 1];
      var w := WalkRun(matches, limit, Start([], map[]), front);
      PresentPrefix(matches, limit, Start([], map[]), evs, k);
      CoveredRun(matches, limit, front, k);
      SoundRun(matches, limit, Start([], map[]), front);
      if evs[|evs| - 1] == Fetch && !w.ended {
        FetchCovers(w, matches, limit, k);
      }
    }
  }

  /** A walk that has ended returned every row that was present and matching at each
      of its fetches, and returned it once. */
  lemma EndedWalkIsComplete<T>(matches: T -> bool, limit: nat, evs: seq<WalkEvent<T>>, k: Key)
    requires limit >= 1 && PresentThroughout(matches, limit, Start([], map[]), evs, k)
    requires WalkRun(matches, limit, Start([], map[]), evs).ended
    ensures var seen := WalkRun(matches, limit, Start([], map[]), evs).seen;
      exists i | 0 <= i < |seen| :: seen[i].key == k && forall j | 0 <= j < |seen| && j != i :: seen[j].key != k
  {
    var w := WalkRun(matches, limit, Start([], map[]), evs);
    CoveredRun(matches, limit, evs, k);
    SoundRun(matches, limit, Start([], map[]), evs);
    var i :| 0 <= i < |w.seen| && w.seen[i].key == k;
    assert forall j | 0 <= j < |w.seen| && j != i :: w.seen[j].key != k;
  }

  // Current

  /** The rows of a fetch are rows of the table as it is then, and match. */
  lemma FetchedRow<T>(w: Walk<T>, matches: T -> bool, limit: nat, k: nat)
    requires Sound(w) && |w.seen| <= k < |Fetched(w, matches, limit).seen|
    ensures var e := Fetched(w, matches, limit).seen[k]; e in w.table && matches(e.row) && Before(e.key, w.cursor)
  {
    var rest := Rest(w.table, matches, w.cursor);
    RestSorted(w.table, matches, w.cursor);
    assert rest[k - |w.seen|] in rest;
  }

  /** A change is what later fetches find. */
  lemma {:induction false} ChangedRow<T>(table: seq<Entry<T>>, id: nat, row: T, i: nat)
    requires i < |table|
    ensures |Changed(table, id, row)| == |table|
    ensures Changed(table, id, row)[i] == if table[i].key.id == id then Entry(table[i].key, row) else table[i]
  {
    ChangedKeys(table, id, row);
    if i > 0 {
      ChangedRow(table[1..], id, row, i - 1);
    }
  }

  /** The row has been deleted. */
  ghost predicate Deleted<T>(w: Walk<T>, id: nat) {
    id in w.stamps && forall i | 0 <= i < |w.table| :: w.table[i].key.id != id
  }

  lemma DeletedStep<T>(matches: T -> bool, limit: nat, w: Walk<T>, ev: WalkEvent<T>, id: nat)
    requires Sound(w) && Deleted(w, id)
    ensures var w' := WalkApply(matches, limit, w, ev);
      && Deleted(w', id)
      && |w.seen| <= |w'.seen|
      && forall k | |w.seen| <= k < |w'.seen| :: w'.seen[k].key.id != id
  {
    match ev
    case Add(e) =>
    case Drop(other) =>
      SelectMembers(w.table, Other(other));
      var t := Select(w.table, Other(other));
      forall i | 0 <= i < |t|
        ensures t[i].key.id != id
      {
        assert t[i] in t;
      }
    case Change(other, row) => ChangedKeys(w.table, other, row);
    case Fetch =>
      if !w.ended {
        forall k | |w.seen| <= k < |Fetched(w, matches, limit).seen|
          ensures Fetched(w, matches, limit).seen[k].key.id != id
        {
          FetchedRow(w, matches, limit, k);
        }
      }
  }

  lemma DropDeletes<T>(matches: T -> bool, limit: nat, w: Walk<T>, id: nat)
    requires id in w.stamps
    ensures Deleted(WalkApply(matches, limit, w, Drop(id)), id)
  {
    SelectMembers(w.table, Other(id));
    var t := Select(w.table, Other(id));
    forall i | 0 <= i < |t|
      ensures t[i].key.id != id
    {
      assert t[i] in t;
    }
  }

  /** A row that is deleted is not returned by any fetch after that. */
  lemma {:induction false} DeletedStaysAway<T>(matches: T -> bool, limit: nat, w: Walk<T>, id: nat, evs: seq<WalkEvent<T>>)
    requires Sound(w) && limit >= 1 && id in w.stamps
    ensures var w1 := WalkApply(matches, limit, w, Drop(id));
      var w' := WalkRun(matches, limit, w1, evs);
      Deleted(w', id) && |w1.seen| <= |w'.seen| && forall k | |w1.seen| <= k < |w'.seen| :: w'.seen[k].key.id != id
  {
    var w1 := WalkApply(matches, limit, w, Drop(id));
    SoundStep(matches, limit, w, Drop(id));
    if evs == [] {
      DropDeletes(matches, limit, w, id);
    } else {
      var front := evs[..|evs| - 1];
      var w2 := WalkRun(matches, limit, w1, front);
      DeletedStaysAway(matches, limit, w, id, front);
      SoundRun(matches, limit, w1, front);
      DeletedStep(matches, limit, w2, evs[|evs| - 1], id);
      SeenGrows(matches, limit, w2, evs[|evs| - 1]);
    }
  }

  lemma SeenGrows<T>(matches: T -> bool, limit: nat, w: Walk<T>, ev: WalkEvent<T>)
    ensures w.seen <= WalkApply(matches, limit, w, ev).seen
  {
  }

  // Termination

  function Below<T>(w: Walk<T>): nat {
    |Select(w.table, Older(w.cursor))|
  }

  function Fetches<T>(evs: seq<WalkEvent<T>>): nat {
    if evs == [] then 0 else Fetches(evs[..|evs| - 1]) + (if evs[|evs| - 1].Fetch? then 1 else 0)
  }

  /** This event adds a row below the place the walk has reached. */
  predicate LandsBelow<T>(w: Walk<T>, ev: WalkEvent<T>) {
    ev.Add? && ev.e.key.id !in w.stamps && Before(ev.e.key, w.cursor)
  }

  /** How many rows a run adds below the cursor. */
  function LandedBelow<T>(matches: T -> bool, limit: nat, w: Walk<T>, evs: seq<WalkEvent<T>>): nat {
    if evs == [] then 0
    else
      var front := evs[..|evs| - 1];
      LandedBelow(matches, limit, w, front) + Bit(LandsBelow(WalkRun(matches, limit, w, front), evs[|evs| - 1]))
  }

  /** Rows of a page: wanted, and no longer wanted by the next one. */
  function Taken<T>(matches: T -> bool, c: Option<Cursor>, c': Option<Cursor>): Entry<T> -> bool {
    (e: Entry<T>) => matches(e.row) && Before(e.key, c) && !Before(e.key, c')
  }

  function Newer<T>(c: Option<Cursor>): Entry<T> -> bool {
    (e: Entry<T>) => !Before(e.key, c)
  }

  lemma TakenOfRest<T>(table: seq<Entry<T>>, matches: T -> bool, c: Option<Cursor>, c': Option<Cursor>)
    requires UniqueIds(table)
    ensures |Select(table, Taken(matches, c, c'))| == |Select(Rest(table, matches, c), Newer(c'))|
  {
    SelectUnique(table, Wanted(matches, c));
    SelectOrderBy(Select(table, Wanted(matches, c)), Newer(c'));
    SelectTwice(table, Wanted(matches, c), Newer(c'), Taken(matches, c, c'));
    SelectUnique(table, Taken(matches, c, c'));
    OrderBySorts(Select(table, Taken(matches, c, c')));
  }

  /** If exactly the entries before m are kept, m entries are selected. */
  lemma {:induction false} SelectPrefix<T>(l: seq<Entry<T>>, m: nat, keep: Entry<T> -> bool)
    requires m <= |l|
    requires forall i | 0 <= i < |l| :: keep(l[i]) <==> i < m
    ensures |Select(l, keep)| == m
  {
    if m == 0 {
      SelectNone(l, keep);
    } else {
      SelectPrefix(l[1..], m - 1, keep);
    }
  }

  lemma NewerInList<T>(l: seq<Entry<T>>, m: nat)
    requires Descending(l) && 0 < m <= |l|
    ensures |Select(l, Newer(Some(CursorOf(l[m - 1].key))))| == m
  {
    var c := Some(CursorOf(l[m - 1].key));
    forall i | 0 <= i < |l|
      ensures Newer(c)(l[i]) <==> i < m
    {
      assert i < m - 1 ==> Less(l[m - 1].key, l[i].key);
      assert i > m - 1 ==> Less(l[i].key, l[m - 1].key);
    }
    SelectPrefix(l, m, Newer(c));
  }

  lemma PageIsTaken<T>(table: seq<Entry<T>>, matches: T -> bool, c: Option<Cursor>, limit: nat)
    requires UniqueIds(table) && limit >= 1 && PageAt(table, matches, c, limit).hasMore
    ensures |Select(table, Taken(matches, c, PageAt(table, matches, c, limit).next))| == limit
  {
    RestSorted(table, matches, c);
    NewerInList(Rest(table, matches, c), limit);
    TakenOfRest(table, matches, c, PageAt(table, matches, c, limit).next);
  }

  lemma FetchLowers<T>(w: Walk<T>, matches: T -> bool, limit: nat)
    requires Sound(w) && !w.ended && limit >= 1 && !Fetched(w, matches, limit).ended
    ensures Below(Fetched(w, matches, limit)) + limit <= Below(w)
  {
    var p := PageAt(w.table, matches, w.cursor, limit);
    var rest := Rest(w.table, matches, w.cursor);
    RestSorted(w.table, matches, w.cursor);
    assert rest[limit - 1] in rest;
    LessIsTransitive(rest[limit - 1].key, w.cursor);
    PageIsTaken(w.table, matches, w.cursor, limit);
    SelectDisjoint(w.table, Taken(matches, w.cursor, p.next), Older(p.next), Older(w.cursor));
  }

  lemma {:induction false} DropKeepsBelow<T>(table: seq<Entry<T>>, id: nat, c: Option<Cursor>)
    ensures |Select(Select(table, Other(id)), Older(c))| <= |Select(table, Older(c))|
  {
    if table != [] {
      DropKeepsBelow(table[1..], id, c);
      if table[0].key.id != id {
        SelectCons(table[0], Select(table[1..], Other(id)), Older(c));
      } else {
        assert Select(table, Other(id)) == Select(table[1..], Other(id));
      }
    }
  }

  lemma {:induction false} ChangeKeepsBelow<T>(table: seq<Entry<T>>, id: nat, row: T, c: Option<Cursor>)
    ensures |Select(Changed(table, id, row), Older(c))| == |Select(table, Older(c))|
  {
    if table != [] {
      ChangeKeepsBelow(table[1..], id, row, c);
      SelectCons(Changed(table, id, row)[0], Changed(table[1..], id, row), Older(c));
    }
  }

  lemma StepLowers<T>(matches: T -> bool, limit: nat, w: Walk<T>, ev: WalkEvent<T>)
    requires Sound(w) && limit >= 1 && !WalkApply(matches, limit, w, ev).ended
    ensures Below(WalkApply(matches, limit, w, ev)) + (if ev.Fetch? then limit else 0) <= Below(w) + Bit(LandsBelow(w, ev))
  {
    match ev
    case Add(e) =>
      SelectAppend(w.table, [e], Older(w.cursor));
    case Drop(id) => DropKeepsBelow(w.table, id, w.cursor);
    case Change(id, row) => ChangeKeepsBelow(w.table, id, row, w.cursor);
    case Fetch => FetchLowers(w, matches, limit);
  }

  /** One more event: `paid` fetches so far, from `budget` rows and `landed` new ones. */
  lemma PayStep<T>(matches: T -> bool, limit: nat, w: Walk<T>, ev: WalkEvent<T>, paid: nat, budget: nat, landed: nat)
    requires Sound(w) && limit >= 1
    requires w.ended || paid * limit + Below(w) <= budget + landed
    ensures var w' := WalkApply(matches, limit, w, ev);
      w'.ended || (paid + (if ev.Fetch? then 1 else 0)) * limit + Below(w') <= budget + landed + Bit(LandsBelow(w, ev))
  {
    if !WalkApply(matches, limit, w, ev).ended {
      StepLowers(matches, limit, w, ev);
      Arithmetic.MulAdd(limit, paid, 1);
    }
  }

  /** Rows below the cursor pay for the fetches: a walk that has not ended has fetched no
      more full pages than there were, or came to be, rows for. */
  lemma {:induction false} RunLowers<T>(matches: T -> bool, limit: nat, w: Walk<T>, evs: seq<WalkEvent<T>>)
    requires Sound(w) && limit >= 1
    ensures var w' := WalkRun(matches, limit, w, evs);
      w'.ended || Fetches(evs) * limit + Below(w') <= Below(w) + LandedBelow(matches, limit, w, evs)
  {
    if evs != [] {
      var front, ev := evs[..|evs| - 1], evs[|evs| - 1];
      RunLowers(matches, limit, w, front);
      SoundRun(matches, limit, w, front);
      PayStep(matches, limit, WalkRun(matches, limit, w, front), ev, Fetches(front), Below(w), LandedBelow(matches, limit, w, front));
    }
  }

  /** The walk ends once its fetches outnumber the rows below the cursor and those that
      are added there meanwhile. */
  lemma WalkEnds<T>(matches: T -> bool, limit: nat, w: Walk<T>, evs: seq<WalkEvent<T>>)
    requires Sound(w) && limit >= 1
    requires Fetches(evs) * limit > Below(w) + LandedBelow(matches, limit, w, evs)
    ensures WalkRun(matches, limit, w, evs).ended
  {
    RunLowers(matches, limit, w, evs);
  }

  // Rows stamped by a clock

  /** A row is inserted within d of being stamped: by then no row has a stamp that is
      more than d later. */
  ghost predicate Timely<T>(d: nat, w: Walk<T>, ev: WalkEvent<T>) {
    ev.Add? && ev.e.key.id !in w.stamps ==> forall id | id in w.stamps :: w.stamps[id] <= ev.e.key.ts + d
  }

  ghost predicate TimelyRun<T>(d: nat, matches: T -> bool, limit: nat, w: Walk<T>, evs: seq<WalkEvent<T>>) {
    forall i | 0 <= i < |evs| :: Timely(d, WalkRun(matches, limit, w, evs[..i]), evs[i])
  }

  /** Then only rows stamped within d before the cursor's own time can land below it. */
  lemma LandsBelowClosely<T>(d: nat, w: Walk<T>, ev: WalkEvent<T>)
    requires Sound(w) && w.seen != [] && !w.ended && Timely(d, w, ev) && LandsBelow(w, ev)
    ensures w.cursor.value.ts - d <= ev.e.key.ts <= w.cursor.value.ts
  {
    assert w.seen[|w.seen| - 1].key.id in w.stamps;
  }

  /** Rows stamped more than d after the one the walk has reached have been inserted. */
  ghost predicate Passed<T>(d: nat, w: Walk<T>) {
    w.cursor.Some? && exists id | id in w.stamps :: w.stamps[id] > w.cursor.value.ts + d
  }

  lemma PassedStep<T>(d: nat, matches: T -> bool, limit: nat, w: Walk<T>, ev: WalkEvent<T>)
    requires Sound(w) && Passed(d, w) && limit >= 1
    ensures Passed(d, WalkApply(matches, limit, w, ev))
    ensures Timely(d, w, ev) ==> !LandsBelow(w, ev)
  {
    var id :| id in w.stamps && w.stamps[id] > w.cursor.value.ts + d;
    var w' := WalkApply(matches, limit, w, ev);
    assert id in w'.stamps && w'.stamps[id] == w.stamps[id];
    if ev.Fetch? && !w.ended {
      CursorFalls(w, matches, limit);
    }
  }

  lemma CursorFalls<T>(w: Walk<T>, matches: T -> bool, limit: nat)
    requires Sound(w) && w.cursor.Some? && limit >= 1
    ensures var c' := Fetched(w, matches, limit).cursor; c'.Some? && c'.value.ts <= w.cursor.value.ts
  {
    var rest := Rest(w.table, matches, w.cursor);
    RestSorted(w.table, matches, w.cursor);
    if |rest| > limit {
      assert rest[limit - 1] in rest;
    }
  }

  lemma {:induction false} NothingLandsBelow<T>(d: nat, matches: T -> bool, limit: nat, w: Walk<T>, evs: seq<WalkEvent<T>>)
    requires Sound(w) && Passed(d, w) && limit >= 1 && TimelyRun(d, matches, limit, w, evs)
    ensures Passed(d, WalkRun(matches, limit, w, evs)) && LandedBelow(matches, limit, w, evs) == 0
  {
    if evs != [] {
      var front := evs[..|evs| - 1];
      forall i | 0 <= i < |front|
        ensures Timely(d, WalkRun(matches, limit, w, front[..i]), front[i])
      {
        assert front[..i] == evs[..i];
      }
      NothingLandsBelow(d, matches, limit, w, front);
      SoundRun(matches, limit, w, front);
      PassedStep(d, matches, limit, WalkRun(matches, limit, w, front), evs[|evs| - 1]);
    }
  }

  /** A walk that is further back than an INSERT may be late ends after as many fetches as
      the rows below it fill pages, and one more. */
  lemma ClockedWalkEnds<T>(d: nat, matches: T -> bool, limit: nat, w: Walk<T>, evs: seq<WalkEvent<T>>)
    requires Sound(w) && Passed(d, w) && limit >= 1 && TimelyRun(d, matches, limit, w, evs)
    requires Fetches(evs) * limit > Below(w)
    ensures WalkRun(matches, limit, w, evs).ended
  {
    NothingLandsBelow(d, matches, limit, w, evs);
    WalkEnds(matches, limit, w, evs);
  }

  /** Row number k of n + 1 rows that are all stamped with the same instant. */
  function Twin(n: nat, k: nat): Entry<nat>
    requires k <= n
  {
    Entry(Key(0, n - k), 0)
  }

  /** A run in which each fetch is preceded by one more row of the same instant, with a
      smaller id. */
  function Chase(n: nat, k: nat): seq<WalkEvent<nat>>
    requires k <= n
  {
    if k == 0 then [Add(Twin(n, 0))] else Chase(n, k - 1) + [Add(Twin(n, k)), Fetch]
  }

  function Chased(n: nat, k: nat): Walk<nat>
    requires k <= n
  {
    WalkRun(Anything(), 1, Start([], map[]), Chase(n, k))
  }

  function Anything(): nat -> bool {
    _ => true
  }

  lemma RunSnoc<T>(matches: T -> bool, limit: nat, w: Walk<T>, evs: seq<WalkEvent<T>>, ev: WalkEvent<T>)
    ensures WalkRun(matches, limit, w, evs + [ev]) == WalkApply(matches, limit, WalkRun(matches, limit, w, evs), ev)
  {
    assert (evs + [ev])[..|evs|] == evs;
  }

  ghost predicate Chasing(w: Walk<nat>, n: nat, k: nat)
    requires k <= n
  {
    && Sound(w) && !w.ended
    && Twin(n, k) in w.table
    && Before(Twin(n, k).key, w.cursor)
    && forall id | id in w.stamps :: id >= n - k
  }

  lemma ChaseAdds(w: Walk<nat>, n: nat, k: nat)
    requires k < n && Chasing(w, n, k)
    ensures var w1 := WalkApply(Anything(), 1, w, Add(Twin(n, k + 1)));
      && Sound(w1) && !w1.ended && w1.cursor == w.cursor
      && Twin(n, k) in w1.table && Twin(n, k + 1) in w1.table
      && forall id | id in w1.stamps :: id >= n - k - 1
  {
    SoundStep(Anything(), 1, w, Add(Twin(n, k + 1)));
  }

  /** With two rows left below the cursor, a page of one row leaves the older one. */
  lemma OlderRemains(w: Walk<nat>, n: nat, k: nat)
    requires k < n && Sound(w) && !w.ended && Twin(n, k) in w.table && Twin(n, k + 1) in w.table
    requires Before(Twin(n, k).key, w.cursor)
    ensures var w' := Fetched(w, Anything(), 1); !w'.ended && Before(Twin(n, k + 1).key, w'.cursor)
  {
    var rest := Rest(w.table, Anything(), w.cursor);
    RestSorted(w.table, Anything(), w.cursor);
    assert Twin(n, k) in rest && Twin(n, k + 1) in rest;
    var i :| 0 <= i < |rest| && rest[i] == Twin(n, k);
    var j :| 0 <= j < |rest| && rest[j] == Twin(n, k + 1);
    assert rest[0] in rest && |rest| > 1 && j > 0;
    assert Fetched(w, Anything(), 1).cursor == Some(CursorOf(rest[0].key));
    assert Less(rest[j].key, rest[0].key);
  }

  lemma ChaseStep(w: Walk<nat>, n: nat, k: nat)
    requires k < n && Chasing(w, n, k)
    ensures Chasing(Fetched(WalkApply(Anything(), 1, w, Add(Twin(n, k + 1))), Anything(), 1), n, k + 1)
  {
    var w1 := WalkApply(Anything(), 1, w, Add(Twin(n, k + 1)));
    ChaseAdds(w, n, k);
    OlderRemains(w1, n, k);
    FetchSound(w1, Anything(), 1);
  }

  lemma ChaseStarts(n: nat)
    ensures Chasing(Chased(n, 0), n, 0)
  {
    var w: Walk<nat> := Start([], map[]);
    var evs := Chase(n, 0);
    assert evs[..0] == [];
    assert WalkRun(Anything(), 1, w, evs) == WalkApply(Anything(), 1, w, Add(Twin(n, 0)));
  }

  lemma ChasedNext(n: nat, k: nat)
    requires k < n && !Chased(n, k).ended
    ensures Chased(n, k + 1) == Fetched(WalkApply(Anything(), 1, Chased(n, k), Add(Twin(n, k + 1))), Anything(), 1)
  {
    var evs, add := Chase(n, k), Add(Twin(n, k + 1));
    RunSnoc(Anything(), 1, Start([], map[]), evs, add);
    RunSnoc(Anything(), 1, Start([], map[]), evs + [add], Fetch);
    assert evs + [add] + [Fetch] == Chase(n, k + 1);
  }

  lemma ChaseOn(w: Walk<nat>, w': Walk<nat>, n: nat, k: nat)
    requires k < n && Chasing(w, n, k)
    requires w' == Fetched(WalkApply(Anything(), 1, w, Add(Twin(n, k + 1))), Anything(), 1)
    ensures Chasing(w', n, k + 1)
  {
    ChaseStep(w, n, k);
  }

  lemma {:induction false} ChaseRun(n: nat, k: nat, w: Walk<nat>)
    requires k <= n && w == Chased(n, k)
    ensures Chasing(w, n, k)
  {
    if k == 0 {
      ChaseStarts(n);
    } else {
      var before := Chased(n, k - 1);
      ChaseRun(n, k - 1, before);
      ChasedNext(n, k - 1);
      ChaseOn(before, w, n, k - 1);
    }
  }

  lemma {:induction false} ChaseFetches(n: nat, k: nat)
    requires k <= n
    ensures Fetches(Chase(n, k)) == k
    ensures forall i | 0 <= i < |Chase(n, k)| :: Chase(n, k)[i].Fetch? || (Chase(n, k)[i].Add? && Chase(n, k)[i].e.key.ts == 0)
  {
    if k > 0 {
      ChaseFetches(n, k - 1);
      var add := Add(Twin(n, k));
      assert Chase(n, k)[..|Chase(n, k)| - 1] == Chase(n, k - 1) + [add];
      assert (Chase(n, k - 1) + [add])[..|Chase(n, k - 1)|] == Chase(n, k - 1);
    }
  }

  ghost predicate OneInstant<T>(w: Walk<T>) {
    forall id | id in w.stamps :: w.stamps[id] == 0
  }

  lemma {:induction false} StaysOneInstant<T>(matches: T -> bool, limit: nat, w: Walk<T>, evs: seq<WalkEvent<T>>)
    requires OneInstant(w) && forall i | 0 <= i < |evs| :: evs[i].Add? ==> evs[i].e.key.ts == 0
    ensures OneInstant(WalkRun(matches, limit, w, evs))
  {
    if evs != [] {
      StaysOneInstant(matches, limit, w, evs[..|evs| - 1]);
    }
  }

  /** Within one instant it need not end: there is a run of n fetches, for every n, in
      which rows come in the order of their stamps and there is still more. */
  lemma ChaseNeverEnds(n: nat)
    ensures Fetches(Chase(n, n)) == n && !Chased(n, n).ended
    ensures TimelyRun(0, Anything(), 1, Start([], map[]), Chase(n, n))
  {
    var evs := Chase(n, n);
    ChaseFetches(n, n);
    ChaseRun(n, n, Chased(n, n));
    forall i | 0 <= i < |evs|
      ensures Timely(0, WalkRun(Anything(), 1, Start([], map[]), evs[..i]), evs[i])
    {
      StaysOneInstant(Anything(), 1, Start([], map[]), evs[..i]);
    }
  }

  // A table that does not change

  function FetchRun<T>(matches: T -> bool, limit: nat, table: seq<Entry<T>>, n: nat): Walk<T> {
    WalkRun(matches, limit, Start(table, map[]), seq(n, _ => Fetch))
  }

  /** max(1, ceil(rows / limit)) */
  function PageCount(rows: nat, limit: nat): nat
    requires limit >= 1
  {
    if rows == 0 then 1 else (rows + limit - 1) / limit
  }

  lemma {:induction false} SelectSame<T>(s: seq<Entry<T>>, a: Entry<T> -> bool, b: Entry<T> -> bool)
    requires forall i | 0 <= i < |s| :: a(s[i]) == b(s[i])
    ensures Select(s, a) == Select(s, b)
  {
    if s != [] {
      SelectSame(s[1..], a, b);
    }
  }

  /** The first m rows of the list have been returned. */
  ghost predicate OnTrack<T>(matches: T -> bool, table: seq<Entry<T>>, m: nat, begun: bool, w: Walk<T>) {
    var list := Listing(table, matches);
    && w.table == table
    && w.seen == Limit(list, m)
    && (w.ended <==> begun && |list| <= m)
    && (!w.ended ==> m <= |list| && Rest(table, matches, w.cursor) == list[m..])
  }

  lemma ListingIsRest<T>(table: seq<Entry<T>>, matches: T -> bool)
    ensures Rest(table, matches, None) == Listing(table, matches)
  {
    forall i | 0 <= i < |table|
      ensures Wanted(matches, None)(table[i]) == Matching(matches)(table[i])
    {
      assert Before(table[i].key, None);
    }
    SelectSame(table, Wanted(matches, None), Matching(matches));
  }

  lemma OnTrackStep<T>(matches: T -> bool, limit: nat, table: seq<Entry<T>>, m: nat, begun: bool, w: Walk<T>)
    requires UniqueIds(table) && limit >= 1 && !w.ended && OnTrack(matches, table, m, begun, w)
    ensures OnTrack(matches, table, m + limit, true, Fetched(w, matches, limit))
  {
    var list := Listing(table, matches);
    if PageAt(table, matches, w.cursor, limit).hasMore {
      NextRest(table, matches, w.cursor, limit);
      assert list[m..][limit..] == list[m + limit..];
    }
  }

  lemma FetchOnceMore<T>(matches: T -> bool, limit: nat, table: seq<Entry<T>>, n: nat)
    ensures var w := FetchRun(matches, limit, table, n);
      FetchRun(matches, limit, table, n + 1) == if w.ended then w else Fetched(w, matches, limit)
  {
    assert seq<WalkEvent<T>>(n + 1, _ => Fetch)[..n] == seq<WalkEvent<T>>(n, _ => Fetch);
  }

  lemma OnTrackNext<T>(matches: T -> bool, limit: nat, table: seq<Entry<T>>, m: nat, begun: bool, w: Walk<T>, w': Walk<T>)
    requires UniqueIds(table) && limit >= 1 && OnTrack(matches, table, m, begun, w)
    requires w' == if w.ended then w else Fetched(w, matches, limit)
    ensures OnTrack(matches, table, m + limit, true, w')
  {
    if !w.ended {
      OnTrackStep(matches, limit, table, m, begun, w);
    }
  }

  /** How far n pages reach: n * limit rows. */
  function Reach(n: nat, limit: nat): nat {
    if n == 0 then 0 else Reach(n - 1, limit) + limit
  }

  lemma {:induction false} ReachIsProduct(n: nat, limit: nat)
    ensures Reach(n, limit) == n * limit
  {
    if n > 0 {
      ReachIsProduct(n - 1, limit);
      Arithmetic.MulAdd(limit, n - 1, 1);
    }
  }

  lemma TrackBegins<T>(matches: T -> bool, limit: nat, table: seq<Entry<T>>)
    ensures OnTrack(matches, table, 0, false, FetchRun(matches, limit, table, 0))
  {
    ListingIsRest(table, matches);
  }

  lemma {:induction false} FetchesOnTrack<T>(matches: T -> bool, limit: nat, table: seq<Entry<T>>, n: nat)
    requires UniqueIds(table) && limit >= 1
    ensures OnTrack(matches, table, Reach(n, limit), n >= 1, FetchRun(matches, limit, table, n))
  {
    if n == 0 {
      TrackBegins(matches, limit, table);
    } else {
      var w, w' := FetchRun(matches, limit, table, n - 1), FetchRun(matches, limit, table, n);
      FetchesOnTrack(matches, limit, table, n - 1);
      FetchOnceMore(matches, limit, table, n - 1);
      OnTrackNext(matches, limit, table, Reach(n - 1, limit), n - 1 >= 1, w, w');
    }
  }

  lemma PageCountBound(rows: nat, limit: nat, n: nat)
    requires limit >= 1
    ensures n >= PageCount(rows, limit) <==> n >= 1 && rows <= n * limit
  {
    if rows > 0 {
      var q := (rows + limit - 1) / limit;
      assert rows <= q * limit < rows + limit;
      if n >= q {
        Arithmetic.MulMonotone(limit, q, n);
      } else {
        Arithmetic.MulMonotone(limit, n + 1, q);
      }
    }
  }

  /** On a table that does not change, n fetches return the first n * limit rows of the
      sorted list; has_more is false from page max(1, ceil(rows / limit)) on, not before. */
  lemma PagesMakeTheList<T>(matches: T -> bool, limit: nat, table: seq<Entry<T>>, n: nat)
    requires UniqueIds(table) && limit >= 1
    ensures var w := FetchRun(matches, limit, table, n);
      var list := Listing(table, matches);
      && w.seen == Limit(list, n * limit)
      && (w.ended <==> n >= PageCount(|list|, limit))
      && (w.ended ==> w.seen == list)
  {
    FetchesOnTrack(matches, limit, table, n);
    ReachIsProduct(n, limit);
    PageCountBound(|Listing(table, matches)|, limit, n);
  }
}
