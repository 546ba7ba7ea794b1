/** Keyset pagination: what a list query with a cursor selects, and what a client that
    follows next_cursor sees of a table that changes between two fetches. Monitors are
    keyed by (created_at, id), incidents by (start_time, id). */
module Keyset {
  import opened Sequences

  datatype Key = Key(ts: int, id: nat)

  /** A cursor as a client sends it; `id` is None if its text is not a UUID. */
  datatype Cursor = Cursor(ts: int, id: Option<nat>)

  /** A row of the list before paging: its sort key and everything else. */
  datatype Entry<T> = Entry(key: Key, row: T)

  datatype Page<T> = Page(rows: seq<T>, hasMore: bool, next: Option<Cursor>)

  predicate Less(a: Key, b: Key) {
    a.ts < b.ts || (a.ts == b.ts && a.id < b.id)
  }

  function CursorOf(k: Key): Cursor {
    Cursor(k.ts, Some(k.id))
  }

  /** SQL: $ts IS NULL OR (ts, id) < ($ts, $id). With a NULL id the comparison is
      NULL for rows of the same time, and NULL does not select. */
  predicate Before(k: Key, c: Option<Cursor>) {
    c.None? || k.ts < c.value.ts || (k.ts == c.value.ts && c.value.id.Some? && k.id < c.value.id.value)
  }

  function Select<T>(s: seq<Entry<T>>, keep: Entry<T> -> bool): seq<Entry<T>> {
    if s == [] then [] else (if keep(s[0]) then [s[0]] else []) + Select(s[1..], keep)
  }

  function Insert<T>(e: Entry<T>, s: seq<Entry<T>>): seq<Entry<T>> {
    if s == [] || !Less(e.key, s[0].key) then [e] + s else [s[0]] + Insert(e, s[1..])
  }

  /** ORDER BY ts DESC, id DESC. */
  function OrderBy<T>(s: seq<Entry<T>>): seq<Entry<T>> {
    if s == [] then [] else Insert(s[0], OrderBy(s[1..]))
  }

  function Limit<T>(s: seq<T>, n: nat): seq<T> {
    if |s| <= n then s else s[..n]
  }

  function Matching<T>(matches: T -> bool): Entry<T> -> bool {
    (e: Entry<T>) => matches(e.row)
  }

  function Older<T>(c: Option<Cursor>): Entry<T> -> bool {
    (e: Entry<T>) => Before(e.key, c)
  }

  function Wanted<T>(matches: T -> bool, c: Option<Cursor>): Entry<T> -> bool {
    (e: Entry<T>) => matches(e.row) && Before(e.key, c)
  }

  /** The whole list, newest first. */
  function Listing<T>(table: seq<Entry<T>>, matches: T -> bool): seq<Entry<T>> {
    OrderBy(Select(table, Matching(matches)))
  }

  /** What is left of the list after a cursor. */
  function Rest<T>(table: seq<Entry<T>>, matches: T -> bool, c: Option<Cursor>): seq<Entry<T>> {
    OrderBy(Select(table, Wanted(matches, c)))
  }

  /** The list query with its LIMIT. */
  function Query<T>(table: seq<Entry<T>>, matches: T -> bool, c: Option<Cursor>, fetch: nat): seq<Entry<T>> {
    Limit(Rest(table, matches, c), fetch)
  }

  /** What a list request answers: the next `limit` rows, whether there are more, and
      if so where to go on. */
  function PageAt<T>(table: seq<Entry<T>>, matches: T -> bool, c: Option<Cursor>, limit: nat): Page<Entry<T>> {
    var rest := Rest(table, matches, c);
    var rows := Limit(rest, limit);
    Page(rows, |rest| > limit,
         if |rest| > limit && rows != [] then Some(CursorOf(rows[|rows| - 1].key)) else None)
  }

  // Selection and order

  ghost predicate UniqueIds<T>(s: seq<Entry<T>>) {
    forall i, j | 0 <= i < j < |s| :: s[i].key.id != s[j].key.id
  }

  ghost predicate Descending<T>(s: seq<Entry<T>>) {
    forall i, j | 0 <= i < j < |s| :: Less(s[j].key, s[i].key)
  }

  lemma {:induction false} SelectMembers<T>(s: seq<Entry<T>>, keep: Entry<T> -> bool)
    ensures forall x | x in Select(s, keep) :: x in s && keep(x)
    ensures forall x | x in s && keep(x) :: x in Select(s, keep)
    ensures |Select(s, keep)| <= |s|
  {
    if s != [] {
      SelectMembers(s[1..], keep);
    }
  }

  lemma {:induction false} SelectUnique<T>(s: seq<Entry<T>>, keep: Entry<T> -> bool)
    requires UniqueIds(s)
    ensures UniqueIds(Select(s, keep))
  {
    if s != [] {
      SelectUnique(s[1..], keep);
      SelectMembers(s[1..], keep);
      var t := Select(s[1..], keep);
      forall j | 0 <= j < |t|
        ensures t[j].key.id != s[0].key.id
      {
        assert t[j] in s[1..];
      }
    }
  }

  lemma SelectCons<T>(e: Entry<T>, s: seq<Entry<T>>, keep: Entry<T> -> bool)
    ensures Select([e] + s, keep) == (if keep(e) then [e] else []) + Select(s, keep)
  {
    assert ([e] + s)[1..] == s;
  }

  lemma {:induction false} SelectTwice<T>(s: seq<Entry<T>>, a: Entry<T> -> bool, b: Entry<T> -> bool, both: Entry<T> -> bool)
    requires forall e :: both(e) <==> a(e) && b(e)
    ensures Select(Select(s, a), b) == Select(s, both)
  {
    if s != [] {
      SelectTwice(s[1..], a, b, both);
      assert both(s[0]) <==> a(s[0]) && b(s[0]);
      if a(s[0]) {
        SelectCons(s[0], Select(s[1..], a), b);
      } else {
        assert Select(s, a) == Select(s[1..], a);
      }
    }
  }

  lemma {:induction false} SelectAll<T>(s: seq<Entry<T>>, keep: Entry<T> -> bool)
    requires forall i | 0 <= i < |s| :: keep(s[i])
    ensures Select(s, keep) == s
  {
    if s != [] {
      SelectAll(s[1..], keep);
    }
  }

  lemma {:induction false} SelectNone<T>(s: seq<Entry<T>>, keep: Entry<T> -> bool)
    requires forall i | 0 <= i < |s| :: !keep(s[i])
    ensures Select(s, keep) == []
  {
    if s != [] {
      SelectNone(s[1..], keep);
    }
  }

  lemma {:induction false} SelectAppend<T>(a: seq<Entry<T>>, b: seq<Entry<T>>, keep: Entry<T> -> bool)
    ensures Select(a + b, keep) == Select(a, keep) + Select(b, keep)
  {
    if a == [] {
      assert a + b == b;
    } else {
      SelectAppend(a[1..], b, keep);
      assert a + b == [a[0]] + (a[1..] + b);
      SelectCons(a[0], a[1..] + b, keep);
    }
  }

  /** Rows counted by one of two disjoint conditions are counted by what both imply. */
  lemma {:induction false} SelectDisjoint<T>(s: seq<Entry<T>>, a: Entry<T> -> bool, b: Entry<T> -> bool, c: Entry<T> -> bool)
    requires forall e :: !(a(e) && b(e)) && (a(e) || b(e) ==> c(e))
    ensures |Select(s, a)| + |Select(s, b)| <= |Select(s, c)|
  {
    if s != [] {
      SelectDisjoint(s[1..], a, b, c);
    }
  }

  lemma {:induction false} InsertMembers<T>(e: Entry<T>, s: seq<Entry<T>>)
    ensures |Insert(e, s)| == |s| + 1
    ensures forall x | x in Insert(e, s) :: x == e || x in s
    ensures e in Insert(e, s) && forall x | x in s :: x in Insert(e, s)
  {
    if s != [] && Less(e.key, s[0].key) {
      InsertMembers(e, s[1..]);
    }
  }

  lemma {:induction false} InsertDescending<T>(e: Entry<T>, s: seq<Entry<T>>)
    requires Descending(s) && forall i | 0 <= i < |s| :: s[i].key.id != e.key.id
    ensures Descending(Insert(e, s))
  {
    if s != [] && Less(e.key, s[0].key) {
      InsertDescending(e, s[1..]);
      InsertMembers(e, s[1..]);
      var t := Insert(e, s[1..]);
      forall j | 0 <= j < |t|
        ensures Less(t[j].key, s[0].key)
      {
        assert t[j] == e || t[j] in s[1..];
      }
    }
  }

  /** ORDER BY keeps exactly the rows it is given and sorts them strictly. */
  lemma {:induction false} OrderBySorts<T>(s: seq<Entry<T>>)
    requires UniqueIds(s)
    ensures |OrderBy(s)| == |s| && Descending(OrderBy(s))
    ensures forall x | x in OrderBy(s) :: x in s
    ensures forall x | x in s :: x in OrderBy(s)
  {
    if s != [] {
      OrderBySorts(s[1..]);
      InsertMembers(s[0], OrderBy(s[1..]));
      var t := OrderBy(s[1..]);
      forall i | 0 <= i < |t|
        ensures t[i].key.id != s[0].key.id
      {
        assert t[i] in t;
        assert t[i] in s[1..];
      }
      InsertDescending(s[0], OrderBy(s[1..]));
    }
  }

  lemma {:induction false} SelectInsert<T>(e: Entry<T>, s: seq<Entry<T>>, keep: Entry<T> -> bool)
    requires Descending(s)
    ensures Select(Insert(e, s), keep) == if keep(e) then Insert(e, Select(s, keep)) else Select(s, keep)
  {
    if s != [] && Less(e.key, s[0].key) {
      SelectInsert(e, s[1..], keep);
      SelectCons(s[0], Insert(e, s[1..]), keep);
      if keep(s[0]) {
        InsertCons(e, s[0], Select(s[1..], keep));
      } else {
        assert Select(s, keep) == Select(s[1..], keep);
      }
    } else {
      SelectCons(e, s, keep);
      InsertIntoOlder(e, s, keep);
    }
  }

  lemma InsertCons<T>(e: Entry<T>, first: Entry<T>, s: seq<Entry<T>>)
    requires Less(e.key, first.key)
    ensures Insert(e, [first] + s) == [first] + Insert(e, s)
  {
    assert ([first] + s)[1..] == s;
  }

  lemma InsertIntoOlder<T>(e: Entry<T>, s: seq<Entry<T>>, keep: Entry<T> -> bool)
    requires Descending(s) && (s == [] || !Less(e.key, s[0].key))
    ensures Insert(e, Select(s, keep)) == [e] + Select(s, keep)
  {
    SelectMembers(s, keep);
    var t := Select(s, keep);
    if t != [] {
      assert t[0] in t;
      var i :| 0 <= i < |s| && s[i] == t[0];
      assert i > 0 ==> Less(s[i].key, s[0].key);
    }
  }

  /** Filtering and sorting commute. */
  lemma {:induction false} SelectOrderBy<T>(s: seq<Entry<T>>, keep: Entry<T> -> bool)
    requires UniqueIds(s)
    ensures Select(OrderBy(s), keep) == OrderBy(Select(s, keep))
  {
    if s != [] {
      SelectOrderBy(s[1..], keep);
      OrderBySorts(s[1..]);
      SelectInsert(s[0], OrderBy(s[1..]), keep);
      if keep(s[0]) {
        assert ([s[0]] + Select(s[1..], keep))[1..] == Select(s[1..], keep);
      } else {
        assert Select(s, keep) == Select(s[1..], keep);
      }
    }
  }

  /** If exactly the entries from m on are kept, the selection is the rest of the list. */
  lemma {:induction false} SelectSuffix<T>(l: seq<Entry<T>>, m: nat, keep: Entry<T> -> bool)
    requires m <= |l|
    requires forall i | 0 <= i < |l| :: keep(l[i]) <==> m <= i
    ensures Select(l, keep) == l[m..]
  {
    if m == 0 {
      SelectAll(l, keep);
    } else {
      SelectSuffix(l[1..], m - 1, keep);
    }
  }

  /** Of a sorted list, the rows after the m-th are those older than it. */
  lemma SelectOlder<T>(l: seq<Entry<T>>, m: nat)
    requires Descending(l) && 0 < m <= |l|
    ensures Select(l, Older(Some(CursorOf(l[m - 1].key)))) == l[m..]
  {
    var c := Some(CursorOf(l[m - 1].key));
    forall i | 0 <= i < |l|
      ensures Older(c)(l[i]) <==> m <= i
    {
      assert i < m - 1 ==> Less(l[m - 1].key, l[i].key);
      assert i > m - 1 ==> Less(l[i].key, l[m - 1].key);
    }
    SelectSuffix(l, m, Older(c));
  }

  lemma RestSorted<T>(table: seq<Entry<T>>, matches: T -> bool, c: Option<Cursor>)
    requires UniqueIds(table)
    ensures Descending(Rest(table, matches, c))
    ensures forall x | x in Rest(table, matches, c) :: x in table && matches(x.row) && Before(x.key, c)
    ensures forall x | x in table && matches(x.row) && Before(x.key, c) :: x in Rest(table, matches, c)
  {
    SelectUnique(table, Wanted(matches, c));
    SelectMembers(table, Wanted(matches, c));
    OrderBySorts(Select(table, Wanted(matches, c)));
  }

  lemma RestIsOlder<T>(table: seq<Entry<T>>, matches: T -> bool, c: Option<Cursor>, c': Option<Cursor>)
    requires UniqueIds(table)
    requires forall k :: Before(k, c') ==> Before(k, c)
    ensures Rest(table, matches, c') == Select(Rest(table, matches, c), Older(c'))
  {
    SelectUnique(table, Wanted(matches, c));
    SelectOrderBy(Select(table, Wanted(matches, c)), Older(c'));
    SelectTwice(table, Wanted(matches, c), Older(c'), Wanted(matches, c'));
  }

  lemma LessIsTransitive(k: Key, c: Option<Cursor>)
    requires Before(k, c)
    ensures forall x :: Before(x, Some(CursorOf(k))) ==> Before(x, c)
  {
  }

  /** Following the cursor of a page leads to what the page left over. */
  lemma NextRest<T>(table: seq<Entry<T>>, matches: T -> bool, c: Option<Cursor>, limit: nat)
    requires UniqueIds(table) && limit >= 1
    requires PageAt(table, matches, c, limit).hasMore
    ensures var p := PageAt(table, matches, c, limit);
      p.next.Some? && Rest(table, matches, p.next) == Rest(table, matches, c)[limit..]
  {
    var rest := Rest(table, matches, c);
    var p := PageAt(table, matches, c, limit);
    RestSorted(table, matches, c);
    assert rest[limit - 1] in rest;
    LessIsTransitive(rest[limit - 1].key, c);
    RestIsOlder(table, matches, c, p.next);
    SelectOlder(rest, limit);
  }

  /** A cursor without a usable id skips exactly the rows of its own time. */
  lemma UnparsedCursorSkips<T>(table: seq<Entry<T>>, matches: T -> bool, ts: int, id: nat, x: Entry<T>)
    requires UniqueIds(table) && x in Rest(table, matches, Some(Cursor(ts, Some(id))))
    ensures x !in Rest(table, matches, Some(Cursor(ts, None))) <==> x.key.ts == ts
  {
    RestSorted(table, matches, Some(Cursor(ts, Some(id))));
    RestSorted(table, matches, Some(Cursor(ts, None)));
  }
}
