/** The two paged lists of the API: the monitors of a team and its incidents. */
module Listings {
  import opened Sequences
  import opened Keyset
  import Domain
  import CommaList

  /** What a monitor is checked for. */
  datatype Target = Target(url: string, interval: int, timeout: int, latencyLimit: Option<int>, expectedStatus: Option<int>)

  datatype StoredMonitor = StoredMonitor(id: nat, team: nat, user: nat, target: Target, enabled: bool, channels: string, created: int)

  /** The failing result that raised an incident. */
  datatype Cause = Cause(alerted: bool, status: int, latency: int)

  datatype StoredIncident = StoredIncident(id: nat, monitor: nat, start: int, end: Option<int>, cause: Cause, created: int)

  datatype StoredAlert = StoredAlert(incident: nat, status: string, email: string, sentAt: Option<int>, created: int)

  /** The tables `monitors`, `monitor_incidents` and `alerts`, in no particular order. */
  datatype Tables = Tables(monitors: seq<StoredMonitor>, incidents: seq<StoredIncident>, alerts: seq<StoredAlert>)

  datatype Monitor = Monitor(
    id: nat,
    team: nat,
    user: nat,
    target: Target,
    enabled: bool,
    channels: seq<string>,
    created: int,
    isDown: bool)

  datatype Incident = Incident(
    id: nat,
    monitor: nat,
    url: string,
    start: int,
    end: Option<int>,
    cause: Cause,
    created: int,
    isActive: bool,
    duration: int,
    alertStatus: string,
    alertEmail: string,
    alertSentAt: Option<int>,
    expectedStatus: int,
    latencyLimit: int)

  datatype ListError = InvalidInput | Unavailable | Panicked

  datatype Listed<T> = Rows(rows: seq<T>, hasMore: bool) | Refused(error: ListError)

  datatype Answer<T> = Answer(page: Page<T>) | Error(error: ListError)

  const DEFAULT_LIMIT := 20

  // The queries

  predicate HasOpenIncident(incidents: seq<StoredIncident>, monitor: nat) {
    exists i | 0 <= i < |incidents| :: incidents[i].monitor == monitor && incidents[i].end.None?
  }

  datatype MonitorLine = MonitorLine(m: StoredMonitor, isDown: bool)

  function MonitorLines(monitors: seq<StoredMonitor>, incidents: seq<StoredIncident>): seq<Entry<MonitorLine>> {
    if monitors == [] then []
    else
      var m := monitors[0];
      [Entry(Key(m.created, m.id), MonitorLine(m, HasOpenIncident(incidents, m.id)))] + MonitorLines(monitors[1..], incidents)
  }

  function OfTeam(team: nat): MonitorLine -> bool {
    (l: MonitorLine) => l.m.team == team
  }

  datatype Filters = Filters(status: string, from: Option<int>, to: Option<int>, query: string, monitor: Option<nat>)

  datatype IncidentLine = IncidentLine(i: StoredIncident, m: StoredMonitor, a: Option<StoredAlert>)

  /** SELECT ... FROM alerts WHERE incident_id = ... ORDER BY created_at DESC LIMIT 1 */
  function LatestAlert(alerts: seq<StoredAlert>, incident: nat): (a: Option<StoredAlert>)
    ensures a.Some? ==> a.value in alerts && a.value.incident == incident
    ensures forall i | 0 <= i < |alerts| && alerts[i].incident == incident :: a.Some? && alerts[i].created <= a.value.created
  {
    if alerts == [] then None
    else
      var rest := LatestAlert(alerts[1..], incident);
      if alerts[0].incident == incident && (rest.None? || rest.value.created <= alerts[0].created) then Some(alerts[0])
      else rest
  }

  function FindMonitor(monitors: seq<StoredMonitor>, id: nat): Option<StoredMonitor> {
    if monitors == [] then None
    else if monitors[0].id == id then Some(monitors[0])
    else FindMonitor(monitors[1..], id)
  }

  /** monitor_incidents JOIN monitors, with the latest alert. */
  function IncidentLines(incidents: seq<StoredIncident>, monitors: seq<StoredMonitor>, alerts: seq<StoredAlert>): seq<Entry<IncidentLine>> {
    if incidents == [] then []
    else
      var i := incidents[0];
      var m := FindMonitor(monitors, i.monitor);
      (if m.Some? then [Entry(Key(i.start, i.id), IncidentLine(i, m.value, LatestAlert(alerts, i.id)))] else [])
      + IncidentLines(incidents[1..], monitors, alerts)
  }

  predicate StatusAdmits(status: string, end: Option<int>) {
    status == "all" || (status == "active" && end.None?) || (status == "resolved" && end.Some?)
  }

  /** SQL: s LIKE p, where % stands for any string, _ for any character, and a backslash
      takes the next character as it is. */
  predicate Like(s: string, p: string)
    decreases |p|, |s|
  {
    if p == "" then s == ""
    else if p[0] == '%' then Like(s, p[1..]) || (s != "" && Like(s[1..], p))
    else if p[0] == '\\' && |p| > 1 then s != "" && s[0] == p[1] && Like(s[1..], p[2..])
    else s != "" && (p[0] == '_' || s[0] == p[0]) && Like(s[1..], p[1..])
  }

  /** Case folding, character by character, as the database's locale has it. */
  function Folded(fold: char -> char, s: string): string {
    seq(|s|, i requires 0 <= i < |s| => fold(s[i]))
  }

  /** SQL: url ILIKE '%' || q || '%' */
  predicate ILike(fold: char -> char, url: string, q: string) {
    Like(Folded(fold, url), "%" + Folded(fold, q) + "%")
  }

  /** The WHERE clause without its cursor. */
  function Admits(team: nat, f: Filters, fold: char -> char): IncidentLine -> bool {
    (l: IncidentLine) =>
      && l.m.team == team
      && StatusAdmits(f.status, l.i.end)
      && (f.from.Some? ==> l.i.start >= f.from.value)
      && (f.to.Some? ==> l.i.start <= f.to.value)
      && (f.query == "" || ILike(fold, l.m.target.url, f.query))
      && (f.monitor.Some? ==> l.i.monitor == f.monitor.value)
  }

  /** Postgres refuses a negative LIMIT; limit + 1 is an int32 and may wrap around. */
  function FetchLimit(limit: int): Option<nat> {
    var fetch := Domain.ToInt32(limit + 1);
    if fetch < 0 then None else Some(fetch)
  }

  newtype int32 = x: int | -0x8000_0000 <= x < 0x8000_0000

  lemma FetchLimitIs(limit: int)
    requires -0x8000_0000 <= limit < 0x8000_0000
    ensures FetchLimit(limit) == if limit == 0x7FFF_FFFF || limit < -1 then None else Some(limit + 1)
  {
  }

  // What a list request promises

  function ToMonitor(e: Entry<MonitorLine>): Monitor {
    var m := e.row.m;
    Monitor(e.key.id, m.team, m.user, m.target, m.enabled, CommaList.ChannelsFromString(m.channels), e.key.ts, e.row.isDown)
  }

  function Or<T>(o: Option<T>, fallback: T): T {
    if o.Some? then o.value else fallback
  }

  /** EXTRACT(EPOCH FROM ...)::BIGINT of microseconds: to the nearest second, halves away
      from zero. */
  function Seconds(us: int): int {
    if us >= 0 then (us + 500_000) / 1_000_000 else -((500_000 - us) / 1_000_000)
  }

  /** A row of the answer at time `now`; COALESCE and the zero values of pgtype fill in
      what is NULL. */
  function ToIncident(now: int): Entry<IncidentLine> -> Incident {
    (e: Entry<IncidentLine>) =>
      var i, t, a := e.row.i, e.row.m.target, e.row.a;
      Incident(e.key.id, i.monitor, t.url, e.key.ts, i.end, i.cause, i.created, i.end.None?,
               Seconds(Or(i.end, now) - e.key.ts),
               if a.Some? then a.value.status else "",
               if a.Some? then a.value.email else "",
               if a.Some? then a.value.sentAt else None,
               Or(t.expectedStatus, 0),
               Or(t.latencyLimit, 0))
  }

  function Mapped<S, T>(s: seq<S>, f: S -> T): seq<T> {
    seq(|s|, i requires 0 <= i < |s| => f(s[i]))
  }

  function MonitorPage(t: Tables, team: nat, c: Option<Cursor>, limit: nat): Page<Monitor> {
    var p := PageAt(MonitorLines(t.monitors, t.incidents), OfTeam(team), c, limit);
    Page(Mapped(p.rows, ToMonitor), p.hasMore, p.next)
  }

  function IncidentPage(t: Tables, team: nat, f: Filters, fold: char -> char, c: Option<Cursor>, limit: nat, now: int)
    : Page<Incident>
  {
    var p := PageAt(IncidentLines(t.incidents, t.monitors, t.alerts), Admits(team, f, fold), c, limit);
    Page(Mapped(p.rows, ToIncident(now)), p.hasMore, p.next)
  }

  /** Fetching one row more than asked for tells whether there are more. */
  lemma OneMore<T>(s: seq<T>, limit: nat)
    ensures |Limit(s, limit + 1)| > limit <==> |s| > limit
    ensures Limit(Limit(s, limit + 1), limit) == Limit(s, limit)
  {
  }

  // The repositories

  method CollectMonitors(rows: seq<Entry<MonitorLine>>, limit: nat) returns (monitors: seq<Monitor>, hasMore: bool)
    ensures monitors == Mapped(Limit(rows, limit), ToMonitor) && (hasMore <==> |rows| > limit)
  {
    monitors := [];
    for i := 0 to |rows|
      invariant monitors == Mapped(rows[..i], ToMonitor)
    {
      monitors := monitors + [ToMonitor(rows[i])];
    }
    hasMore := |monitors| > limit;
    if hasMore {
      monitors := monitors[..limit];
    }
  }

  /** Whether the repository answers at all: -1 makes it slice with a negative bound. */
  function ListTrouble(limit: int, ok: bool): Option<ListError> {
    if !ok || FetchLimit(limit).None? then Some(Unavailable)
    else if limit < 0 then Some(Panicked)
    else None
  }

  /** Repository.GetAll. `ok` says that the query succeeds. */
  method GetAll(t: Tables, team: nat, c: Option<Cursor>, limit: int32, ok: bool) returns (r: Listed<Monitor>)
    ensures r.Refused? <==> ListTrouble(limit as int, ok).Some?
    ensures r.Refused? ==> Some(r.error) == ListTrouble(limit as int, ok)
    ensures r.Rows? ==>
      limit >= 0 && var p := MonitorPage(t, team, c, limit as int);
      r.rows == p.rows && r.hasMore == p.hasMore
  {
    FetchLimitIs(limit as int);
    var fetch := FetchLimit(limit as int);
    if !ok || fetch.None? {
      return Refused(Unavailable);
    }
    var lines := MonitorLines(t.monitors, t.incidents);
    var rows := Query(lines, OfTeam(team), c, fetch.value);
    if limit < 0 {
      // no row, which is more than -1, and then monitors[:-1]
      return Refused(Panicked);
    }
    OneMore(Rest(lines, OfTeam(team), c), limit as int);
    var monitors, hasMore := CollectMonitors(rows, limit as int);
    r := Rows(monitors, hasMore);
  }

  method CollectIncidents(rows: seq<Entry<IncidentLine>>, limit: nat, now: int) returns (incidents: seq<Incident>, hasMore: bool)
    ensures incidents == Mapped(Limit(rows, limit), ToIncident(now)) && (hasMore <==> |rows| > limit)
  {
    incidents := [];
    for i := 0 to |rows|
      invariant incidents == Mapped(rows[..i], ToIncident(now))
    {
      incidents := incidents + [ToIncident(now)(rows[i])];
    }
    hasMore := |incidents| > limit;
    if hasMore {
      incidents := incidents[..limit];
    }
  }

  function EffectiveLimit(asked: int): nat {
    if asked <= 0 then DEFAULT_LIMIT else asked
  }

  function IncidentTrouble(c: Option<Cursor>, asked: int, ok: bool): Option<ListError> {
    if c.Some? && c.value.id.None? then Some(InvalidInput)
    else if !ok || FetchLimit(EffectiveLimit(asked)).None? then Some(Unavailable)
    else None
  }

  /** Repository.ListByTeamID. */
  method ListIncidents(t: Tables, team: nat, f: Filters, fold: char -> char,
                       c: Option<Cursor>, asked: int32, now: int, ok: bool) returns (r: Listed<Incident>)
    ensures r.Refused? <==> IncidentTrouble(c, asked as int, ok).Some?
    ensures r.Refused? ==> Some(r.error) == IncidentTrouble(c, asked as int, ok)
    ensures r.Rows? ==>
      var p := IncidentPage(t, team, f, fold, c, EffectiveLimit(asked as int), now);
      r.rows == p.rows && r.hasMore == p.hasMore
  {
    var limit := asked as int;
    if limit <= 0 {
      limit := DEFAULT_LIMIT;
    }
    FetchLimitIs(limit);
    var fetch := FetchLimit(limit);
    if c.Some? && c.value.id.None? {
      return Refused(InvalidInput);
    }
    if !ok || fetch.None? {
      return Refused(Unavailable);
    }
    var lines := IncidentLines(t.incidents, t.monitors, t.alerts);
    var rows := Query(lines, Admits(team, f, fold), c, fetch.value);
    assert rows == Limit(Rest(lines, Admits(team, f, fold), c), limit + 1);
    OneMore(Rest(lines, Admits(team, f, fold), c), limit);
    var incidents, hasMore := CollectIncidents(rows, limit, now);
    r := Rows(incidents, hasMore);
  }

  // The services

  /** Service.GetAllMonitors: one page of the list of the team's monitors. */
  method GetAllMonitors(t: Tables, team: nat, c: Option<Cursor>, limit: int32, ok: bool) returns (r: Answer<Monitor>)
    ensures r ==
      if ListTrouble(limit as int, ok).Some? then Error(ListTrouble(limit as int, ok).value)
      else Answer(MonitorPage(t, team, c, limit as int))
  {
    var listed := GetAll(t, team, c, limit, ok);
    if listed.Refused? {
      return Error(listed.error);
    }
    var next := None;
    if listed.hasMore && listed.rows != [] {
      var last := listed.rows[|listed.rows| - 1];
      next := Some(Cursor(last.created, Some(last.id)));
    }
    ghost var rows := PageAt(MonitorLines(t.monitors, t.incidents), OfTeam(team), c, limit as int).rows;
    assert rows != [] ==> listed.rows[|rows| - 1] == ToMonitor(rows[|rows| - 1]);
    r := Answer(Page(listed.rows, listed.hasMore, next));
  }

  /** Service.ListByTeamID: one page of the filtered list of the team's incidents. */
  method ListByTeamID(t: Tables, team: nat, f: Filters, fold: char -> char,
                      c: Option<Cursor>, asked: int32, now: int, ok: bool) returns (r: Answer<Incident>)
    ensures r ==
      if IncidentTrouble(c, asked as int, ok).Some? then Error(IncidentTrouble(c, asked as int, ok).value)
      else Answer(IncidentPage(t, team, f, fold, c, if asked <= 0 then 20 else asked as int, now))
  {
    var listed := ListIncidents(t, team, f, fold, c, asked, now, ok);
    if listed.Refused? {
      return Error(listed.error);
    }
    var next := None;
    if listed.hasMore && listed.rows != [] {
      var last := listed.rows[|listed.rows| - 1];
      next := Some(Cursor(last.start, Some(last.id)));
    }
    ghost var limit := EffectiveLimit(asked as int);
    ghost var rows := PageAt(IncidentLines(t.incidents, t.monitors, t.alerts), Admits(team, f, fold), c, limit).rows;
    assert rows != [] ==> listed.rows[|rows| - 1] == ToIncident(now)(rows[|rows| - 1]);
    r := Answer(Page(listed.rows, listed.hasMore, next));
  }

  // Searching

  /** None of the three characters that LIKE reads in its own way. */
  predicate Plain(q: string) {
    '%' !in q && '_' !in q && '\\' !in q
  }

  lemma {:induction false} LikeAnything(s: string)
    ensures Like(s, "%")
  {
    assert "%"[1..] == "";
    if s != "" {
      LikeAnything(s[1..]);
    }
  }

  lemma {:induction false} LikePrefix(s: string, q: string)
    requires Plain(q)
    ensures Like(s, q + "%") <==> q <= s
  {
    if q == "" {
      assert q + "%" == "%";
      LikeAnything(s);
    } else {
      assert (q + "%")[1..] == q[1..] + "%";
      if s != "" {
        LikePrefix(s[1..], q[1..]);
        assert s[0] == q[0] && q[1..] <= s[1..] ==> q <= s by {
          assert s == [s[0]] + s[1..] && q == [q[0]] + q[1..];
        }
      }
    }
  }

  predicate Contains(s: string, q: string) {
    q <= s || (s != "" && Contains(s[1..], q))
  }

  /** A query without these characters finds the URLs that contain it, up to case. */
  lemma {:induction false} PlainLike(s: string, q: string)
    requires Plain(q)
    ensures Like(s, "%" + q + "%") <==> Contains(s, q)
  {
    var p := "%" + q + "%";
    assert p[1..] == q + "%";
    LikePrefix(s, q);
    if s != "" {
      PlainLike(s[1..], q);
    }
  }

  lemma PlainQueryIsSearch(fold: char -> char, url: string, q: string)
    requires Plain(Folded(fold, q))
    ensures ILike(fold, url, q) <==> Contains(Folded(fold, url), Folded(fold, q))
  {
    PlainLike(Folded(fold, url), Folded(fold, q));
  }

  /** Others are not taken literally: an underscore finds every URL that is not empty. */
  lemma UnderscoreFindsAll(fold: char -> char, url: string)
    requires url != "" && fold('_') == '_'
    ensures ILike(fold, url, "_")
  {
    var s := Folded(fold, url);
    assert Folded(fold, "_") == "_";
    var p := "%" + "_" + "%";
    assert p[1..] == "_%" && "_%"[1..] == "%";
    LikeAnything(s[1..]);
    assert Like(s, "_%");
  }

  /** A backslash makes the next character stand for itself. */
  lemma {:induction false} EscapedPercent(s: string)
    ensures Like(s, "%\\%%") <==> '%' in s
  {
    var p := "%\\%%";
    assert p[1..] == "\\%%" && "\\%%"[2..] == "%";
    if s != "" {
      LikeAnything(s[1..]);
      EscapedPercent(s[1..]);
      assert s == [s[0]] + s[1..];
    }
  }

  // The lists as walks see them

  ghost predicate DistinctMonitors(monitors: seq<StoredMonitor>) {
    forall i, j | 0 <= i < j < |monitors| :: monitors[i].id != monitors[j].id
  }

  ghost predicate DistinctIncidents(incidents: seq<StoredIncident>) {
    forall i, j | 0 <= i < j < |incidents| :: incidents[i].id != incidents[j].id
  }

  lemma {:induction false} MonitorLinesSpec(monitors: seq<StoredMonitor>, incidents: seq<StoredIncident>)
    ensures var lines := MonitorLines(monitors, incidents);
      && |lines| == |monitors|
      && forall k | 0 <= k < |lines| ::
           && lines[k].row == MonitorLine(monitors[k], HasOpenIncident(incidents, monitors[k].id))
           && lines[k].key == Key(monitors[k].created, monitors[k].id)
  {
    if monitors != [] {
      MonitorLinesSpec(monitors[1..], incidents);
    }
  }

  /** Primary keys make the joined rows distinct, so every theorem of PageWalk applies. */
  lemma MonitorLinesUnique(t: Tables)
    requires DistinctMonitors(t.monitors)
    ensures UniqueIds(MonitorLines(t.monitors, t.incidents))
  {
    MonitorLinesSpec(t.monitors, t.incidents);
  }

  /** A joined row is one of the incidents with its own monitor, under its own key. */
  predicate Joins(l: Entry<IncidentLine>, i: StoredIncident) {
    l.row.i == i && l.key == Key(i.start, i.id) && i.monitor == l.row.m.id
  }

  lemma {:induction false} IncidentLineJoins(incidents: seq<StoredIncident>, monitors: seq<StoredMonitor>, alerts: seq<StoredAlert>, k: nat) returns (i: nat)
    requires k < |IncidentLines(incidents, monitors, alerts)|
    ensures i < |incidents| && Joins(IncidentLines(incidents, monitors, alerts)[k], incidents[i])
  {
    JoinedMonitor(monitors, incidents[0].monitor);
    var joined := FindMonitor(monitors, incidents[0].monitor).Some?;
    if joined && k == 0 {
      i := 0;
    } else {
      var j := IncidentLineJoins(incidents[1..], monitors, alerts, if joined then k - 1 else k);
      i := j + 1;
    }
  }

  /** Every incident whose monitor is there is listed ... */
  lemma {:induction false} IncidentIsListed(incidents: seq<StoredIncident>, monitors: seq<StoredMonitor>, alerts: seq<StoredAlert>, i: nat) returns (k: nat)
    requires i < |incidents| && FindMonitor(monitors, incidents[i].monitor).Some?
    ensures k < |IncidentLines(incidents, monitors, alerts)| && IncidentLines(incidents, monitors, alerts)[k].row.i == incidents[i]
  {
    var joined := FindMonitor(monitors, incidents[0].monitor).Some?;
    if i == 0 {
      k := 0;
    } else {
      var j := IncidentIsListed(incidents[1..], monitors, alerts, i - 1);
      k := if joined then j + 1 else j;
    }
  }

  /** ... and none is listed twice. */
  lemma {:induction false} IncidentLineIds(incidents: seq<StoredIncident>, monitors: seq<StoredMonitor>, alerts: seq<StoredAlert>)
    requires DistinctIncidents(incidents)
    ensures UniqueIds(IncidentLines(incidents, monitors, alerts))
  {
    if incidents != [] {
      var tail := IncidentLines(incidents[1..], monitors, alerts);
      IncidentLineIds(incidents[1..], monitors, alerts);
      forall k | 0 <= k < |tail|
        ensures tail[k].key.id != incidents[0].id
      {
        var i := IncidentLineJoins(incidents[1..], monitors, alerts, k);
        assert incidents[i + 1].id == tail[k].key.id;
      }
    }
  }

  lemma {:induction false} JoinedMonitor(monitors: seq<StoredMonitor>, id: nat)
    ensures var m := FindMonitor(monitors, id); m.Some? ==> m.value in monitors && m.value.id == id
  {
    if monitors != [] {
      JoinedMonitor(monitors[1..], id);
    }
  }

  // What the answers hold

  /** A row of the list of monitors shows this stored monitor. */
  ghost predicate Shows(row: Monitor, m: StoredMonitor, incidents: seq<StoredIncident>) {
    && row.id == m.id && row.team == m.team && row.user == m.user
    && row.target == m.target && row.enabled == m.enabled && row.created == m.created
    && CommaList.ChannelsToString(row.channels) == m.channels && CommaList.NoCommas(row.channels) && row.channels != [""]
    && (row.isDown <==> exists j | 0 <= j < |incidents| :: incidents[j].monitor == m.id && incidents[j].end.None?)
  }

  lemma RestRow<T>(table: seq<Entry<T>>, matches: T -> bool, c: Option<Cursor>, limit: nat, k: nat) returns (n: nat)
    requires UniqueIds(table) && k < |PageAt(table, matches, c, limit).rows|
    ensures n < |table| && table[n] == PageAt(table, matches, c, limit).rows[k]
    ensures matches(table[n].row) && Before(table[n].key, c)
  {
    var rest := Rest(table, matches, c);
    RestSorted(table, matches, c);
    assert rest[k] in rest;
    n :| 0 <= n < |table| && table[n] == rest[k];
  }

  lemma RowOfRest<T>(table: seq<Entry<T>>, matches: T -> bool, limit: nat, n: nat) returns (k: nat)
    requires UniqueIds(table) && n < |table| && matches(table[n].row) && limit >= |table|
    ensures k < |PageAt(table, matches, None, limit).rows| && PageAt(table, matches, None, limit).rows[k] == table[n]
  {
    var rest := Rest(table, matches, None);
    RestSorted(table, matches, None);
    SelectMembers(table, Wanted(matches, None));
    SelectUnique(table, Wanted(matches, None));
    OrderBySorts(Select(table, Wanted(matches, None)));
    assert table[n] in rest;
    k :| 0 <= k < |rest| && rest[k] == table[n];
  }

  lemma MonitorLineShows(t: Tables, n: nat)
    requires n < |MonitorLines(t.monitors, t.incidents)|
    ensures n < |t.monitors|
    ensures var l := MonitorLines(t.monitors, t.incidents)[n];
      && l.row.m == t.monitors[n] && l.key == Key(t.monitors[n].created, t.monitors[n].id)
      && Shows(ToMonitor(l), t.monitors[n], t.incidents)
  {
    MonitorLinesSpec(t.monitors, t.incidents);
    var l := MonitorLines(t.monitors, t.incidents)[n];
    assert l.row == MonitorLine(t.monitors[n], HasOpenIncident(t.incidents, t.monitors[n].id));
    CommaList.StoredRoundTrip(t.monitors[n].channels);
    CommaList.SplitHasNoCommas(t.monitors[n].channels);
  }

  /** Every row of a team's list of monitors shows a monitor of that team, below the cursor ... */
  lemma ListedMonitor(t: Tables, team: nat, c: Option<Cursor>, limit: nat, k: nat) returns (i: nat)
    requires DistinctMonitors(t.monitors) && k < |MonitorPage(t, team, c, limit).rows|
    ensures var row := MonitorPage(t, team, c, limit).rows[k];
      && i < |t.monitors| && Shows(row, t.monitors[i], t.incidents)
      && row.team == team
      && Before(Key(row.created, row.id), c)
  {
    MonitorLinesUnique(t);
    i := RestRow(MonitorLines(t.monitors, t.incidents), OfTeam(team), c, limit, k);
    MonitorLineShows(t, i);
  }

  /** ... and every monitor of the team has a row. */
  lemma MonitorIsListed(t: Tables, team: nat, limit: nat, i: nat) returns (k: nat)
    requires DistinctMonitors(t.monitors) && limit >= |t.monitors|
    requires i < |t.monitors| && t.monitors[i].team == team
    ensures var rows := MonitorPage(t, team, None, limit).rows;
      k < |rows| && Shows(rows[k], t.monitors[i], t.incidents)
  {
    MonitorLinesUnique(t);
    MonitorLinesSpec(t.monitors, t.incidents);
    MonitorLineShows(t, i);
    k := RowOfRest(MonitorLines(t.monitors, t.incidents), OfTeam(team), limit, i);
  }

  /** A row of the list of incidents shows this stored incident of this monitor. */
  ghost predicate ShowsIncident(row: Incident, i: StoredIncident, m: StoredMonitor, now: int) {
    && row.id == i.id && row.monitor == i.monitor == m.id && row.url == m.target.url
    && row.start == i.start && row.end == i.end && row.cause == i.cause && row.created == i.created
    && (row.isActive <==> i.end.None?)
    && row.expectedStatus == (if m.target.expectedStatus.Some? then m.target.expectedStatus.value else 0)
    && row.latencyLimit == (if m.target.latencyLimit.Some? then m.target.latencyLimit.value else 0)
    && var lasted := (if i.end.Some? then i.end.value else now) - i.start;
       RoundsTo(lasted, row.duration)
  }

  /** The nearest second; of two, the one farther from zero. */
  predicate RoundsTo(us: int, seconds: int) {
    var off := seconds * 1_000_000 - us;
    if us >= 0 then -500_000 < off <= 500_000 else -500_000 <= off < 500_000
  }

  /** ... with its latest alert, if it has one. */
  ghost predicate ShowsAlert(row: Incident, alerts: seq<StoredAlert>) {
    if exists n | 0 <= n < |alerts| :: alerts[n].incident == row.id then
      exists n | 0 <= n < |alerts| ::
        && alerts[n].incident == row.id
        && (forall j | 0 <= j < |alerts| && alerts[j].incident == row.id :: alerts[j].created <= alerts[n].created)
        && row.alertStatus == alerts[n].status && row.alertEmail == alerts[n].email && row.alertSentAt == alerts[n].sentAt
    else
      row.alertStatus == "" && row.alertEmail == "" && row.alertSentAt == None
  }

  /** The filters of a request, as the API describes them. */
  predicate Meets(f: Filters, fold: char -> char, i: StoredIncident, m: StoredMonitor) {
    && (f.status == "all" || f.status == "active" || f.status == "resolved")
    && (f.status == "active" ==> i.end.None?)
    && (f.status == "resolved" ==> i.end.Some?)
    && (f.from.Some? ==> f.from.value <= i.start)
    && (f.to.Some? ==> i.start <= f.to.value)
    && (f.monitor.Some? ==> i.monitor == f.monitor.value)
    && (f.query != "" ==> ILike(fold, m.target.url, f.query))
  }

  lemma AdmitsMeets(team: nat, f: Filters, fold: char -> char, l: IncidentLine)
    ensures Admits(team, f, fold)(l) <==> l.m.team == team && Meets(f, fold, l.i, l.m)
  {
    assert |"all"| == 3 && |"active"| == 6 && |"resolved"| == 8;
  }

  lemma SecondsRound(us: int)
    ensures RoundsTo(us, Seconds(us))
  {
  }

  lemma LineShows(t: Tables, k: nat, now: int) returns (i: nat, m: nat)
    requires k < |IncidentLines(t.incidents, t.monitors, t.alerts)|
    ensures var l := IncidentLines(t.incidents, t.monitors, t.alerts)[k];
      && i < |t.incidents| && m < |t.monitors|
      && l.row.i == t.incidents[i] && l.row.m == t.monitors[m] && l.key == Key(t.incidents[i].start, t.incidents[i].id)
      && ShowsIncident(ToIncident(now)(l), t.incidents[i], t.monitors[m], now)
      && ShowsAlert(ToIncident(now)(l), t.alerts)
  {
    var l := IncidentLines(t.incidents, t.monitors, t.alerts)[k];
    i := IncidentLineJoins(t.incidents, t.monitors, t.alerts, k);
    LineSources(t.incidents, t.monitors, t.alerts, k);
    m :| 0 <= m < |t.monitors| && t.monitors[m] == l.row.m;
    SecondsRound((if l.row.i.end.Some? then l.row.i.end.value else now) - l.row.i.start);
    if l.row.a.Some? {
      var n :| 0 <= n < |t.alerts| && t.alerts[n] == l.row.a.value;
      assert t.alerts[n].incident == ToIncident(now)(l).id;
    }
  }

  lemma {:induction false} LineSources(incidents: seq<StoredIncident>, monitors: seq<StoredMonitor>, alerts: seq<StoredAlert>, k: nat)
    requires k < |IncidentLines(incidents, monitors, alerts)|
    ensures var l := IncidentLines(incidents, monitors, alerts)[k];
      l.row.m in monitors && l.row.a == LatestAlert(alerts, l.row.i.id)
  {
    JoinedMonitor(monitors, incidents[0].monitor);
    var joined := FindMonitor(monitors, incidents[0].monitor).Some?;
    if !joined || k > 0 {
      LineSources(incidents[1..], monitors, alerts, if joined then k - 1 else k);
    }
  }

  /** Every row of a list of incidents shows an incident of one of the team's monitors that
      meets the filters, below the cursor ... */
  lemma ListedIncident(t: Tables, team: nat, f: Filters, fold: char -> char, c: Option<Cursor>, limit: nat, now: int, k: nat)
    returns (i: nat, m: nat)
    requires DistinctIncidents(t.incidents) && k < |IncidentPage(t, team, f, fold, c, limit, now).rows|
    ensures var row := IncidentPage(t, team, f, fold, c, limit, now).rows[k];
      && i < |t.incidents| && m < |t.monitors|
      && ShowsIncident(row, t.incidents[i], t.monitors[m], now)
      && ShowsAlert(row, t.alerts)
      && t.monitors[m].team == team
      && Meets(f, fold, t.incidents[i], t.monitors[m])
      && Before(Key(row.start, row.id), c)
  {
    var lines := IncidentLines(t.incidents, t.monitors, t.alerts);
    IncidentLineIds(t.incidents, t.monitors, t.alerts);
    var n := RestRow(lines, Admits(team, f, fold), c, limit, k);
    AdmitsMeets(team, f, fold, lines[n].row);
    i, m := LineShows(t, n, now);
  }

  /** ... and every such incident has a row. */
  lemma IncidentHasRow(t: Tables, team: nat, f: Filters, fold: char -> char, limit: nat, now: int, i: nat, m: nat) returns (k: nat)
    requires DistinctIncidents(t.incidents) && DistinctMonitors(t.monitors) && limit >= |t.incidents|
    requires i < |t.incidents| && m < |t.monitors| && t.incidents[i].monitor == t.monitors[m].id
    requires t.monitors[m].team == team && Meets(f, fold, t.incidents[i], t.monitors[m])
    ensures var rows := IncidentPage(t, team, f, fold, None, limit, now).rows;
      k < |rows| && ShowsIncident(rows[k], t.incidents[i], t.monitors[m], now)
  {
    var lines := IncidentLines(t.incidents, t.monitors, t.alerts);
    IncidentLineIds(t.incidents, t.monitors, t.alerts);
    FindsItsMonitor(t.monitors, m);
    var n := IncidentIsListed(t.incidents, t.monitors, t.alerts, i);
    var i', m' := LineShows(t, n, now);
    AdmitsMeets(team, f, fold, lines[n].row);
    LinesAreFewer(t.incidents, t.monitors, t.alerts);
    k := RowOfRest(lines, Admits(team, f, fold), limit, n);
  }

  lemma {:induction false} FindsItsMonitor(monitors: seq<StoredMonitor>, m: nat)
    requires DistinctMonitors(monitors) && m < |monitors|
    ensures FindMonitor(monitors, monitors[m].id) == Some(monitors[m])
  {
    if m > 0 {
      FindsItsMonitor(monitors[1..], m - 1);
    }
  }

  lemma {:induction false} LinesAreFewer(incidents: seq<StoredIncident>, monitors: seq<StoredMonitor>, alerts: seq<StoredAlert>)
    ensures |IncidentLines(incidents, monitors, alerts)| <= |incidents|
  {
    if incidents != [] {
      LinesAreFewer(incidents[1..], monitors, alerts);
    }
  }
}
