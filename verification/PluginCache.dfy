/** How old the Resend configuration of a team can be when an alert uses it.

    The cache entry lives for a fixed time and nothing invalidates it: saving, disabling
    or deleting the plugin only changes Postgres. Alert workers, edits and time are
    interleaved in every way; all times are in milliseconds. */
module PluginCache {
  import opened Sequences

  /** 5 minutes, the ttl handed to SetCachedResendConfig. */
  const TTL: nat := 300_000

  /** The configuration that GetResendConfig would return from `at` on: None while the
      plugin is missing or disabled. */
  datatype Edit<C> = Edit(at: int, config: Option<C>)

  datatype CacheEntry<C> = CacheEntry(config: C, readAt: int, expires: int)

  /** A worker that read the database and has not yet written the cache. */
  datatype Lookup<C> = Lookup(config: C, readAt: int)

  datatype Use<C> = Use(config: C, at: int)

  datatype Cache<C> = Cache(now: int, edits: seq<Edit<C>>, entry: Option<CacheEntry<C>>, lookups: seq<Lookup<C>>, uses: seq<Use<C>>)

  datatype CacheEvent<C> =
    | Wait(ms: nat)                    // time passes
    | Save(config: Option<C>)          // Upsert, or Delete
    | Hit                              // the cache answers
    | Load                             // a worker whose GET missed or failed reads the database
    | Fill(i: nat, wrote: bool)        // the SET returns, applied or not; the worker goes on
    | Evict                            // Redis may drop a key at any time

  function Opened<C>(now: int): Cache<C> {
    Cache(now, [Edit(now, None)], None, [], [])
  }

  function Current<C>(s: Cache<C>): Option<C> {
    if s.edits == [] then None else s.edits[|s.edits| - 1].config
  }

  predicate Fresh<C>(s: Cache<C>) {
    s.entry.Some? && s.now < s.entry.value.expires
  }

  /** `d` is the deadline of a lookup: its SET returns within d of the database read. */
  predicate InTime<C>(s: Cache<C>, d: nat, ms: nat) {
    forall i | 0 <= i < |s.lookups| :: s.now + ms <= s.lookups[i].readAt + d
  }

  function CacheApply<C>(d: nat, s: Cache<C>, ev: CacheEvent<C>): Cache<C> {
    match ev
    case Wait(ms) => if InTime(s, d, ms) then s.(now := s.now + ms) else s
    case Save(config) => s.(edits := s.edits + [Edit(s.now, config)])
    case Hit => if Fresh(s) then s.(uses := s.uses + [Use(s.entry.value.config, s.now)]) else s
    case Load =>
      if Current(s).Some? then s.(lookups := s.lookups + [Lookup(Current(s).value, s.now)]) else s
    case Fill(i, wrote) =>
      if i >= |s.lookups| then s
      else
        var l := s.lookups[i];
        s.(lookups := Remove(s.lookups, i),
           entry := if wrote then Some(CacheEntry(l.config, l.readAt, s.now + TTL)) else s.entry,
           uses := s.uses + [Use(l.config, s.now)])
    case Evict => s.(entry := None)
  }

  function CacheRun<C>(d: nat, s: Cache<C>, evs: seq<CacheEvent<C>>): Cache<C> {
    if evs == [] then s else CacheApply(d, CacheRun(d, s, evs[..|evs| - 1]), evs[|evs| - 1])
  }

  /** The plugin was enabled with this configuration at this instant. */
  ghost predicate StoredAt<C>(edits: seq<Edit<C>>, config: C, at: int) {
    exists i | 0 <= i < |edits| ::
      && edits[i].config == Some(config)
      && edits[i].at <= at
      && (i + 1 < |edits| ==> at <= edits[i + 1].at)
  }

  /** ... after `from` and not later than `to`. */
  ghost predicate StoredWithin<C>(edits: seq<Edit<C>>, config: C, from: int, to: int) {
    exists at :: StoredAt(edits, config, at) && from < at <= to
  }

  ghost predicate Traced<C>(d: nat, s: Cache<C>) {
    && s.edits != []
    && (forall i | 0 <= i < |s.edits| :: s.edits[i].at <= s.now)
    && (s.entry.Some? ==>
          && StoredAt(s.edits, s.entry.value.config, s.entry.value.readAt)
          && s.entry.value.readAt <= s.now
          && s.entry.value.expires <= s.entry.value.readAt + d + TTL)
    && (forall i | 0 <= i < |s.lookups| ::
          && StoredAt(s.edits, s.lookups[i].config, s.lookups[i].readAt)
          && s.lookups[i].readAt <= s.now <= s.lookups[i].readAt + d)
  }

  ghost predicate UsesFresh<C>(d: nat, s: Cache<C>) {
    forall i | 0 <= i < |s.uses| :: StoredWithin(s.edits, s.uses[i].config, s.uses[i].at - TTL - d, s.uses[i].at)
  }

  lemma StoredStays<C>(edits: seq<Edit<C>>, e: Edit<C>, config: C, at: int)
    requires StoredAt(edits, config, at) && at <= e.at
    ensures StoredAt(edits + [e], config, at)
  {
    var i :| 0 <= i < |edits| && edits[i].config == Some(config) && edits[i].at <= at
      && (i + 1 < |edits| ==> at <= edits[i + 1].at);
    var more := edits + [e];
    assert more[i] == edits[i] && more[i + 1] == if i + 1 < |edits| then edits[i + 1] else e;
  }

  lemma WithinStays<C>(edits: seq<Edit<C>>, e: Edit<C>, config: C, from: int, to: int)
    requires StoredWithin(edits, config, from, to) && to <= e.at
    ensures StoredWithin(edits + [e], config, from, to)
  {
    var at :| StoredAt(edits, config, at) && from < at <= to;
    StoredStays(edits, e, config, at);
  }

  lemma TracedStep<C>(d: nat, s: Cache<C>, ev: CacheEvent<C>)
    requires Traced(d, s)
    ensures Traced(d, CacheApply(d, s, ev))
  {
    match ev
    case Save(config) =>
      var e := Edit(s.now, config);
      if s.entry.Some? {
        StoredStays(s.edits, e, s.entry.value.config, s.entry.value.readAt);
      }
      forall i | 0 <= i < |s.lookups|
        ensures StoredAt(s.edits + [e], s.lookups[i].config, s.lookups[i].readAt)
      {
        StoredStays(s.edits, e, s.lookups[i].config, s.lookups[i].readAt);
      }
    case Load =>
      if Current(s).Some? {
        assert s.edits[|s.edits| - 1].config == Some(Current(s).value);
        assert StoredAt(s.edits, Current(s).value, s.now);
      }
    case _ =>
  }

  ghost predicate UsesPast<C>(s: Cache<C>) {
    forall i | 0 <= i < |s.uses| :: s.uses[i].at <= s.now
  }

  lemma UsesStep<C>(d: nat, s: Cache<C>, ev: CacheEvent<C>)
    requires Traced(d, s) && UsesFresh(d, s) && UsesPast(s)
    ensures UsesFresh(d, CacheApply(d, s, ev)) && UsesPast(CacheApply(d, s, ev))
  {
    match ev
    case Save(config) =>
      forall i | 0 <= i < |s.uses|
        ensures StoredWithin(s.edits + [Edit(s.now, config)], s.uses[i].config, s.uses[i].at - TTL - d, s.uses[i].at)
      {
        WithinStays(s.edits, Edit(s.now, config), s.uses[i].config, s.uses[i].at - TTL - d, s.uses[i].at);
      }
    case Hit =>
      if Fresh(s) {
        assert StoredAt(s.edits, s.entry.value.config, s.entry.value.readAt);
        assert StoredWithin(s.edits, s.entry.value.config, s.now - TTL - d, s.now);
      }
    case Fill(i, wrote) =>
      if i < |s.lookups| {
        assert StoredAt(s.edits, s.lookups[i].config, s.lookups[i].readAt);
        assert StoredWithin(s.edits, s.lookups[i].config, s.now - TTL - d, s.now);
      }
    case _ =>
  }

  lemma {:induction false} RunTraced<C>(d: nat, now: int, evs: seq<CacheEvent<C>>)
    ensures var s := CacheRun(d, Opened(now), evs); Traced(d, s) && UsesFresh(d, s) && UsesPast(s)
  {
    if evs != [] {
      RunTraced(d, now, evs[..|evs| - 1]);
      var s := CacheRun(d, Opened(now), evs[..|evs| - 1]);
      TracedStep(d, s, evs[|evs| - 1]);
      UsesStep(d, s, evs[|evs| - 1]);
    }
  }

  /** Whatever an alert used, the plugin was enabled with it less than 5 minutes and the
      deadline of a lookup ago. */
  lemma BoundedStaleness<C>(d: nat, now: int, evs: seq<CacheEvent<C>>, i: nat)
    requires i < |CacheRun(d, Opened(now), evs).uses|
    ensures var s := CacheRun(d, Opened(now), evs);
      StoredWithin(s.edits, s.uses[i].config, s.uses[i].at - TTL - d, s.uses[i].at)
  {
    RunTraced(d, now, evs);
  }

  /** A plugin saved, read, deleted at once, and used from the cache as late as it can. */
  function Latest<C>(d: nat, config: C): seq<CacheEvent<C>> {
    [Save(Some(config)), Load, Save(None), Wait(d), Fill(0, true), Wait(TTL - 1), Hit]
  }

  lemma PrefixRun<C>(d: nat, s: Cache<C>, evs: seq<CacheEvent<C>>, i: nat)
    requires i < |evs|
    ensures CacheRun(d, s, evs[..i + 1]) == CacheApply(d, CacheRun(d, s, evs[..i]), evs[i])
  {
    assert evs[..i + 1][..i] == evs[..i];
  }

  function Deleted<C>(config: C): seq<Edit<C>> {
    [Edit(0, None), Edit(0, Some(config)), Edit(0, None)]
  }

  lemma LatestFills<C>(d: nat, config: C)
    ensures CacheRun(d, Opened(0), Latest(d, config)[..5])
         == Cache(d, Deleted(config), Some(CacheEntry(config, 0, d + TTL)), [], [Use(config, d)])
  {
    var evs, start := Latest(d, config), Opened<C>(0);
    assert evs[..0] == [];
    PrefixRun(d, start, evs, 0);
    PrefixRun(d, start, evs, 1);
    PrefixRun(d, start, evs, 2);
    assert CacheRun(d, start, evs[..3]) == Cache(0, Deleted(config), None, [Lookup(config, 0)], []);
    PrefixRun(d, start, evs, 3);
    PrefixRun(d, start, evs, 4);
  }

  lemma DeletedAtOnce<C>(config: C, to: int)
    ensures !StoredWithin(Deleted(config), config, 0, to)
  {
  }

  /** The bound is exact: a deleted configuration can still be used TTL + d - 1 ms later. */
  lemma StalenessIsTight<C>(d: nat, config: C)
    ensures var s := CacheRun(d, Opened(0), Latest(d, config));
      && s.uses == [Use(config, d), Use(config, TTL + d - 1)]
      && !StoredWithin(s.edits, config, 0, TTL + d - 1)
  {
    var evs, start := Latest(d, config), Opened<C>(0);
    LatestFills(d, config);
    DeletedAtOnce(config, TTL + d - 1);
    var s5 := CacheRun(d, start, evs[..5]);
    PrefixRun(d, start, evs, 5);
    assert CacheRun(d, start, evs[..6]) == s5.(now := TTL + d - 1);
    PrefixRun(d, start, evs, 6);
    assert evs[..7] == evs;
  }

  /** A plugin that is read and cached, and only then deleted. */
  function Unnoticed<C>(config: C): seq<CacheEvent<C>> {
    [Save(Some(config)), Load, Fill(0, true), Save(None), Wait(TTL - 1), Hit]
  }

  /** Saving does not invalidate: a deletion goes unnoticed for the rest of the 5 minutes. */
  lemma DeletionIsUnnoticed<C>(config: C)
    ensures var s := CacheRun(0, Opened(0), Unnoticed(config));
      && s.edits == Deleted(config)
      && s.uses == [Use(config, 0), Use(config, TTL - 1)]
  {
    var evs, start := Unnoticed(config), Opened<C>(0);
    assert evs[..0] == [];
    PrefixRun(0, start, evs, 0);
    PrefixRun(0, start, evs, 1);
    PrefixRun(0, start, evs, 2);
    var cached := Cache(0, [Edit(0, None), Edit(0, Some(config))], Some(CacheEntry(config, 0, TTL)), [], [Use(config, 0)]);
    assert CacheRun(0, start, evs[..3]) == cached;
    DeletedWhileCached(config, cached, start);
  }

  lemma DeletedWhileCached<C>(config: C, cached: Cache<C>, start: Cache<C>)
    requires CacheRun(0, start, Unnoticed(config)[..3]) == cached
    requires cached == Cache(0, [Edit(0, None), Edit(0, Some(config))], Some(CacheEntry(config, 0, TTL)), [], [Use(config, 0)])
    ensures var s := CacheRun(0, start, Unnoticed(config));
      s.edits == Deleted(config) && s.uses == [Use(config, 0), Use(config, TTL - 1)]
  {
    var evs := Unnoticed(config);
    PrefixRun(0, start, evs, 3);
    PrefixRun(0, start, evs, 4);
    assert CacheRun(0, start, evs[..5]) == cached.(edits := Deleted(config), now := TTL - 1);
    PrefixRun(0, start, evs, 5);
    assert evs[..6] == evs;
  }
}
