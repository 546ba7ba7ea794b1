/** What an alert worker does with one event: which plugins it uses, whom the Resend
    plugin writes to, what it caches and which row it leaves in `alerts`. */
module Alerts {
  import opened Sequences
  import CommaList
  import PluginCache

  /** The decrypted settings of a Resend plugin. */
  datatype Settings = Settings(apiKey: string, sender: string, recipients: string)

  /** A row of `plugins`; None if config_enc cannot be decrypted and decoded. */
  datatype Plugin<S> = Plugin(enabled: bool, settings: Option<S>)

  /** The table `plugins`, by type and team. A Zenduty plugin's only setting is its URL. */
  datatype Plugins = Plugins(resend: map<nat, Plugin<Settings>>, zenduty: map<nat, Plugin<string>>)

  datatype ResendConfig = ResendConfig(apiKey: string, sender: string, recipients: seq<string>)

  datatype CachedConfig<C> = CachedConfig(config: C, expires: int)

  datatype EventType = Unset | Down | Recovered

  datatype AlertEvent = AlertEvent(incident: nat, monitor: nat, team: nat, eventType: EventType, channels: seq<string>)

  datatype Email = Email(apiKey: string, sender: string, to: seq<string>, incident: nat, recovered: bool)

  /** An event posted to a Zenduty integration. */
  datatype Posting = Posting(url: string, monitor: nat, resolved: bool)

  datatype Status = Sent | Failed | SkippedNoPlugin

  datatype AlertRow = AlertRow(incident: nat, email: string, status: Status, sentAt: Option<int>)

  datatype Loading<C> = Found(config: C) | Missing | LoadError

  /** When a worker reads the cache, fills it, and sends. */
  datatype Instants = Instants(read: int, filled: int, sent: int)

  /** Which of the calls made for one event and one plugin succeed. */
  datatype Calls = Calls(cacheRead: bool, dbRead: bool, cacheWrite: bool, send: bool, persist: bool)

  // Channels

  predicate Selected(channels: seq<string>, plugin: string) {
    channels == [] || plugin in channels
  }

  method ChannelEnabled(channels: seq<string>, plugin: string) returns (enabled: bool)
    ensures enabled <==> Selected(channels, plugin)
  {
    if |channels| == 0 {
      return true;
    }
    for i := 0 to |channels|
      invariant plugin !in channels[..i]
    {
      if channels[i] == plugin {
        return true;
      }
    }
    assert channels[..|channels|] == channels;
    return false;
  }

  /** What a monitor's list of channels selects after it went through the database: a
      name with a comma counts as several, and the list of one empty name, which
      selects nothing, comes back empty and selects everything. */
  lemma SelectionOnceStored(channels: seq<string>, plugin: string)
    requires plugin != "" && ',' !in plugin
    ensures var stored := CommaList.ChannelsFromString(CommaList.ChannelsToString(channels));
      Selected(stored, plugin) <==>
        || channels == []
        || channels == [""]
        || exists i | 0 <= i < |channels| :: plugin in CommaList.Split(channels[i])
  {
    if |channels| > 1 {
      CommaList.JoinSeveral(channels);
    }
    if channels != [] {
      CommaList.SplitOfJoin(channels, plugin);
    }
  }

  // One event

  function ReadSettings(s: Settings): ResendConfig {
    ResendConfig(s.apiKey, s.sender, CommaList.Recipients(s.recipients))
  }

  /** What Postgres has to say about a team's plugin. */
  function StoredConfig<S, C>(plugins: map<nat, Plugin<S>>, team: nat, ok: bool, decode: S -> C): Loading<C> {
    if !ok then LoadError
    else if team !in plugins || !plugins[team].enabled then Missing
    else if plugins[team].settings.None? then LoadError
    else Found(decode(plugins[team].settings.value))
  }

  predicate Cached<C>(cache: map<nat, CachedConfig<C>>, team: nat, at: Instants, calls: Calls) {
    calls.cacheRead && team in cache && at.read < cache[team].expires
  }

  function UsedConfig<S, C>(cache: map<nat, CachedConfig<C>>, plugins: map<nat, Plugin<S>>, team: nat,
                            at: Instants, calls: Calls, decode: S -> C): Loading<C> {
    if Cached(cache, team, at, calls) then Found(cache[team].config)
    else StoredConfig(plugins, team, calls.dbRead, decode)
  }

  /** The cache is filled with what a lookup that missed has found, and with nothing else. */
  function FilledCache<C>(cache: map<nat, CachedConfig<C>>, team: nat, at: Instants, calls: Calls, used: Loading<C>)
    : map<nat, CachedConfig<C>>
  {
    if !Cached(cache, team, at, calls) && used.Found? && calls.cacheWrite
    then cache[team := CachedConfig(used.config, at.filled + PluginCache.TTL)]
    else cache
  }

  /** The configured recipients, or else the sender. */
  function Addressees(config: ResendConfig): seq<string> {
    if config.recipients == [] && config.sender != "" then [config.sender] else config.recipients
  }

  predicate Writes(used: Loading<ResendConfig>) {
    used.Found? && Addressees(used.config) != []
  }

  function EmailFor(ev: AlertEvent, config: ResendConfig): Email {
    Email(config.apiKey, config.sender, Addressees(config), ev.incident, ev.eventType == Recovered)
  }

  function RowFor(ev: AlertEvent, used: Loading<ResendConfig>, now: int, accepted: bool): AlertRow {
    if Writes(used)
    then AlertRow(ev.incident, CommaList.Join(Addressees(used.config)),
                  if accepted then Sent else Failed, if accepted then Some(now) else None)
    else AlertRow(ev.incident, "", if used.Missing? then SkippedNoPlugin else Failed, None)
  }

  ghost predicate Proper(config: ResendConfig) {
    CommaList.Clean(config.recipients)
  }

  /** The addresses in the row's e-mail column are the ones that were written to. */
  lemma EmailColumnParses(ev: AlertEvent, config: ResendConfig, now: int, accepted: bool)
    requires Proper(config) && config.recipients != []
    ensures var row := RowFor(ev, Found(config), now, accepted);
      CommaList.Recipients(row.email) == EmailFor(ev, config).to == config.recipients
  {
    CommaList.RecipientsRoundTrip(config.recipients);
  }

  lemma StoredIsProper(plugins: map<nat, Plugin<Settings>>, team: nat, ok: bool)
    ensures var l := StoredConfig(plugins, team, ok, ReadSettings); l.Found? ==> Proper(l.config)
  {
    if team in plugins && plugins[team].settings.Some? {
      CommaList.RecipientsAreClean(plugins[team].settings.value.recipients);
    }
  }

  /** What alert workers share: the caches in Redis, the e-mails accepted by Resend, the
      events accepted by Zenduty, and the table `alerts`. */
  datatype Shared = Shared(
    cache: map<nat, CachedConfig<ResendConfig>>,
    urls: map<nat, CachedConfig<string>>,
    emails: seq<Email>,
    postings: seq<Posting>,
    alerts: seq<AlertRow>)

  /** What handleResend makes of it. */
  function Handled(s: Shared, plugins: Plugins, ev: AlertEvent, at: Instants, calls: Calls): Shared {
    var used := UsedConfig(s.cache, plugins.resend, ev.team, at, calls, ReadSettings);
    s.(cache := FilledCache(s.cache, ev.team, at, calls, used),
       emails := if Writes(used) && calls.send then s.emails + [EmailFor(ev, used.config)] else s.emails,
       alerts := if calls.persist then s.alerts + [RowFor(ev, used, at.sent, calls.send)] else s.alerts)
  }

  function AsIs(url: string): string {
    url
  }

  /** What handleZenduty makes of it. */
  function Posted(s: Shared, plugins: Plugins, ev: AlertEvent, at: Instants, calls: Calls): Shared {
    var used := UsedConfig(s.urls, plugins.zenduty, ev.team, at, calls, AsIs);
    s.(urls := FilledCache(s.urls, ev.team, at, calls, used),
       postings :=
         if used.Found? && calls.send then s.postings + [Posting(used.config, ev.monitor, ev.eventType == Recovered)]
         else s.postings)
  }

  /** One event with what surrounds its handling. */
  datatype Turn = Turn(ev: AlertEvent, plugins: Plugins, resendAt: Instants, resend: Calls, zendutyAt: Instants, zenduty: Calls)

  /** What processAlert makes of it. */
  function Processed(s: Shared, t: Turn): Shared {
    var ev := Typed(t.ev);
    var s1 := if Selected(ev.channels, "resend") then Handled(s, t.plugins, ev, t.resendAt, t.resend) else s;
    if Selected(ev.channels, "zenduty") then Posted(s1, t.plugins, ev, t.zendutyAt, t.zenduty) else s1
  }

  // Many events

  function ProcessedAll(s: Shared, turns: seq<Turn>): Shared {
    if turns == [] then s else Processed(ProcessedAll(s, turns[..|turns| - 1]), turns[|turns| - 1])
  }

  function IsSent(): AlertRow -> nat {
    (row: AlertRow) => Bit(row.status == Sent)
  }

  /** The incidents of the events that select Resend. */
  function Incidents(turns: seq<Turn>): seq<nat> {
    if turns == [] then []
    else
      var t := turns[|turns| - 1];
      Incidents(turns[..|turns| - 1]) + (if Selected(t.ev.channels, "resend") then [t.ev.incident] else [])
  }

  function RowIncidents(rows: seq<AlertRow>): seq<nat> {
    seq(|rows|, i requires 0 <= i < |rows| => rows[i].incident)
  }

  /** If inserting never fails, the table `alerts` gets one row per event that selects
      Resend, in order, and as many rows say 'sent' as e-mails were accepted, whatever
      else fails and however plugins change. */
  lemma {:induction false} RowsMatchEvents(s: Shared, turns: seq<Turn>)
    requires forall i | 0 <= i < |turns| :: turns[i].resend.persist
    ensures var s' := ProcessedAll(s, turns);
      && RowIncidents(s'.alerts) == RowIncidents(s.alerts) + Incidents(turns)
      && Weigh(s'.alerts, IsSent()) + |s.emails| == Weigh(s.alerts, IsSent()) + |s'.emails|
  {
    if turns != [] {
      var front, t := turns[..|turns| - 1], turns[|turns| - 1];
      RowsMatchEvents(s, front);
      RowMatchesEvent(ProcessedAll(s, front), t);
    }
  }

  lemma RowMatchesEvent(s: Shared, t: Turn)
    requires t.resend.persist
    ensures var s' := Processed(s, t);
      && RowIncidents(s'.alerts) == RowIncidents(s.alerts) + (if Selected(t.ev.channels, "resend") then [t.ev.incident] else [])
      && Weigh(s'.alerts, IsSent()) + |s.emails| == Weigh(s.alerts, IsSent()) + |s'.emails|
  {
    if Selected(t.ev.channels, "resend") {
      var ev := Typed(t.ev);
      var used := UsedConfig(s.cache, t.plugins.resend, ev.team, t.resendAt, t.resend, ReadSettings);
      var row := RowFor(ev, used, t.resendAt.sent, t.resend.send);
      WeighAppend(s.alerts, [row], IsSent());
      WeighOne(row, IsSent());
    }
  }

  /** An event without a type is a DOWN event. */
  function Typed(ev: AlertEvent): AlertEvent {
    if ev.eventType == Unset then ev.(eventType := Down) else ev
  }

  // One event, in the terms of the surroundings

  /** The cache answers, and the entry has not expired. */
  predicate AnswersFromCache<C>(cache: map<nat, CachedConfig<C>>, team: nat, at: Instants, calls: Calls) {
    calls.cacheRead && team in cache && at.read < cache[team].expires
  }

  /** The database answers with an enabled plugin that can be decoded. */
  predicate AnswersFromTable<S>(plugins: map<nat, Plugin<S>>, team: nat, calls: Calls) {
    calls.dbRead && team in plugins && plugins[team].enabled && plugins[team].settings.Some?
  }

  /** An e-mail goes to the recipients, or to the sender if there are none. */
  predicate GoesTo(e: Email, apiKey: string, sender: string, recipients: seq<string>) {
    && e.apiKey == apiKey && e.sender == sender
    && (if recipients == [] then sender != "" && e.to == [sender] else e.to == recipients)
  }

  predicate ResendSelected(t: Turn) {
    t.ev.channels == [] || "resend" in t.ev.channels
  }

  predicate ZendutySelected(t: Turn) {
    t.ev.channels == [] || "zenduty" in t.ev.channels
  }

  /** What an e-mail says and where it comes from. */
  ghost predicate Reports(e: Email, s: Shared, t: Turn) {
    && ResendSelected(t)
    && t.resend.send
    && e.incident == t.ev.incident
    && (e.recovered <==> t.ev.eventType == Recovered)
    && if AnswersFromCache(s.cache, t.ev.team, t.resendAt, t.resend) then
         var config := s.cache[t.ev.team].config;
         GoesTo(e, config.apiKey, config.sender, config.recipients)
       else
         && AnswersFromTable(t.plugins.resend, t.ev.team, t.resend)
         && var stored := t.plugins.resend[t.ev.team].settings.value;
            GoesTo(e, stored.apiKey, stored.sender, CommaList.Recipients(stored.recipients))
  }

  /** One event leads to at most one e-mail, of its own incident and kind, written with the
      cached configuration if it is fresh and with the stored and enabled one if not. */
  lemma TurnEmails(s: Shared, t: Turn)
    ensures var s' := Processed(s, t);
      s'.emails == s.emails || (s'.emails != [] && s'.emails[..|s'.emails| - 1] == s.emails && Reports(s'.emails[|s'.emails| - 1], s, t))
  {
    if ResendSelected(t) {
      var ev := Typed(t.ev);
      var used := UsedConfig(s.cache, t.plugins.resend, ev.team, t.resendAt, t.resend, ReadSettings);
      if Writes(used) && t.resend.send {
        assert Processed(s, t).emails == s.emails + [EmailFor(ev, used.config)];
        assert Reports(EmailFor(ev, used.config), s, t);
      }
    }
  }

  /** It leads to one exactly if the channels select Resend, there is a configuration with
      somebody to write to, and Resend accepts it. */
  lemma TurnWrites(s: Shared, t: Turn)
    ensures var s' := Processed(s, t);
      |s'.emails| == |s.emails| + 1 <==>
        && ResendSelected(t)
        && t.resend.send
        && if AnswersFromCache(s.cache, t.ev.team, t.resendAt, t.resend) then
             s.cache[t.ev.team].config.recipients != [] || s.cache[t.ev.team].config.sender != ""
           else
             && AnswersFromTable(t.plugins.resend, t.ev.team, t.resend)
             && var stored := t.plugins.resend[t.ev.team].settings.value;
                CommaList.Recipients(stored.recipients) != [] || stored.sender != ""
  {
  }

  /** The row of the event: 'sent', with the time and the addresses, exactly if the e-mail
      was accepted, 'skipped_no_plugin' exactly if the table was read and has no enabled
      plugin, and 'failed' otherwise. */
  lemma TurnRow(s: Shared, t: Turn)
    ensures var s' := Processed(s, t);
      if !ResendSelected(t) || !t.resend.persist then s'.alerts == s.alerts
      else
        && s'.alerts != [] && s'.alerts[..|s'.alerts| - 1] == s.alerts
        && var row := s'.alerts[|s'.alerts| - 1];
           && row.incident == t.ev.incident
           && (row.status == Sent <==> |s'.emails| == |s.emails| + 1)
           && row.sentAt == (if row.status == Sent then Some(t.resendAt.sent) else None)
           && (row.status == Sent ==> row.email == CommaList.Join(s'.emails[|s.emails|].to))
           && (row.status == SkippedNoPlugin <==>
                 && !AnswersFromCache(s.cache, t.ev.team, t.resendAt, t.resend)
                 && t.resend.dbRead
                 && !(t.ev.team in t.plugins.resend && t.plugins.resend[t.ev.team].enabled))
  {
  }

  /** The cached configuration changes only for the team, after a read of the table that
      found an enabled plugin, and then it is that one for 5 minutes from the SET. */
  lemma TurnCaches(s: Shared, t: Turn)
    ensures var s' := Processed(s, t);
      || s'.cache == s.cache
      || (&& !AnswersFromCache(s.cache, t.ev.team, t.resendAt, t.resend)
          && AnswersFromTable(t.plugins.resend, t.ev.team, t.resend)
          && t.resend.cacheWrite
          && var stored := t.plugins.resend[t.ev.team].settings.value;
             s'.cache == s.cache[t.ev.team := CachedConfig(
               ResendConfig(stored.apiKey, stored.sender, CommaList.Recipients(stored.recipients)),
               t.resendAt.filled + 300_000)])
  {
  }

  /** What a posting says and where it comes from. */
  ghost predicate Posts(p: Posting, s: Shared, t: Turn) {
    && ZendutySelected(t)
    && t.zenduty.send
    && p.monitor == t.ev.monitor
    && (p.resolved <==> t.ev.eventType == Recovered)
    && if AnswersFromCache(s.urls, t.ev.team, t.zendutyAt, t.zenduty) then p.url == s.urls[t.ev.team].config
       else AnswersFromTable(t.plugins.zenduty, t.ev.team, t.zenduty) && p.url == t.plugins.zenduty[t.ev.team].settings.value
  }

  /** One event leads to a posting exactly if the channels select Zenduty, there is a URL
      and Zenduty accepts it; the posting is of its own monitor and kind. */
  lemma TurnPostings(s: Shared, t: Turn)
    ensures var s' := Processed(s, t);
      if && ZendutySelected(t) && t.zenduty.send
         && (AnswersFromCache(s.urls, t.ev.team, t.zendutyAt, t.zenduty) || AnswersFromTable(t.plugins.zenduty, t.ev.team, t.zenduty))
      then s'.postings != [] && s'.postings[..|s'.postings| - 1] == s.postings && Posts(s'.postings[|s'.postings| - 1], s, t)
      else s'.postings == s.postings
    ensures var s' := Processed(s, t);
      || s'.urls == s.urls
      || (&& !AnswersFromCache(s.urls, t.ev.team, t.zendutyAt, t.zenduty)
          && AnswersFromTable(t.plugins.zenduty, t.ev.team, t.zenduty)
          && t.zenduty.cacheWrite
          && s'.urls == s.urls[t.ev.team :=
               CachedConfig(t.plugins.zenduty[t.ev.team].settings.value, t.zendutyAt.filled + 300_000)])
  {
  }

  /** One of the events selects Resend and is what this e-mail reports. */
  ghost predicate EmailDue(e: Email, turns: seq<Turn>) {
    exists i | 0 <= i < |turns| ::
      ResendSelected(turns[i]) && e.incident == turns[i].ev.incident && (e.recovered <==> turns[i].ev.eventType == Recovered)
  }

  /** One of the events selects Zenduty and is what this posting reports. */
  ghost predicate PostingDue(p: Posting, turns: seq<Turn>) {
    exists i | 0 <= i < |turns| ::
      ZendutySelected(turns[i]) && p.monitor == turns[i].ev.monitor && (p.resolved <==> turns[i].ev.eventType == Recovered)
  }

  lemma DueStays(turns: seq<Turn>)
    requires turns != []
    ensures forall e | EmailDue(e, turns[..|turns| - 1]) :: EmailDue(e, turns)
    ensures forall p | PostingDue(p, turns[..|turns| - 1]) :: PostingDue(p, turns)
  {
    var front := turns[..|turns| - 1];
    assert forall i | 0 <= i < |front| :: front[i] == turns[i];
  }

  /** Over any number of events: e-mails and postings only grow, and each new one reports
      an event that selects its plugin, with the event's incident or monitor and kind. */
  lemma {:induction false} EverythingSentIsDue(s: Shared, turns: seq<Turn>)
    ensures var s' := ProcessedAll(s, turns);
      && s.emails <= s'.emails
      && s.postings <= s'.postings
      && (forall k | |s.emails| <= k < |s'.emails| :: EmailDue(s'.emails[k], turns))
      && (forall k | |s.postings| <= k < |s'.postings| :: PostingDue(s'.postings[k], turns))
  {
    if turns != [] {
      var front, t := turns[..|turns| - 1], turns[|turns| - 1];
      var s1, s' := ProcessedAll(s, front), ProcessedAll(s, turns);
      EverythingSentIsDue(s, front);
      DueStays(turns);
      TurnEmails(s1, t);
      TurnPostings(s1, t);
      if |s'.emails| > |s1.emails| {
        assert ResendSelected(turns[|turns| - 1]);
        assert EmailDue(s'.emails[|s1.emails|], turns);
      }
      if |s'.postings| > |s1.postings| {
        assert ZendutySelected(turns[|turns| - 1]);
        assert PostingDue(s'.postings[|s1.postings|], turns);
      }
      forall k | |s.emails| <= k < |s'.emails|
        ensures EmailDue(s'.emails[k], turns)
      {
        assert k < |s1.emails| ==> s'.emails[k] == s1.emails[k];
      }
      forall k | |s.postings| <= k < |s'.postings|
        ensures PostingDue(s'.postings[k], turns)
      {
        assert k < |s1.postings| ==> s'.postings[k] == s1.postings[k];
      }
    }
  }

  class PluginRepository {
    var plugins: Plugins

    constructor ()
      ensures plugins == Plugins(map[], map[])
    {
      plugins := Plugins(map[], map[]);
    }

    /** Upsert of a Resend plugin, if the statement succeeds. */
    method Upsert(team: nat, enabled: bool, settings: Settings, ok: bool)
      modifies this
      ensures plugins ==
        if ok then old(plugins).(resend := old(plugins).resend[team := Plugin(enabled, Some(settings))]) else old(plugins)
      ensures ok ==>
        StoredConfig(plugins.resend, team, true, ReadSettings)
        == if enabled then
             Found(ResendConfig(settings.apiKey, settings.sender, CommaList.Recipients(settings.recipients)))
           else Missing
      ensures forall other | other != team ::
        StoredConfig(plugins.resend, other, true, ReadSettings) == old(StoredConfig(plugins.resend, other, true, ReadSettings))
    {
      if ok {
        plugins := plugins.(resend := plugins.resend[team := Plugin(enabled, Some(settings))]);
      }
    }

    method Delete(team: nat, ok: bool)
      modifies this
      ensures plugins == if ok then old(plugins).(resend := old(plugins).resend - {team}) else old(plugins)
      ensures ok ==> StoredConfig(plugins.resend, team, true, ReadSettings) == Missing
      ensures forall other | other != team ::
        StoredConfig(plugins.resend, other, true, ReadSettings) == old(StoredConfig(plugins.resend, other, true, ReadSettings))
    {
      if ok {
        plugins := plugins.(resend := plugins.resend - {team});
      }
    }

    method GetResendConfig(team: nat, ok: bool) returns (l: Loading<ResendConfig>)
      ensures l == StoredConfig(plugins.resend, team, ok, ReadSettings)
    {
      if !ok {
        return LoadError;
      }
      if team !in plugins.resend {
        return Missing;
      }
      var row := plugins.resend[team];
      if !row.enabled {
        return Missing;
      }
      if row.settings.None? {
        return LoadError;
      }
      var emails := CommaList.ParseRecipients(row.settings.value.recipients);
      l := Found(ResendConfig(row.settings.value.apiKey, row.settings.value.sender, emails));
    }

    method GetZendutyConfig(team: nat, ok: bool) returns (l: Loading<string>)
      ensures l == StoredConfig(plugins.zenduty, team, ok, AsIs)
    {
      if !ok {
        return LoadError;
      }
      if team !in plugins.zenduty || !plugins.zenduty[team].enabled {
        return Missing;
      }
      var row := plugins.zenduty[team];
      if row.settings.None? {
        return LoadError;
      }
      l := Found(row.settings.value);
    }
  }

  /** An alert worker with what it shares. */
  class AlertService {
    const repo: PluginRepository
    var cache: map<nat, CachedConfig<ResendConfig>>
    var urls: map<nat, CachedConfig<string>>
    var emails: seq<Email>
    var postings: seq<Posting>
    var alerts: seq<AlertRow>

    constructor (repo: PluginRepository)
      ensures this.repo == repo && State() == Shared(map[], map[], [], [], [])
      ensures Valid()
    {
      this.repo := repo;
      cache, urls := map[], map[];
      emails, postings, alerts := [], [], [];
    }

    ghost predicate Valid()
      reads this
    {
      forall team | team in cache :: Proper(cache[team].config)
    }

    function State(): Shared
      reads this
    {
      Shared(cache, urls, emails, postings, alerts)
    }

    method Persist(row: AlertRow, ok: bool)
      modifies this`alerts
      ensures alerts == if ok then old(alerts) + [row] else old(alerts)
    {
      if ok {
        alerts := alerts + [row];
      }
    }

    /** The first half of handleResend: the configuration from the cache, or else from
        the database and then into the cache. */
    method FindConfig(team: nat, at: Instants, calls: Calls) returns (used: Loading<ResendConfig>)
      requires Valid()
      modifies this`cache
      ensures Valid() && used == UsedConfig(old(cache), repo.plugins.resend, team, at, calls, ReadSettings)
      ensures cache == FilledCache(old(cache), team, at, calls, used)
    {
      if calls.cacheRead && team in cache && at.read < cache[team].expires {
        return Found(cache[team].config);
      }
      used := repo.GetResendConfig(team, calls.dbRead);
      StoredIsProper(repo.plugins.resend, team, calls.dbRead);
      if used.Found? && calls.cacheWrite {
        cache := cache[team := CachedConfig(used.config, at.filled + PluginCache.TTL)];
      }
    }

    method HandleResend(ev: AlertEvent, at: Instants, calls: Calls)
      requires Valid()
      modifies this
      ensures Valid() && repo.plugins == old(repo.plugins)
      ensures State() == Handled(old(State()), repo.plugins, ev, at, calls)
    {
      var used := FindConfig(ev.team, at, calls);
      match used {
        case LoadError =>
          Persist(AlertRow(ev.incident, "", Failed, None), calls.persist);
          return;
        case Missing =>
          Persist(AlertRow(ev.incident, "", SkippedNoPlugin, None), calls.persist);
          return;
        case _ =>
      }
      var config := used.config;
      var recipients := config.recipients;
      if |recipients| == 0 && config.sender != "" {
        recipients := [config.sender];
      }
      if |recipients| == 0 {
        Persist(AlertRow(ev.incident, "", Failed, None), calls.persist);
        return;
      }
      var status, sentAt := Sent, Some(at.sent);
      if calls.send {
        emails := emails + [Email(config.apiKey, config.sender, recipients, ev.incident, ev.eventType == Recovered)];
      } else {
        status, sentAt := Failed, None;
      }
      Persist(AlertRow(ev.incident, CommaList.Join(recipients), status, sentAt), calls.persist);
    }

    method HandleZenduty(ev: AlertEvent, at: Instants, calls: Calls)
      requires Valid()
      modifies this`urls, this`postings
      ensures Valid() && State() == Posted(old(State()), repo.plugins, ev, at, calls)
    {
      var url := "";
      if calls.cacheRead && ev.team in urls && at.read < urls[ev.team].expires {
        url := urls[ev.team].config;
      } else {
        var used := repo.GetZendutyConfig(ev.team, calls.dbRead);
        if !used.Found? {
          return;
        }
        url := used.config;
        if calls.cacheWrite {
          urls := urls[ev.team := CachedConfig(url, at.filled + PluginCache.TTL)];
        }
      }
      if calls.send {
        postings := postings + [Posting(url, ev.monitor, ev.eventType == Recovered)];
      }
    }

    method ProcessAlert(t: Turn)
      requires Valid() && t.plugins == repo.plugins
      modifies this
      ensures Valid() && repo.plugins == old(repo.plugins)
      ensures State() == Processed(old(State()), t)
    {
      var ev := t.ev;
      if ev.eventType == Unset {
        ev := ev.(eventType := Down);
      }
      var resend := ChannelEnabled(ev.channels, "resend");
      if resend {
        HandleResend(ev, t.resendAt, t.resend);
      }
      var zenduty := ChannelEnabled(ev.channels, "zenduty");
      if zenduty {
        HandleZenduty(ev, t.zendutyAt, t.zenduty);
      }
    }
  }
}
