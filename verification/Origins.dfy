// A complete reading of the origin, and what it means for the actions.

module Origins {
  import opened Sorting
  import opened Values
  import opened Server
  import opened Merging
  import opened Plans
  import opened Objects
  import opened Configs
  import opened Api
  import opened Memory
  import opened Syncing
  import opened Perform
  import opened Reading

  // The tour of reads ended with go, or broke off, or the version was too old.
  ghost predicate Visited(cfg: Syncing.Config, version: string, events: seq<Event>, go: bool)
  {
    var tour, coe := OriginReads(cfg.features), cfg.continueOnError;
    if go then OnTour(coe, tour, events) && |events| == |tour| && !cfg.tooOld(version)
    else
      || (Broken(coe, tour, events) && (|events| > 1 ==> !cfg.tooOld(version)))
      || (|events| == 1 && OnTour(coe, tour, events) && cfg.tooOld(version))
  }

  lemma ReadsOnly(cfg: Syncing.Config, version: string, events: seq<Event>, go: bool)
    requires Visited(cfg, version, events, go)
    ensures forall i | 0 <= i < |events| :: events[i].call.Get?
  {
    var n := |events| - 1;
    if Broken(cfg.continueOnError, OriginReads(cfg.features), events) {
      forall i | 0 <= i < n ensures events[i].call.Get? { assert events[..n][i] == events[i]; }
    }
  }

  // Is this the answer to a read that the run goes on after? Only for the profile, and under
  // ContinueOnError, another than success: 401.
  predicate GoesOn(continueOnError: bool, k: int, e: Event)
  {
    e.reply.Done? || (continueOnError && k == 1 && e.reply.Failed? && e.reply.code == 401)
  }

  // All reads of a run.
  function Tour(f: Features): seq<Resource>
  {
    [Status, ProfileInfo, Parental, SafeSearchConfig, SafeBrowsing, RewriteList, Resource.BlockedServices, Filtering,
     ClientList, QueryLogConfig, StatsConfig, AccessLists, Resource.DnsConfig]
    + (if f.dhcpServerConfig then [DhcpConfig] else if f.dhcpStaticLeases then [DhcpConfig] else [])
    + (if f.tlsConfig then [TlsConfig] else [])
  }

  lemma TourIs(f: Features)
    ensures OriginReads(f) == Tour(f)
    ensures forall k | 0 <= k < |Tour(f)| :: Tour(f)[k] == ProfileInfo <==> k == 1
  {}

  lemma PassesMeans(f: Features, coe: bool, k: nat, e: Event)
    requires k < |Tour(f)| && e.call == Get(Tour(f)[k])
    ensures Passes(coe, e) <==> GoesOn(coe, k, e)
  {
    TourIs(f);
    hide Tour;
  }

  lemma OnTourMeans(f: Features, coe: bool, events: seq<Event>)
    requires OnTour(coe, OriginReads(f), events)
    ensures |events| <= |Tour(f)|
    ensures forall k | 0 <= k < |events| :: events[k].call == Get(Tour(f)[k]) && GoesOn(coe, k, events[k])
  {
    TourIs(f);
    hide Tour, OriginReads, Passes, GoesOn;
    forall k | 0 <= k < |events| ensures GoesOn(coe, k, events[k]) { PassesMeans(f, coe, k, events[k]); }
  }

  lemma BrokenMeans(f: Features, coe: bool, events: seq<Event>)
    requires Broken(coe, OriginReads(f), events)
    ensures 0 < |events| <= |Tour(f)|
    ensures forall k | 0 <= k < |events| :: events[k].call == Get(Tour(f)[k])
    ensures forall k | 0 <= k < |events| :: GoesOn(coe, k, events[k]) <==> k < |events| - 1
  {
    var n := |events| - 1;
    TourIs(f);
    OnTourMeans(f, coe, events[..n]);
    hide Tour, OriginReads, Passes, GoesOn, OnTour;
    PassesMeans(f, coe, n, events[n]);
    forall k | 0 <= k < n ensures events[k].call == Get(Tour(f)[k]) && GoesOn(coe, k, events[k]) {
      assert events[..n][k] == events[k];
    }
  }

  // What is read of the origin: its parts in this order, one read each, up to the first
  // that is not answered with success (or the one tolerated answer), and only the status if
  // the version is too old. The run goes on exactly when all was read and the version will do.
  lemma ReadsExactly(cfg: Syncing.Config, version: string, events: seq<Event>, go: bool)
    requires Visited(cfg, version, events, go)
    ensures 0 < |events| <= |Tour(cfg.features)|
    ensures forall k | 0 <= k < |events| :: events[k].call == Get(Tour(cfg.features)[k])
    ensures forall k | 0 <= k < |events| - 1 :: GoesOn(cfg.continueOnError, k, events[k])
    ensures go <==> |events| == |Tour(cfg.features)| && !cfg.tooOld(version)
                    && GoesOn(cfg.continueOnError, |events| - 1, events[|events| - 1])
    ensures !go && GoesOn(cfg.continueOnError, |events| - 1, events[|events| - 1]) ==>
              cfg.tooOld(version) && |events| == 1
    ensures cfg.tooOld(version) ==> |events| == 1
  {
    var f, coe := cfg.features, cfg.continueOnError;
    TourIs(f);
    assert |Tour(f)| >= 13;
    hide Tour, OriginReads, OnTour, Broken, GoesOn;
    if Broken(coe, OriginReads(f), events) { BrokenMeans(f, coe, events); } else { OnTourMeans(f, coe, events); }
  }

  // The settings a complete reading leaves in memory.
  function SettingsOf(f: Features, s: Instance, profileRead: bool): Settings
  {
    s.settings.(profile := if profileRead then s.settings.profile else Profile("", "", ""),
                dns := s.ReadDns(),
                dhcp := if NeedsDhcp(f) then s.settings.dhcp else NO_DHCP,
                tls := if f.tlsConfig then s.settings.tls else "")
  }

  // A reading of the instance s: its lists in any order, its settings as they are.
  ghost predicate IsReading(f: Features, s: Instance, profileRead: bool, o: Origin)
  {
    && o.version == s.version && o.settings == SettingsOf(f, s, profileRead) && o.rewrites == s.rewrites
    && Listing(o.filters, Part(s.lists, BlockLists)) && Listing(o.allowFilters, Part(s.lists, AllowLists))
    && Listing(o.clients, Part(s.lists, ListId.Clients))
    && if NeedsDhcp(f) then Listing(o.LeaseList(), Part(s.lists, Leases)) else o.staticLeases == None
  }

  // The first half of a reading of s, whatever the settings of the second half are.
  ghost predicate HalfOf(s: Instance, profileRead: bool, version: string, settings: Settings,
                         rewrites: seq<RewriteEntry>, services: Services, filters: Option<seq<Item>>,
      allowFilters: Option<seq<Item>>, clients: seq<Item>)
  {
    && version == s.version && rewrites == s.rewrites && services == s.settings.services
    && GeneralRead(s.settings, NO_SETTINGS.(userRules := s.settings.userRules, filtering := s.settings.filtering,
                                            queryLog := settings.queryLog, stats := settings.stats),
                   profileRead, settings)
    && Listing(OrEmpty(filters), Part(s.lists, BlockLists)) && Listing(OrEmpty(allowFilters), Part(s.lists, AllowLists))
    && Listing(clients, Part(s.lists, ListId.Clients))
  }

  ghost predicate HalfRead(s: Instance, profileRead: bool, o: OriginMemory)
    reads o, o.clients, if o.services == null then {} else Slice(o.services.ids)
  {
    && o.services != null && Distinct(o.clients)
    && HalfOf(s, profileRead, o.version, o.settings, o.rewrites, o.services.View(), o.filters, o.allowFilters,
              Views(o.clients))
  }

  method ReadFirstHalf(oc: ApiClient, o: OriginMemory, cfg: Syncing.Config) returns (go: bool, ghost events: seq<Event>)
    requires Filed(oc.server) && o.settings == NO_SETTINGS
    modifies oc, o`version, o`settings, o`rewrites, o`services, o`filters, o`allowFilters, o`clients
    ensures oc.server == old(oc.server) && oc.trace == old(oc.trace) + events
    ensures go ==> OnTour(cfg.continueOnError, OriginReads(cfg.features), events) && |events| == 9
    ensures go ==> !cfg.tooOld(oc.server.version)
    ensures !go ==> Visited(cfg, oc.server.version, events, false)
    ensures go ==> HalfRead(oc.server, events[1].Ok(), o)
    ensures go ==> fresh(o.clients) && fresh(Slice(o.services.ids))
  {
    hide OnTour, Broken, Filed, OriginReads, Listing, Views, BlockedServices.View, Slice;
    ghost var tour, t0 := OriginReads(cfg.features), oc.trace;
    go, events := ReadGeneral(oc, o, cfg, tour);
    if !go { return; }
    go, events := ReadRewritesAndServices(oc, o, cfg, tour, t0, events);
    if !go { return; }
    go, events := ReadFilters(oc, o, cfg, tour, t0, events);
    if !go { return; }
    go, events := ReadClients(oc, o, cfg, tour, t0, events);
  }

  // The second half has been read.
  ghost predicate RestRead(f: Features, s: Instance, o: OriginMemory)
    reads o, if o.access == null then {} else o.access.Slices(), o.Fixed()
  {
    && o.settings.queryLog == s.settings.queryLog && o.settings.stats == s.settings.stats
    && o.access != null && o.access.Valid() && o.access.View() == s.settings.access
    && o.dns != null && o.dns.Valid() && o.dns.View() == s.ReadDns()
    && (if NeedsDhcp(f) then o.dhcp != null && DhcpRead(s, o.dhcp) else o.dhcp == null)
    && o.tls == (if f.tlsConfig then Some(s.settings.tls) else None)
  }

  method ReadSecondHalf(oc: ApiClient, o: OriginMemory, cfg: Syncing.Config, ghost t0: seq<Event>,
                        ghost before: seq<Event>)
    returns (go: bool, ghost events: seq<Event>)
    requires Filed(oc.server) && oc.trace == t0 + before && o.dhcp == null && o.tls == None
    requires OnTour(cfg.continueOnError, OriginReads(cfg.features), before) && |before| == 9
    requires !cfg.tooOld(oc.server.version)
    modifies oc, o`settings, o`access, o`dns, o`dhcp, o`tls
    ensures oc.server == old(oc.server) && oc.trace == t0 + events && before <= events
    ensures Visited(cfg, oc.server.version, events, go)
    ensures o.settings == old(o.settings).(queryLog := o.settings.queryLog, stats := o.settings.stats)
    ensures go ==> RestRead(cfg.features, oc.server, o) && fresh(o.access.Slices()) && fresh(o.Fixed())
    ensures go ==> o.access.Slices() !! o.Fixed()
  {
    hide OnTour, Broken, Filed, OriginReads, Listing, DhcpRead, AccessList.View, AccessList.Valid,
         Configs.DnsConfig.View, Configs.DnsConfig.Valid, Configs.DnsConfig.Slices;
    ghost var tour := OriginReads(cfg.features);
    go, events := ReadLogAndStatsConfig(oc, o, cfg, tour, t0, before);
    if !go { return; }
    go, events := ReadAccess(oc, o, cfg, tour, t0, events);
    if !go { return; }
    ghost var slices := o.access.Slices();
    go, events := ReadDns(oc, o, cfg, tour, t0, events);
    if !go { return; }
    assert slices !! o.dns.Slices();
    go, events := ReadDhcp(oc, o, cfg, tour, t0, events);
    if !go { return; }
    go, events := ReadTls(oc, o, cfg, tour, t0, events);
  }

  lemma ListingBelongs(list: ListId, items: seq<Item>, s: Instance)
    requires Filed(s) && Listing(items, Part(s.lists, list))
    ensures AllBelong(list, items) && DistinctKeys(items)
  {
    PartIsFiled(s, list);
  }

  lemma ReadingIsTyped(f: Features, s: Instance, profileRead: bool, o: Origin)
    requires IsReading(f, s, profileRead, o) && Filed(s)
    ensures Typed(o)
  {
    hide Filed, Listing, Part;
    forall list ensures AllBelong(list, o.List(list)) {
      if o.List(list) != [] { ListingBelongs(list, o.List(list), s); }
    }
  }

  // Both halves together.
  lemma BothHalves(f: Features, s: Instance, profileRead: bool, o: OriginMemory)
    requires Filed(s) && HalfRead(s, profileRead, o) && RestRead(f, s, o)
    requires forall c | c in o.clients :: c !in o.access.Slices() + Slice(o.services.ids)
    requires o.access.Slices() !! Slice(o.services.ids)
    requires o.Touchable() !! o.Fixed() && o !in o.Touchable() + o.Fixed()
    ensures IsReading(f, s, profileRead, o.View()) && o.Valid()
  {
    hide Filed, Listing, Typed;
    assert IsReading(f, s, profileRead, o.View());
    ReadingIsTyped(f, s, profileRead, o.View());
  }

  // What the enabled features ask the origin to report: for DNS, with an upstream list also
  // the two other lists; for filters, enabled and interval; for query log and general
  // settings, what log lines show of the query log and of safe search.
  predicate Reports(f: Features, s: Instance)
  {
    && (f.dnsServerConfig ==> Sortable(s.ReadDns()))
    && (f.filters ==> s.settings.filtering.enabled.Some? && s.settings.filtering.interval.Some?)
    && (f.queryLogConfig ==> s.settings.queryLog.Loggable())
    && (f.generalSettings ==> s.settings.safeSearch.enabled.Some?)
  }

  // Wiring: whatever the features, every action they enable finds the parts of the origin
  // it dereferences.
  lemma EnabledActionsAreReady(f: Features, s: Instance, profileRead: bool, o: OriginMemory, act: Action)
    requires HalfRead(s, profileRead, o) && RestRead(f, s, o) && Reports(f, s) && Enabled(f, act)
    ensures Ready(act, o)
  {
    hide Listing, Sortable;
  }

  // The reads an action's part of the origin comes from.
  function SourceOf(act: Action): Resource
  {
    match act
    case ProfileAction => ProfileInfo
    case ProtectionAction => Status
    case ParentalAction => Parental
    case SafeSearchAction => SafeSearchConfig
    case SafeBrowsingAction => SafeBrowsing
    case DnsAction => Resource.DnsConfig
    case QueryLogAction => QueryLogConfig
    case StatsAction => StatsConfig
    case RewritesAction => RewriteList
    case FiltersAction => Filtering
    case ServicesAction => Resource.BlockedServices
    case ClientsAction => ClientList
    case AccessAction => AccessLists
    case DhcpConfigAction => DhcpConfig
    case LeasesAction => DhcpConfig
    case TlsAction => TlsConfig
  }

  // A complete tour has read, with success, what every enabled action works from; only a
  // profile may be missing, by a 401 under ContinueOnError.
  lemma EnabledActionsAreRead(cfg: Syncing.Config, version: string, events: seq<Event>, act: Action) returns (i: nat)
    requires Visited(cfg, version, events, true) && Enabled(cfg.features, act)
    ensures i < |events| && events[i].call == Get(SourceOf(act))
    ensures events[i].Ok() || (act.ProfileAction? && cfg.continueOnError && events[i].reply == Failed(401))
  {
    ReadsAre(cfg.features);
    hide OriginReads;
    i := match act
      case ProtectionAction => 0
      case ProfileAction => 1
      case ParentalAction => 2
      case SafeSearchAction => 3
      case SafeBrowsingAction => 4
      case RewritesAction => 5
      case ServicesAction => 6
      case FiltersAction => 7
      case ClientsAction => 8
      case QueryLogAction => 9
      case StatsAction => 10
      case AccessAction => 11
      case DnsAction => 12
      case DhcpConfigAction => 13
      case LeasesAction => 13
      case TlsAction => |events| - 1;
  }

  // The two optional reads are made exactly when an enabled action works from them.
  lemma OptionalReadsAreNeeded(f: Features, what: Resource)
    requires what == DhcpConfig || what == TlsConfig
    ensures what in OriginReads(f) <==> exists act :: Enabled(f, act) && SourceOf(act) == what
  {
    assert SourceOf(DhcpConfigAction) == SourceOf(LeasesAction) == DhcpConfig && SourceOf(TlsAction) == TlsConfig;
    assert Enabled(f, DhcpConfigAction) == f.dhcpServerConfig && Enabled(f, LeasesAction) == f.dhcpStaticLeases;
    assert Enabled(f, TlsAction) == f.tlsConfig;
  }

  // The second half of the reads leaves the first half as it is.
  lemma HalfStays(s: Instance, profileRead: bool, version: string, settings: Settings, rewrites: seq<RewriteEntry>,
                  services: Services, filters: Option<seq<Item>>, allowFilters: Option<seq<Item>>, clients: seq<Item>,
      settings': Settings)
    requires HalfOf(s, profileRead, version, settings, rewrites, services, filters, allowFilters, clients)
    requires settings' == settings.(queryLog := settings'.queryLog, stats := settings'.stats)
    ensures HalfOf(s, profileRead, version, settings', rewrites, services, filters, allowFilters, clients)
  {
    hide Listing;
  }

  // Both halves of the reads, into a memory that holds nothing yet.
  method ReadHalves(oc: ApiClient, o: OriginMemory, cfg: Syncing.Config) returns (go: bool, ghost events: seq<Event>)
    requires Filed(oc.server) && o.settings == NO_SETTINGS && o.dhcp == null && o.tls == None
    modifies oc, o
    ensures oc.server == old(oc.server) && oc.trace == old(oc.trace) + events
    ensures Visited(cfg, oc.server.version, events, go)
    ensures go ==> |events| > 1 && HalfRead(oc.server, events[1].Ok(), o) && RestRead(cfg.features, oc.server, o)
    ensures go ==> fresh(o.clients) && fresh(Slice(o.services.ids)) && fresh(o.access.Slices()) && fresh(o.Fixed())
    ensures go ==> o.access.Slices() !! o.Fixed() && o.Touchable() !! o.Fixed()
    ensures go ==> o.access.Slices() !! Slice(o.services.ids)
    ensures go ==> forall c | c in o.clients :: c !in o.access.Slices() + Slice(o.services.ids)
  {
    hide Visited, Filed, OnTour, HalfOf, RestRead, Views, BlockedServices.View;
    go, events := ReadFirstHalf(oc, o, cfg);
    if !go { return; }
    ghost var settings, profileRead := o.settings, events[1].Ok();
    go, events := ReadSecondHalf(oc, o, cfg, old(oc.trace), events);
    if !go { return; }
    HalfStays(oc.server, profileRead, o.version, settings, o.rewrites, o.services.View(), o.filters, o.allowFilters,
              Views(o.clients), o.settings);
  }

  // All reads of the origin.
  method ReadOrigin(oc: ApiClient, cfg: Syncing.Config) returns (go: bool, o: OriginMemory, ghost events: seq<Event>)
    requires Filed(oc.server) && Reports(cfg.features, oc.server)
    modifies oc
    ensures oc.server == old(oc.server) && oc.trace == old(oc.trace) + events
    ensures Visited(cfg, oc.server.version, events, go)
    ensures fresh(o) && (go ==> o.Valid() && fresh(o.clients) && fresh(o.Touchable()) && fresh(o.Fixed()))
    ensures go ==> |events| > 1 && IsReading(cfg.features, oc.server, events[1].Ok(), o.View())
    ensures go ==> forall act | Enabled(cfg.features, act) :: Ready(act, o)
  {
    hide Visited, Filed, Reports, HalfRead, RestRead, IsReading, Ready, Enabled, OriginMemory.View, OriginMemory.Valid;
    o := new OriginMemory();
    go, events := ReadHalves(oc, o, cfg);
    if !go { return; }
    ReadingIsComplete(cfg.features, oc.server, events[1].Ok(), o);
  }

  lemma ReadingIsComplete(f: Features, s: Instance, profileRead: bool, o: OriginMemory)
    requires Filed(s) && Reports(f, s) && HalfRead(s, profileRead, o) && RestRead(f, s, o)
    requires forall c | c in o.clients :: c !in o.access.Slices() + Slice(o.services.ids)
    requires o.access.Slices() !! Slice(o.services.ids)
    requires o.Touchable() !! o.Fixed() && o !in o.Touchable() + o.Fixed()
    ensures IsReading(f, s, profileRead, o.View()) && o.Valid()
    ensures forall act | Enabled(f, act) :: Ready(act, o)
  {
    hide Filed, Reports, HalfOf, Ready, Enabled, IsReading, OriginMemory.View;
    BothHalves(f, s, profileRead, o);
    forall act | Enabled(f, act) ensures Ready(act, o) { EnabledActionsAreReady(f, s, profileRead, o, act); }
  }
}
