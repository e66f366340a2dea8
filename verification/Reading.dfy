// Reading the origin: one read after another, in a fixed order, until one fails.

module Reading {
  import opened Sorting
  import opened Values
  import opened Server
  import opened Merging
  import opened Plans
  import opened Objects
  import opened Configs
  import opened Api
  import opened Memory
  import opened Syncing

  // The reads of a run, in order. DHCP and TLS are read only for the features that use them.
  function OriginReads(f: Features): seq<Resource>
  {
    [Status, ProfileInfo, Parental, SafeSearchConfig, SafeBrowsing, RewriteList, Resource.BlockedServices, Filtering,
     ClientList, QueryLogConfig, StatsConfig, AccessLists, Resource.DnsConfig]
    + (if NeedsDhcp(f) then [DhcpConfig] else [])
    + (if f.tlsConfig then [TlsConfig] else [])
  }

  // Does the run go on after this read? Under ContinueOnError a profile that may not be
  // read is tolerated.
  predicate Passes(continueOnError: bool, e: Event)
  {
    e.Ok() || (continueOnError && e.call == Get(ProfileInfo) && e.reply == Failed(401))
  }

  ghost predicate OnTour(continueOnError: bool, tour: seq<Resource>, events: seq<Event>)
  {
    && |events| <= |tour|
    && forall i | 0 <= i < |events| :: events[i].call == Get(tour[i]) && Passes(continueOnError, events[i])
  }

  // The last read did not pass.
  ghost predicate Broken(continueOnError: bool, tour: seq<Resource>, events: seq<Event>)
  {
    && 0 < |events| <= |tour| && OnTour(continueOnError, tour, events[..|events| - 1])
    && events[|events| - 1].call == Get(tour[|events| - 1]) && !Passes(continueOnError, events[|events| - 1])
  }

  // n reads have been made and passed, or the last one has not; the origin is as it was.
  ghost predicate Toured(oc: ApiClient, s0: Instance, t0: seq<Event>, continueOnError: bool, tour: seq<Resource>,
                         before: seq<Event>, events: seq<Event>, go: bool, n: nat)
    reads oc
  {
    && oc.server == s0 && oc.trace == t0 + events && before <= events
    && if go then OnTour(continueOnError, tour, events) && |events| == n else Broken(continueOnError, tour, events)
  }

  lemma TourGoesOn(continueOnError: bool, tour: seq<Resource>, before: seq<Event>, e: Event)
    requires OnTour(continueOnError, tour, before) && |before| < |tour| && e.call == Get(tour[|before|])
    ensures Passes(continueOnError, e) ==> OnTour(continueOnError, tour, before + [e])
    ensures !Passes(continueOnError, e) ==> Broken(continueOnError, tour, before + [e])
  {
    assert (before + [e])[..|before|] == before;
  }

  // One read of the origin; "before" are the reads made so far.
  method Fetch(oc: ApiClient, what: Resource, ghost coe: bool, ghost tour: seq<Resource>, ghost t0: seq<Event>,
               ghost before: seq<Event>)
    returns (go: bool, s: Instance, ghost events: seq<Event>)
    requires OnTour(coe, tour, before) && |before| < |tour| && tour[|before|] == what && oc.trace == t0 + before
    requires what != ProfileInfo
    modifies oc
    ensures Toured(oc, old(oc.server), t0, coe, tour, before, events, go, |before| + 1) && |events| == |before| + 1
    ensures go ==> s == oc.server
  {
    var reply;
    ghost var e;
    reply, s, e := oc.Read(what);
    TourGoesOn(coe, tour, before, e);
    events := before + [e];
    go := reply.Done?;
  }

  // The profile; when it may not be read it stays empty.
  method FetchProfile(oc: ApiClient, continueOnError: bool, ghost tour: seq<Resource>, ghost t0: seq<Event>,
                      ghost before: seq<Event>)
    returns (go: bool, profile: Profile, ghost events: seq<Event>)
    requires OnTour(continueOnError, tour, before) && |before| < |tour| && tour[|before|] == ProfileInfo
    requires oc.trace == t0 + before
    modifies oc
    ensures Toured(oc, old(oc.server), t0, continueOnError, tour, before, events, go, |before| + 1)
    ensures go ==> profile == if events[|before|].Ok() then oc.server.settings.profile else Profile("", "", "")
  {
    var reply, s;
    ghost var e;
    reply, s, e := oc.Read(ProfileInfo);
    TourGoesOn(continueOnError, tour, before, e);
    events := before + [e];
    profile := Profile("", "", "");
    if reply.Done? { profile := s.settings.profile; }
    go := reply.Done? || (continueOnError && reply == Failed(401));
  }

  // Status, version, and the general settings.
  method ReadGeneral(oc: ApiClient, o: OriginMemory, cfg: Syncing.Config, ghost tour: seq<Resource>)
    returns (go: bool, ghost events: seq<Event>)
    requires tour == OriginReads(cfg.features)
    modifies oc, o`version, o`settings
    ensures oc.server == old(oc.server) && oc.trace == old(oc.trace) + events
    ensures if go then OnTour(cfg.continueOnError, tour, events) && |events| == 5 && !cfg.tooOld(oc.server.version)
            else
              || (Broken(cfg.continueOnError, tour, events) && (|events| > 1 ==> !cfg.tooOld(oc.server.version)))
              || (|events| == 1 && OnTour(cfg.continueOnError, tour, events) && cfg.tooOld(oc.server.version))
    ensures go ==> o.version == oc.server.version
                   && GeneralRead(oc.server.settings, old(o.settings), events[1].Ok(), o.settings)
  {
    hide OnTour, Broken, OriginReads;
    ghost var t0 := oc.trace;
    var s;
    ReadsAre(cfg.features);
    TourStarts(cfg.continueOnError, tour);
    go, s, events := Fetch(oc, Status, cfg.continueOnError, tour, t0, []);
    if !go { return; }
    o.version := s.version;
    o.settings := o.settings.(protection := s.settings.protection);
    if cfg.tooOld(s.version) { return false, events; }
    var profile;
    go, profile, events := FetchProfile(oc, cfg.continueOnError, tour, t0, events);
    if !go { return; }
    o.settings := o.settings.(profile := profile);
    go, s, events := Fetch(oc, Parental, cfg.continueOnError, tour, t0, events);
    if !go { return; }
    o.settings := o.settings.(parental := s.settings.parental);
    go, s, events := Fetch(oc, SafeSearchConfig, cfg.continueOnError, tour, t0, events);
    if !go { return; }
    o.settings := o.settings.(safeSearch := s.settings.safeSearch);
    go, s, events := Fetch(oc, SafeBrowsing, cfg.continueOnError, tour, t0, events);
    if !go { return; }
    o.settings := o.settings.(safeBrowsing := s.settings.safeBrowsing);
  }

  // The general settings of s, on top of what was there.
  predicate GeneralRead(s: Settings, before: Settings, profileRead: bool, now: Settings)
  {
    now == before.(protection := s.protection, profile := if profileRead then s.profile else Profile("", "", ""),
                   parental := s.parental, safeSearch := s.safeSearch, safeBrowsing := s.safeBrowsing)
  }

  lemma ReadsAre(f: Features)
    ensures var tour := OriginReads(f);
      && |tour| >= 13 && tour[0] == Status && tour[1] == ProfileInfo && tour[2] == Parental
      && tour[3] == SafeSearchConfig && tour[4] == SafeBrowsing && tour[5] == RewriteList
      && tour[6] == Resource.BlockedServices && tour[7] == Filtering
      && tour[8] == ClientList && tour[9] == QueryLogConfig && tour[10] == StatsConfig && tour[11] == AccessLists
      && tour[12] == Resource.DnsConfig
      && (NeedsDhcp(f) ==> |tour| > 13 && tour[13] == DhcpConfig)
      && (f.tlsConfig ==> tour[|tour| - 1] == TlsConfig)
      && |tour| == 13 + (if NeedsDhcp(f) then 1 else 0) + (if f.tlsConfig then 1 else 0)
  {}

  lemma TourStarts(continueOnError: bool, tour: seq<Resource>)
    ensures OnTour(continueOnError, tour, [])
  {}

  method ReadRewritesAndServices(oc: ApiClient, o: OriginMemory, ghost cfg: Syncing.Config, ghost tour: seq<Resource>,
                                 ghost t0: seq<Event>, ghost before: seq<Event>)
    returns (go: bool, ghost events: seq<Event>)
    requires tour == OriginReads(cfg.features) && OnTour(cfg.continueOnError, tour, before) && |before| == 5
    requires oc.trace == t0 + before
    modifies oc, o`rewrites, o`services
    ensures Toured(oc, old(oc.server), t0, cfg.continueOnError, tour, before, events, go, 7)
    ensures go ==> o.rewrites == oc.server.rewrites
    ensures go ==> o.services != null && fresh(o.services) && fresh(Slice(o.services.ids))
    ensures go ==> o.services.View() == oc.server.settings.services
  {
    hide OnTour, Broken, OriginReads;
    ReadsAre(cfg.features);
    var s;
    go, s, events := Fetch(oc, RewriteList, cfg.continueOnError, tour, t0, before);
    if !go { return; }
    o.rewrites := s.rewrites;
    go, s, events := Fetch(oc, Resource.BlockedServices, cfg.continueOnError, tour, t0, events);
    if !go { return; }
    o.services := new Configs.BlockedServices(s.settings.services);
  }

  // The filter lists and rules in memory are those of s.
  ghost predicate FiltersRead(s: Instance, o: OriginMemory)
    reads o
  {
    && Listing(OrEmpty(o.filters), Part(s.lists, BlockLists))
    && Listing(OrEmpty(o.allowFilters), Part(s.lists, AllowLists))
    && o.settings.userRules == s.settings.userRules && o.settings.filtering == s.settings.filtering
  }

  // Both filter lists of one answer.
  method DecodeFilters(s: Instance) returns (block: Option<seq<Item>>, allow: Option<seq<Item>>)
    requires Filed(s)
    ensures Listing(OrEmpty(block), Part(s.lists, BlockLists)) && Listing(OrEmpty(allow), Part(s.lists, AllowLists))
  {
    hide Filed, Listing;
    PartIsFiled(s, BlockLists);
    PartIsFiled(s, AllowLists);
    block := DecodeList(Part(s.lists, BlockLists));
    allow := DecodeList(Part(s.lists, AllowLists));
  }

  method ReadFilters(oc: ApiClient, o: OriginMemory, ghost cfg: Syncing.Config, ghost tour: seq<Resource>,
                     ghost t0: seq<Event>, ghost before: seq<Event>)
    returns (go: bool, ghost events: seq<Event>)
    requires tour == OriginReads(cfg.features) && OnTour(cfg.continueOnError, tour, before) && |before| == 7
    requires oc.trace == t0 + before && Filed(oc.server)
    modifies oc, o`filters, o`allowFilters, o`settings
    ensures Toured(oc, old(oc.server), t0, cfg.continueOnError, tour, before, events, go, 8)
    ensures o.settings == old(o.settings).(userRules := o.settings.userRules, filtering := o.settings.filtering)
    ensures go ==> FiltersRead(oc.server, o)
  {
    hide OnTour, Broken, OriginReads, Filed, Listing;
    ReadsAre(cfg.features);
    var s;
    go, s, events := Fetch(oc, Filtering, cfg.continueOnError, tour, t0, before);
    if !go { return; }
    o.filters, o.allowFilters := DecodeFilters(s);
    o.settings := o.settings.(userRules := s.settings.userRules, filtering := s.settings.filtering);
  }

  method ReadClients(oc: ApiClient, o: OriginMemory, ghost cfg: Syncing.Config, ghost tour: seq<Resource>,
                     ghost t0: seq<Event>, ghost before: seq<Event>)
    returns (go: bool, ghost events: seq<Event>)
    requires tour == OriginReads(cfg.features) && OnTour(cfg.continueOnError, tour, before) && |before| == 8
    requires oc.trace == t0 + before && Filed(oc.server)
    modifies oc, o`clients
    ensures Toured(oc, old(oc.server), t0, cfg.continueOnError, tour, before, events, go, 9)
    ensures go ==> fresh(o.clients) && Distinct(o.clients)
    ensures go ==> Listing(Views(o.clients), Part(oc.server.lists, ListId.Clients))
  {
    hide OnTour, Broken, OriginReads, Filed, Listing, Views;
    ReadsAre(cfg.features);
    var s;
    go, s, events := Fetch(oc, ClientList, cfg.continueOnError, tour, t0, before);
    if !go { return; }
    PartIsFiled(oc.server, ListId.Clients);
    var items := RangeOver(Part(s.lists, ListId.Clients));
    o.clients := InMemory(items);
  }

  method ReadLogAndStatsConfig(oc: ApiClient, o: OriginMemory, ghost cfg: Syncing.Config, ghost tour: seq<Resource>,
                               ghost t0: seq<Event>, ghost before: seq<Event>)
    returns (go: bool, ghost events: seq<Event>)
    requires tour == OriginReads(cfg.features) && OnTour(cfg.continueOnError, tour, before) && |before| == 9
    requires oc.trace == t0 + before
    modifies oc, o`settings
    ensures Toured(oc, old(oc.server), t0, cfg.continueOnError, tour, before, events, go, 11)
    ensures o.settings == old(o.settings).(queryLog := o.settings.queryLog, stats := o.settings.stats)
    ensures go ==> o.settings.queryLog == oc.server.settings.queryLog && o.settings.stats == oc.server.settings.stats
  {
    hide OnTour, Broken, OriginReads;
    ReadsAre(cfg.features);
    var s;
    go, s, events := Fetch(oc, QueryLogConfig, cfg.continueOnError, tour, t0, before);
    if !go { return; }
    o.settings := o.settings.(queryLog := s.settings.queryLog);
    go, s, events := Fetch(oc, StatsConfig, cfg.continueOnError, tour, t0, events);
    if !go { return; }
    o.settings := o.settings.(stats := s.settings.stats);
  }

  method ReadAccess(oc: ApiClient, o: OriginMemory, ghost cfg: Syncing.Config, ghost tour: seq<Resource>,
                    ghost t0: seq<Event>, ghost before: seq<Event>)
    returns (go: bool, ghost events: seq<Event>)
    requires tour == OriginReads(cfg.features) && OnTour(cfg.continueOnError, tour, before) && |before| == 11
    requires oc.trace == t0 + before
    modifies oc, o`access
    ensures Toured(oc, old(oc.server), t0, cfg.continueOnError, tour, before, events, go, 12)
    ensures go ==> o.access != null && fresh(o.access) && o.access.Valid() && fresh(o.access.Slices())
                   && o.access.View() == oc.server.settings.access
  {
    hide OnTour, Broken, OriginReads, AccessList.View, AccessList.Valid;
    ReadsAre(cfg.features);
    var s;
    go, s, events := Fetch(oc, AccessLists, cfg.continueOnError, tour, t0, before);
    if !go { return; }
    o.access := new AccessList(s.settings.access);
  }

  method ReadDns(oc: ApiClient, o: OriginMemory, ghost cfg: Syncing.Config, ghost tour: seq<Resource>,
                 ghost t0: seq<Event>, ghost before: seq<Event>)
    returns (go: bool, ghost events: seq<Event>)
    requires tour == OriginReads(cfg.features) && OnTour(cfg.continueOnError, tour, before) && |before| == 12
    requires oc.trace == t0 + before
    modifies oc, o`dns
    ensures Toured(oc, old(oc.server), t0, cfg.continueOnError, tour, before, events, go, 13)
    ensures go ==> o.dns != null && fresh(o.dns) && o.dns.Valid() && fresh(o.dns.Slices())
    ensures go ==> o.dns.View() == oc.server.ReadDns()
  {
    hide OnTour, Broken, OriginReads, Configs.DnsConfig.View, Configs.DnsConfig.Valid;
    ReadsAre(cfg.features);
    var s;
    go, s, events := Fetch(oc, Resource.DnsConfig, cfg.continueOnError, tour, t0, before);
    if !go { return; }
    o.dns := new Configs.DnsConfig(s.ReadDns());
  }

  // DHCP is read for the features that use it; otherwise it stays unread.
  method ReadDhcp(oc: ApiClient, o: OriginMemory, cfg: Syncing.Config, ghost tour: seq<Resource>, ghost t0: seq<Event>,
                  ghost before: seq<Event>)
    returns (go: bool, ghost events: seq<Event>)
    requires tour == OriginReads(cfg.features) && OnTour(cfg.continueOnError, tour, before) && |before| == 13
    requires oc.trace == t0 + before && Filed(oc.server)
    modifies oc, o`dhcp
    ensures Toured(oc, old(oc.server), t0, cfg.continueOnError, tour, before, events, go,
                   13 + (if NeedsDhcp(cfg.features) then 1 else 0))
    ensures go && NeedsDhcp(cfg.features) ==> o.dhcp != null && DhcpRead(oc.server, o.dhcp) && fresh(o.dhcp)
    ensures go && !NeedsDhcp(cfg.features) ==> o.dhcp == old(o.dhcp)
  {
    hide OnTour, Broken, OriginReads, Filed, Listing;
    ReadsAre(cfg.features);
    go, events := true, before;
    if NeedsDhcp(cfg.features) {
      var s;
      go, s, events := Fetch(oc, DhcpConfig, cfg.continueOnError, tour, t0, events);
      if !go { return; }
      PartIsFiled(oc.server, Leases);
      var leases := DecodeList(Part(s.lists, Leases));
      o.dhcp := new DhcpStatus(s.settings.dhcp, leases);
    }
  }

  predicate NeedsDhcp(f: Features) { f.dhcpServerConfig || f.dhcpStaticLeases }

  ghost predicate DhcpRead(s: Instance, dhcp: DhcpStatus)
    reads dhcp
  {
    dhcp.View() == s.settings.dhcp && Listing(OrEmpty(dhcp.staticLeases), Part(s.lists, Leases))
  }

  // So is TLS.
  method ReadTls(oc: ApiClient, o: OriginMemory, cfg: Syncing.Config, ghost tour: seq<Resource>, ghost t0: seq<Event>,
                 ghost before: seq<Event>)
    returns (go: bool, ghost events: seq<Event>)
    requires tour == OriginReads(cfg.features) && OnTour(cfg.continueOnError, tour, before)
    requires |before| == 13 + (if NeedsDhcp(cfg.features) then 1 else 0)
    requires oc.trace == t0 + before
    modifies oc, o`tls
    ensures Toured(oc, old(oc.server), t0, cfg.continueOnError, tour, before, events, go, |tour|)
    ensures go ==> o.tls == if cfg.features.tlsConfig then Some(oc.server.settings.tls) else old(o.tls)
  {
    hide OnTour, Broken, OriginReads;
    ReadsAre(cfg.features);
    go, events := true, before;
    if cfg.features.tlsConfig {
      var s;
      go, s, events := Fetch(oc, TlsConfig, cfg.continueOnError, tour, t0, events);
      if !go { return; }
      o.tls := Some(s.settings.tls);
    }
  }
}
