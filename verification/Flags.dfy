// The feature flags, one by one: which actions they stand for, in which order, and which
// fields of a replica stay as they are without them.

module Flags {
  import opened Values
  import opened Server
  import opened Plans
  import opened Ownership
  import opened Syncing
  import opened Success
  import opened ReplicaOrder
  import opened Outright
  import Guarantees

  // ---- The order of the actions ----

  function If(flag: bool, acts: seq<Action>): seq<Action>
  {
    if flag then acts else []
  }

  lemma GrowIf(flag: bool, f: Features, acts: seq<Action>, act: Action)
    requires flag == Enabled(f, act) && Grown(f, acts, Rank(act))
    ensures Grown(f, acts + If(flag, [act]), Rank(act) + 1)
  {
    Grow(f, acts, act);
    hide Grown, Rank, Enabled;
    assert acts + [] == acts;
  }

  // The actions of the general settings, then those of the other flags one after another.
  function EarlyActions(f: Features): seq<Action>
  {
    If(f.generalSettings, [ProfileAction, ProtectionAction, ParentalAction, SafeSearchAction, SafeBrowsingAction])
    + If(f.dnsServerConfig, [DnsAction]) + If(f.queryLogConfig, [QueryLogAction]) + If(f.statsConfig, [StatsAction])
    + If(f.dnsRewrites, [RewritesAction])
  }

  function MiddleActions(f: Features): seq<Action>
  {
    EarlyActions(f) + If(f.filters, [FiltersAction]) + If(f.services, [ServicesAction])
    + If(f.clientSettings, [ClientsAction]) + If(f.dnsAccessLists, [AccessAction])
  }

  function AllActions(f: Features): seq<Action>
  {
    MiddleActions(f) + If(f.dhcpServerConfig, [DhcpConfigAction]) + If(f.dhcpStaticLeases, [LeasesAction])
    + If(f.tlsConfig, [TlsAction])
  }

  lemma FourMore(f: Features, acts: seq<Action>, flags: seq<bool>, more: seq<Action>)
    requires |flags| == |more| == 4 && Grown(f, acts, Rank(more[0]))
    requires forall i | 0 <= i < 4 :: flags[i] == Enabled(f, more[i]) && Rank(more[i]) == Rank(more[0]) + i
    ensures Grown(f, acts + If(flags[0], [more[0]]) + If(flags[1], [more[1]]) + If(flags[2], [more[2]])
                     + If(flags[3], [more[3]]), Rank(more[3]) + 1)
  {
    hide Grown, Rank, If, Enabled;
    var a := acts + If(flags[0], [more[0]]);
    var b := a + If(flags[1], [more[1]]);
    var c := b + If(flags[2], [more[2]]);
    GrowIf(flags[0], f, acts, more[0]);
    GrowIf(flags[1], f, a, more[1]);
    GrowIf(flags[2], f, b, more[2]);
    GrowIf(flags[3], f, c, more[3]);
  }

  lemma EarlyGrown(f: Features)
    ensures Grown(f, EarlyActions(f), 9)
  {
    GrowGeneral(f);
    hide Grown;
    FourMore(f, if f.generalSettings
                then [ProfileAction, ProtectionAction, ParentalAction, SafeSearchAction, SafeBrowsingAction] else [],
             [f.dnsServerConfig, f.queryLogConfig, f.statsConfig, f.dnsRewrites],
             [DnsAction, QueryLogAction, StatsAction, RewritesAction]);
  }

  lemma MiddleGrown(f: Features)
    ensures Grown(f, MiddleActions(f), 13)
  {
    EarlyGrown(f);
    hide Grown, EarlyActions, If;
    FourMore(f, EarlyActions(f), [f.filters, f.services, f.clientSettings, f.dnsAccessLists],
             [FiltersAction, ServicesAction, ClientsAction, AccessAction]);
  }

  // A run's actions and their order, by flags.
  lemma SetupOrder(f: Features, acts: seq<Action>)
    requires ActionList(f, acts)
    ensures acts == AllActions(f)
  {
    MiddleGrown(f);
    hide Grown, MiddleActions, If, ActionList;
    var a := MiddleActions(f) + If(f.dhcpServerConfig, [DhcpConfigAction]);
    var b := a + If(f.dhcpStaticLeases, [LeasesAction]);
    GrowIf(f.dhcpServerConfig, f, MiddleActions(f), DhcpConfigAction);
    GrowIf(f.dhcpStaticLeases, f, a, LeasesAction);
    GrowIf(f.tlsConfig, f, b, TlsAction);
    GrownUp(f, AllActions(f));
    SameLists(f, acts, AllActions(f));
  }

  // ---- What a flag that is off leaves alone ----

  // The entries of one keyed list are the same.
  ghost predicate SameList(list: ListId, a: Instance, b: Instance)
  {
    forall key ::
      var slot := Slot(list, key);
      (slot in a.lists <==> slot in b.lists) && (slot in a.lists ==> a.lists[slot] == b.lists[slot])
  }

  lemma GeneralOff(cfg: Config, run: SyncRun)
    requires ValidSync(cfg, run) && !cfg.features.generalSettings
    ensures var a, b := run.s0.settings, run.s1.settings;
      && b.profile == a.profile && b.parental == a.parental && b.safeSearch == a.safeSearch
      && b.safeBrowsing == a.safeBrowsing
      && (!cfg.features.dnsServerConfig ==> b.protection == a.protection)
  {
    hide ValidSync;
    DisabledIsUntouched(cfg, run, ProfileAction);
    DisabledIsUntouched(cfg, run, ParentalAction);
    DisabledIsUntouched(cfg, run, SafeSearchAction);
    DisabledIsUntouched(cfg, run, SafeBrowsingAction);
    if !cfg.features.dnsServerConfig { DisabledIsUntouched(cfg, run, ProtectionAction); }
  }

  lemma DnsOff(cfg: Config, run: SyncRun)
    requires ValidSync(cfg, run) && !cfg.features.dnsServerConfig
    ensures run.s1.settings.dns == run.s0.settings.dns
  {
    hide ValidSync;
    DisabledIsUntouched(cfg, run, DnsAction);
  }

  lemma QueryLogOff(cfg: Config, run: SyncRun)
    requires ValidSync(cfg, run) && !cfg.features.queryLogConfig
    ensures run.s1.settings.queryLog == run.s0.settings.queryLog
  {
    hide ValidSync;
    DisabledIsUntouched(cfg, run, QueryLogAction);
  }

  lemma StatsOff(cfg: Config, run: SyncRun)
    requires ValidSync(cfg, run) && !cfg.features.statsConfig
    ensures run.s1.settings.stats == run.s0.settings.stats
  {
    hide ValidSync;
    DisabledIsUntouched(cfg, run, StatsAction);
  }

  lemma RewritesOff(cfg: Config, run: SyncRun)
    requires ValidSync(cfg, run) && !cfg.features.dnsRewrites
    ensures run.s1.rewrites == run.s0.rewrites
  {
    hide ValidSync;
    DisabledIsUntouched(cfg, run, RewritesAction);
  }

  lemma ListUntouched(act: Action, list: ListId, a: Instance, b: Instance)
    requires OwnedSame(act, a, b) && WorksOn(act, list)
    ensures SameList(list, a, b)
  {
    forall key
      ensures var slot := Slot(list, key);
        (slot in a.lists <==> slot in b.lists) && (slot in a.lists ==> a.lists[slot] == b.lists[slot])
    {
      assert SameAt(a.lists, b.lists, Slot(list, key));
    }
  }

  lemma FiltersOff(cfg: Config, run: SyncRun)
    requires ValidSync(cfg, run) && !cfg.features.filters
    ensures SameList(BlockLists, run.s0, run.s1) && SameList(AllowLists, run.s0, run.s1)
    ensures run.s1.settings.userRules == run.s0.settings.userRules
    ensures run.s1.settings.filtering == run.s0.settings.filtering
  {
    hide ValidSync, SameList;
    DisabledIsUntouched(cfg, run, FiltersAction);
    ListUntouched(FiltersAction, BlockLists, run.s0, run.s1);
    ListUntouched(FiltersAction, AllowLists, run.s0, run.s1);
  }

  lemma ServicesOff(cfg: Config, run: SyncRun)
    requires ValidSync(cfg, run) && !cfg.features.services
    ensures run.s1.settings.services == run.s0.settings.services
  {
    hide ValidSync;
    DisabledIsUntouched(cfg, run, ServicesAction);
  }

  lemma ClientsOff(cfg: Config, run: SyncRun)
    requires ValidSync(cfg, run) && !cfg.features.clientSettings
    ensures SameList(ListId.Clients, run.s0, run.s1)
  {
    hide ValidSync, SameList;
    DisabledIsUntouched(cfg, run, ClientsAction);
    ListUntouched(ClientsAction, ListId.Clients, run.s0, run.s1);
  }

  lemma AccessOff(cfg: Config, run: SyncRun)
    requires ValidSync(cfg, run) && !cfg.features.dnsAccessLists
    ensures run.s1.settings.access == run.s0.settings.access
  {
    hide ValidSync;
    DisabledIsUntouched(cfg, run, AccessAction);
  }

  lemma DhcpOff(cfg: Config, run: SyncRun)
    requires ValidSync(cfg, run) && !cfg.features.dhcpServerConfig
    ensures run.s1.settings.dhcp == run.s0.settings.dhcp
  {
    hide ValidSync;
    DisabledIsUntouched(cfg, run, DhcpConfigAction);
  }

  lemma LeasesOff(cfg: Config, run: SyncRun)
    requires ValidSync(cfg, run) && !cfg.features.dhcpStaticLeases
    ensures SameList(Leases, run.s0, run.s1)
  {
    hide ValidSync, SameList;
    DisabledIsUntouched(cfg, run, LeasesAction);
    ListUntouched(LeasesAction, Leases, run.s0, run.s1);
  }

  lemma TlsOff(cfg: Config, run: SyncRun)
    requires ValidSync(cfg, run) && !cfg.features.tlsConfig
    ensures run.s1.settings.tls == run.s0.settings.tls
  {
    hide ValidSync;
    DisabledIsUntouched(cfg, run, TlsAction);
  }

  // Whatever fails: what belongs to a flag that is off is as it was before.
  lemma FlagsOff(cfg: Config, run: SyncRun)
    requires ValidSync(cfg, run)
    ensures var f, s, t := cfg.features, run.s0, run.s1; var a, b := s.settings, t.settings;
      && (!f.generalSettings ==>
            b.profile == a.profile && b.parental == a.parental && b.safeSearch == a.safeSearch
            && b.safeBrowsing == a.safeBrowsing)
      && (!f.generalSettings && !f.dnsServerConfig ==> b.protection == a.protection)
      && (!f.dnsServerConfig ==> b.dns == a.dns)
      && (!f.queryLogConfig ==> b.queryLog == a.queryLog)
      && (!f.statsConfig ==> b.stats == a.stats)
      && (!f.dnsRewrites ==> t.rewrites == s.rewrites)
      && (!f.filters ==>
            SameList(BlockLists, s, t) && SameList(AllowLists, s, t) && b.userRules == a.userRules
            && b.filtering == a.filtering)
      && (!f.services ==> b.services == a.services)
      && (!f.clientSettings ==> SameList(ListId.Clients, s, t))
      && (!f.dnsAccessLists ==> b.access == a.access)
      && (!f.dhcpServerConfig ==> b.dhcp == a.dhcp)
      && (!f.dhcpStaticLeases ==> SameList(Leases, s, t))
      && (!f.tlsConfig ==> b.tls == a.tls)
  {
    hide ValidSync, SameList;
    var f := cfg.features;
    if !f.generalSettings { GeneralOff(cfg, run); }
    if !f.dnsServerConfig { DnsOff(cfg, run); }
    if !f.queryLogConfig { QueryLogOff(cfg, run); }
    if !f.statsConfig { StatsOff(cfg, run); }
    if !f.dnsRewrites { RewritesOff(cfg, run); }
    if !f.filters { FiltersOff(cfg, run); }
    if !f.services { ServicesOff(cfg, run); }
    if !f.clientSettings { ClientsOff(cfg, run); }
    if !f.dnsAccessLists { AccessOff(cfg, run); }
    if !f.dhcpServerConfig { DhcpOff(cfg, run); }
    if !f.dhcpStaticLeases { LeasesOff(cfg, run); }
    if !f.tlsConfig { TlsOff(cfg, run); }
  }

  // ---- The theme ----

  lemma ProfileKeptOn(o: Profile, a: Profile, b: Profile, c: Profile, withTheme: bool)
    requires ProfileKept(o, a, b, withTheme) && ProfileKept(o, b, c, withTheme)
    ensures ProfileKept(o, a, c, withTheme)
  {}

  lemma RunKeepsProfile(ctx: Context, o: Profile, run: ActionRun)
    requires ValidRun(ctx, run) && run.o0.settings.profile == o
    ensures ProfileKept(o, run.s0.settings.profile, run.s1.settings.profile, ctx.theme)
  {
    hide ValidRun;
    if run.act.ProfileAction? { ProfileActionKeeps(ctx, run); } else { OnlyTheOwnerChanges(ctx, run, ProfileAction); }
  }

  lemma {:induction false} ChainKeepsProfile(ctx: Context, o0: Origin, s0: Instance, runs: seq<ActionRun>, n: nat)
    requires Chained(ctx, o0, s0, runs) && n <= |runs|
    ensures ProfileKept(o0.settings.profile, s0.settings.profile, StateBefore(s0, runs, n).settings.profile, ctx.theme)
  {
    hide Chained, ValidRun, Loosely;
    if n > 0 {
      ChainKeepsProfile(ctx, o0, s0, runs, n - 1);
      ChainLink(ctx, o0, s0, runs, n - 1);
      Guarantees.LikeItself(o0);
      OriginStaysLoose(ctx, o0, o0, s0, runs, n - 1);
      ProfileOfLoose(o0, runs[n - 1].o0);
      RunKeepsProfile(ctx, o0.settings.profile, runs[n - 1]);
      ProfileKeptOn(o0.settings.profile, s0.settings.profile, runs[n - 1].s0.settings.profile,
                    runs[n - 1].s1.settings.profile, ctx.theme);
    }
  }

  lemma ProfileOfLoose(a: Origin, b: Origin)
    requires Loosely(a, b)
    ensures a.settings.profile == b.settings.profile
  {}

  // Whatever fails in a visit: the name stays, the theme too unless themes are synchronized,
  // and language and theme are afterwards the replica's own or the origin's.
  lemma VisitKeepsProfile(cfg: Config, run: SyncRun)
    requires ValidSync(cfg, run)
    ensures ProfileKept(run.o0.settings.profile, run.s0.settings.profile, run.s1.settings.profile, cfg.features.theme)
  {
    hide Chained, ProfileKept, Greeting, ActionList;
    if run.runs != [] {
      ChainKeepsProfile(ContextFor(cfg, run.inst, run.s0), run.o0, run.s0, run.runs, |run.runs|);
    } else {
      KeptAsItIs(run.o0.settings.profile, run.s0.settings.profile, cfg.features.theme);
    }
  }

  lemma KeptAsItIs(o: Profile, p: Profile, withTheme: bool)
    ensures ProfileKept(o, p, p, withTheme)
  {}
}
