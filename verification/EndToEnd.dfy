// From the server that is read to a replica none of whose calls failed: what each flag
// makes the two agree on, field by field.

module EndToEnd {
  import opened Sorting
  import opened Values
  import opened Server
  import opened Plans
  import opened Evolution
  import opened Ownership
  import opened Agreement
  import opened Syncing
  import opened Success
  import opened ReplicaOrder
  import opened Origins
  import opened Meanings
  import opened Sayings
  import opened Outright
  import opened Visits
  import Flags
  import Guarantees

  // A run: the server s is read as o, and the replicas are visited one after another.
  ghost predicate RunFrom(cfg: Config, s: Instance, profileRead: bool, o: Origin, visits: seq<SyncRun>)
  {
    IsReading(cfg.features, s, profileRead, o) && Filed(s) && OneAfterAnother(cfg, o, visits)
  }

  // The visit got to its actions, and none of their calls failed.
  ghost predicate Flawless(cfg: Config, run: SyncRun)
  {
    && run.connected && !cfg.tooOld(run.s0.version)
    && forall k | |run.hello| <= k < |Trace(run)| :: Trace(run)[k].Ok()
  }

  lemma FlawlessActions(run: SyncRun, i: nat)
    requires i < |run.runs| && forall k | |run.hello| <= k < |Trace(run)| :: Trace(run)[k].Ok()
    ensures AllOk(run.runs[i].events)
  {
    forall j | 0 <= j < |run.runs[i].events| ensures run.runs[i].events[j].Ok() {
      var k := EventOf(run.runs, |run.runs|, i, j);
      assert Trace(run)[|run.hello| + k] == run.runs[i].events[j];
    }
  }

  lemma FlawlessIsSuccess(cfg: Config, run: SyncRun)
    requires ValidSync(cfg, run) && Flawless(cfg, run)
    ensures run.ok && forall act :: NothingHidden(run.runs, act)
  {
    hide ValidSync, Hidden;
    if !run.ok { var k := SomethingFatal(cfg, run); }
    forall i | 0 <= i < |run.runs| ensures AllOk(run.runs[i].events) { FlawlessActions(run, i); }
  }

  // These are the successes that hide nothing.
  lemma FlawlessExactly(cfg: Config, run: SyncRun)
    requires ValidSync(cfg, run)
    ensures Flawless(cfg, run) <==> run.ok && forall act :: NothingHidden(run.runs, act)
  {
    if run.ok && forall act :: NothingHidden(run.runs, act) {
      forall k | |run.hello| <= k < |Trace(run)| ensures Trace(run)[k].Ok() {
        NothingFatal(cfg, run, k);
        var i, j := ActionEvent(cfg, run, k);
        assert NothingHidden(run.runs, run.runs[i].act);
      }
    }
    if Flawless(cfg, run) { FlawlessIsSuccess(cfg, run); }
  }

  // ---- The one execution of an action ----

  // An enabled action was executed once, without a failure, on its own part of the replica
  // as it was at first, and left that as it is in the end.
  lemma OwnRun(cfg: Config, run: SyncRun, act: Action) returns (r: ActionRun)
    requires ValidSync(cfg, run) && Flawless(cfg, run) && Enabled(cfg.features, act) && !act.ProtectionAction?
    ensures r.act == act && ValidRun(ContextFor(cfg, run.inst, run.s0), r) && AllOk(r.events)
    ensures OwnedSame(act, r.s0, run.s0) && OwnedSame(act, r.s1, run.s1) && Loosely(run.o0, r.o0)
  {
    var ctx := ContextFor(cfg, run.inst, run.s0);
    FlawlessIsSuccess(cfg, run);
    var i := ExecutedAt(cfg, run, act);
    r := run.runs[i];
    FlawlessActions(run, i);
    LastState(cfg, run);
    hide ValidSync, Chained, ValidRun, OwnedSame, Ordered, Loosely, AllOk, Flawless;
    OwnPartStays(ctx, run.o0, run.s0, run.runs, i, |run.runs|);
    Guarantees.LikeItself(run.o0);
    OriginStaysLoose(ctx, run.o0, run.o0, run.s0, run.runs, i);
    ChainLink(ctx, run.o0, run.s0, run.runs, i);
  }

  lemma LastState(cfg: Config, run: SyncRun)
    requires ValidSync(cfg, run)
    ensures run.s1 == StateBefore(run.s0, run.runs, |run.runs|)
  {}

  // ---- Agreement with what was read ----

  lemma Agreed(cfg: Config, s: Instance, profileRead: bool, o: Origin, visits: seq<SyncRun>, i: nat, act: Action)
    requires RunFrom(cfg, s, profileRead, o, visits) && i < |visits| && Flawless(cfg, visits[i])
    requires Enabled(cfg.features, act) && (act.ClientsAction? ==> NonLossy(o))
    ensures Agrees(act, ContextFor(cfg, visits[i].inst, visits[i].s0), o, visits[i].s0, visits[i].s1)
    ensures o.settings == SettingsOf(cfg.features, s, profileRead) && o.rewrites == s.rewrites
  {
    hide Agrees, NonLossy, Enabled, Filed, Flawless;
    assert ValidSync(cfg, visits[i]);
    FlawlessIsSuccess(cfg, visits[i]);
    Guarantees.RunAgrees(cfg, s, profileRead, o, visits, i, act);
  }

  // Switches and safe search as on the server.
  predicate SameSwitches(a: Settings, b: Settings)
  {
    && b.protection == a.protection && b.parental == a.parental && b.safeBrowsing == a.safeBrowsing
    && SafeSearchFlags(b.safeSearch) == SafeSearchFlags(a.safeSearch)
  }

  lemma GeneralOn(cfg: Config, s: Instance, profileRead: bool, o: Origin, visits: seq<SyncRun>, i: nat)
    requires RunFrom(cfg, s, profileRead, o, visits) && i < |visits| && Flawless(cfg, visits[i])
    requires cfg.features.generalSettings
    ensures SameSwitches(s.settings, visits[i].s1.settings)
  {
    hide RunFrom, Flawless, SafeSearchEq, SafeSearchFlags;
    Agreed(cfg, s, profileRead, o, visits, i, ProtectionAction);
    Agreed(cfg, s, profileRead, o, visits, i, ParentalAction);
    Agreed(cfg, s, profileRead, o, visits, i, SafeSearchAction);
    Agreed(cfg, s, profileRead, o, visits, i, SafeBrowsingAction);
    SafeSearchEqMeans(s.settings.safeSearch, visits[i].s1.settings.safeSearch);
  }

  // DNS configurations that agree: with an upstream list up to the order of the three
  // lists, without one exactly.
  predicate SameDns(a: Dns, b: Dns)
  {
    && b.rest == a.rest && (b.upstream.Some? <==> a.upstream.Some?)
    && if a.upstream.Some?
       then SameStrings(b.upstream, a.upstream) && SameStrings(b.bootstrap, a.bootstrap)
            && SameStrings(b.localPtr, a.localPtr)
       else b.bootstrap == a.bootstrap && b.localPtr == a.localPtr
  }

  lemma DnsOn(cfg: Config, s: Instance, profileRead: bool, o: Origin, visits: seq<SyncRun>, i: nat)
    requires RunFrom(cfg, s, profileRead, o, visits) && i < |visits| && Flawless(cfg, visits[i])
    requires cfg.features.dnsServerConfig
    ensures SameDns(s.settings.dns, visits[i].s1.settings.dns)
    ensures visits[i].s1.settings.protection == s.settings.protection
  {
    hide RunFrom, Flawless, DnsEq;
    Agreed(cfg, s, profileRead, o, visits, i, DnsAction);
    DnsEqMeaning(visits[i].s1.ReadDns(), s.ReadDns());
    hide Agrees, SettingsOf;
    var a, b := s.settings.dns, visits[i].s1.settings.dns;
    ListEqMeans(b.upstream, a.upstream);
    ListEqMeans(b.bootstrap, a.bootstrap);
    ListEqMeans(b.localPtr, a.localPtr);
  }

  lemma QueryLogOn(cfg: Config, s: Instance, profileRead: bool, o: Origin, visits: seq<SyncRun>, i: nat)
    requires RunFrom(cfg, s, profileRead, o, visits) && i < |visits| && Flawless(cfg, visits[i])
    requires cfg.features.queryLogConfig
    ensures visits[i].s1.settings.queryLog == s.settings.queryLog
  {
    hide RunFrom, Flawless;
    Agreed(cfg, s, profileRead, o, visits, i, QueryLogAction);
  }

  lemma StatsOn(cfg: Config, s: Instance, profileRead: bool, o: Origin, visits: seq<SyncRun>, i: nat)
    requires RunFrom(cfg, s, profileRead, o, visits) && i < |visits| && Flawless(cfg, visits[i])
    requires cfg.features.statsConfig
    ensures visits[i].s1.settings.stats == s.settings.stats
  {
    hide RunFrom, Flawless;
    Agreed(cfg, s, profileRead, o, visits, i, StatsAction);
  }

  lemma TlsOn(cfg: Config, s: Instance, profileRead: bool, o: Origin, visits: seq<SyncRun>, i: nat)
    requires RunFrom(cfg, s, profileRead, o, visits) && i < |visits| && Flawless(cfg, visits[i])
    requires cfg.features.tlsConfig
    ensures visits[i].s1.settings.tls == s.settings.tls
  {
    hide RunFrom, Flawless;
    Agreed(cfg, s, profileRead, o, visits, i, TlsAction);
  }

  // Access lists up to their order; blocked services up to the order of the ids.
  predicate SameAccess(a: Access, b: Access)
  {
    SameStrings(b.allowed, a.allowed) && SameStrings(b.disallowed, a.disallowed)
    && SameStrings(b.blockedHosts, a.blockedHosts)
  }

  predicate SameServices(a: Services, b: Services)
  {
    SameStrings(b.ids, a.ids) && b.schedule == a.schedule
  }

  lemma AccessOn(cfg: Config, s: Instance, profileRead: bool, o: Origin, visits: seq<SyncRun>, i: nat)
    requires RunFrom(cfg, s, profileRead, o, visits) && i < |visits| && Flawless(cfg, visits[i])
    requires cfg.features.dnsAccessLists
    ensures SameAccess(s.settings.access, visits[i].s1.settings.access)
  {
    hide RunFrom, Flawless, AccessEq;
    Agreed(cfg, s, profileRead, o, visits, i, AccessAction);
    AccessEqMeans(visits[i].s1.settings.access, s.settings.access);
  }

  lemma ServicesOn(cfg: Config, s: Instance, profileRead: bool, o: Origin, visits: seq<SyncRun>, i: nat)
    requires RunFrom(cfg, s, profileRead, o, visits) && i < |visits| && Flawless(cfg, visits[i])
    requires cfg.features.services
    ensures SameServices(s.settings.services, visits[i].s1.settings.services)
  {
    hide RunFrom, Flawless, ListEq;
    Agreed(cfg, s, profileRead, o, visits, i, ServicesAction);
    ListEqMeans(s.settings.services.ids, visits[i].s1.settings.services.ids);
  }

  // ---- Rewrites, profile, DHCP: from the one execution ----

  lemma ReadSettings(cfg: Config, s: Instance, profileRead: bool, o: Origin, visits: seq<SyncRun>, i: nat)
    requires RunFrom(cfg, s, profileRead, o, visits) && i < |visits|
    ensures ValidSync(cfg, visits[i]) && Loosely(o, visits[i].o0)
    ensures o.settings == SettingsOf(cfg.features, s, profileRead) && o.rewrites == s.rewrites
  {
    hide ValidSync, Loosely, Filed, SettingsOf;
    Guarantees.LikeItself(o);
    Guarantees.ProfileStays(cfg, o, visits, i);
  }

  lemma LooseMeans(a: Origin, b: Origin)
    requires Loosely(a, b)
    ensures a.rewrites == b.rewrites && a.settings.profile == b.settings.profile && a.settings.dhcp == b.settings.dhcp
  {}

  // What the one execution started from and left.
  lemma RewritesRun(cfg: Config, run: SyncRun) returns (r: ActionRun)
    requires ValidSync(cfg, run) && Flawless(cfg, run) && cfg.features.dnsRewrites
    ensures ValidRun(ContextFor(cfg, run.inst, run.s0), r) && r.act.RewritesAction? && AllOk(r.events)
    ensures r.s0.rewrites == run.s0.rewrites && r.s1.rewrites == run.s1.rewrites && r.o0.rewrites == run.o0.rewrites
  {
    hide ValidSync, Flawless, ValidRun, AllOk, Loosely;
    r := OwnRun(cfg, run, RewritesAction);
    LooseMeans(run.o0, r.o0);
  }

  lemma VisitRewrites(cfg: Config, run: SyncRun)
    requires ValidSync(cfg, run) && Flawless(cfg, run) && cfg.features.dnsRewrites
    ensures SaysExactly(run.s1.rewrites, run.o0.rewrites) <==> FirstsSayIt(run.s0.rewrites, run.o0.rewrites)
    ensures (forall e | e in run.s0.rewrites || e in run.o0.rewrites :: PlainEntry(e)) ==>
              SaysExactly(run.s1.rewrites, run.o0.rewrites)
  {
    hide ValidSync, Flawless, SaysExactly, FirstsSayIt, PlainEntry, ValidRun, AllOk, ContextFor;
    var r := RewritesRun(cfg, run);
    SayingsConvergeExactly(ContextFor(cfg, run.inst, run.s0), r);
    if forall e | e in run.s0.rewrites || e in run.o0.rewrites :: PlainEntry(e) {
      PlainSayingsConverge(ContextFor(cfg, run.inst, run.s0), r);
    }
  }

  lemma RewritesOn(cfg: Config, s: Instance, profileRead: bool, o: Origin, visits: seq<SyncRun>, i: nat)
    requires RunFrom(cfg, s, profileRead, o, visits) && i < |visits| && Flawless(cfg, visits[i])
    requires cfg.features.dnsRewrites
    ensures SaysExactly(visits[i].s1.rewrites, s.rewrites) <==> FirstsSayIt(visits[i].s0.rewrites, s.rewrites)
    ensures (forall e | e in visits[i].s0.rewrites || e in s.rewrites :: PlainEntry(e)) ==>
              SaysExactly(visits[i].s1.rewrites, s.rewrites)
  {
    ReadSettings(cfg, s, profileRead, o, visits, i);
    hide RunFrom, ValidSync, Flawless, SaysExactly, FirstsSayIt, PlainEntry, SettingsOf, Loosely;
    LooseMeans(o, visits[i].o0);
    VisitRewrites(cfg, visits[i]);
  }

  // The profile a flawless visit leaves: the replica's own with the origin's language, and
  // its theme if themes are synchronized; unchanged if the language is the same or one of
  // the values needed is empty.
  function ProfileLeft(o: Profile, was: Profile, withTheme: bool): Profile
  {
    if was.name == "" || o.language in ["", was.language] then was
    else Profile(was.name, o.language, if withTheme && o.theme != "" then o.theme else was.theme)
  }

  lemma ProfileResult(ctx: Context, run: ActionRun)
    requires ValidRun(ctx, run) && run.act.ProfileAction? && AllOk(run.events)
    ensures run.s1.settings.profile == ProfileLeft(run.o0.settings.profile, run.s0.settings.profile, ctx.theme)
  {
    OneCallRun(ctx, run);
    hide ValidRun, ShouldSyncFor;
    ProfileToWrite(run.s0.settings.profile, run.o0.settings.profile, ctx.theme);
  }

  // The profile that was read; after a tolerated 401 it is empty.
  function ReadProfile(s: Instance, profileRead: bool): Profile
  {
    if profileRead then s.settings.profile else Profile("", "", "")
  }

  lemma VisitProfile(cfg: Config, run: SyncRun)
    requires ValidSync(cfg, run) && Flawless(cfg, run) && cfg.features.generalSettings
    ensures run.s1.settings.profile ==
            ProfileLeft(run.o0.settings.profile, run.s0.settings.profile, cfg.features.theme)
  {
    hide ValidSync, Flawless, ProfileLeft, ValidRun, AllOk, Loosely;
    var r := OwnRun(cfg, run, ProfileAction);
    LooseMeans(run.o0, r.o0);
    ProfileResult(ContextFor(cfg, run.inst, run.s0), r);
  }

  lemma ProfileOn(cfg: Config, s: Instance, profileRead: bool, o: Origin, visits: seq<SyncRun>, i: nat)
    requires RunFrom(cfg, s, profileRead, o, visits) && i < |visits| && Flawless(cfg, visits[i])
    requires cfg.features.generalSettings
    ensures visits[i].s1.settings.profile ==
            ProfileLeft(ReadProfile(s, profileRead), visits[i].s0.settings.profile, cfg.features.theme)
  {
    ReadSettings(cfg, s, profileRead, o, visits, i);
    hide RunFrom, ValidSync, Flawless, ProfileLeft, Loosely;
    LooseMeans(o, visits[i].o0);
    VisitProfile(cfg, visits[i]);
  }

  // The origin's configuration if it has a usable section, and the replica's own otherwise;
  // dynamic leases are the replica's own.
  predicate DhcpSettled(o: Dhcp, inst: Endpoint, was: Dhcp, now: Dhcp)
  {
    && now.leases == was.leases
    && if UsableV4(o.v4) || UsableV6(o.v6) then DhcpTaken(o, inst.interfaceName, inst.dhcpServerEnabled, now)
       else now == was
  }

  lemma VisitDhcp(cfg: Config, run: SyncRun)
    requires ValidSync(cfg, run) && Flawless(cfg, run) && cfg.features.dhcpServerConfig
    ensures DhcpSettled(run.o0.settings.dhcp, run.inst, run.s0.settings.dhcp, run.s1.settings.dhcp)
  {
    hide ValidSync, Flawless, ValidRun, AllOk, Loosely, DhcpTaken, UsableV4, UsableV6;
    var r := OwnRun(cfg, run, DhcpConfigAction);
    LooseMeans(run.o0, r.o0);
    DhcpReached(ContextFor(cfg, run.inst, run.s0), r);
  }

  lemma DhcpOn(cfg: Config, s: Instance, profileRead: bool, o: Origin, visits: seq<SyncRun>, i: nat)
    requires RunFrom(cfg, s, profileRead, o, visits) && i < |visits| && Flawless(cfg, visits[i])
    requires cfg.features.dhcpServerConfig
    ensures DhcpSettled(s.settings.dhcp, visits[i].inst, visits[i].s0.settings.dhcp, visits[i].s1.settings.dhcp)
  {
    ReadSettings(cfg, s, profileRead, o, visits, i);
    hide RunFrom, ValidSync, Flawless, Loosely, DhcpSettled;
    LooseMeans(o, visits[i].o0);
    VisitDhcp(cfg, visits[i]);
  }

  // Whatever fails, and whatever happened to the replicas before: see ProfileKept.
  lemma ThemeIsOptional(cfg: Config, s: Instance, profileRead: bool, o: Origin, visits: seq<SyncRun>, i: nat)
    requires RunFrom(cfg, s, profileRead, o, visits) && i < |visits|
    ensures ProfileKept(ReadProfile(s, profileRead), visits[i].s0.settings.profile, visits[i].s1.settings.profile,
                        cfg.features.theme)
  {
    ReadSettings(cfg, s, profileRead, o, visits, i);
    hide RunFrom, ValidSync, Loosely, ProfileKept;
    LooseMeans(o, visits[i].o0);
    Flags.VisitKeepsProfile(cfg, visits[i]);
  }
}
