// From the server that is read to a replica none of whose calls failed: filters, clients
// and leases, and then all flags together.

module ListsEndToEnd {
  import opened Sorting
  import opened Values
  import opened Server
  import opened Merging
  import opened Plans
  import opened NeverStale
  import opened Evolution
  import opened Convergence
  import opened Ownership
  import opened Agreement
  import opened Syncing
  import opened Success
  import opened Origins
  import opened Meanings
  import opened Sayings
  import opened EndToEnd
  import Guarantees

  lemma LooseListsAre(a: Origin, b: Origin, list: ListId)
    requires Loosely(a, b) && list != ListId.Clients
    ensures a.List(list) == b.List(list) && Wanted(a, list) == Wanted(b, list)
  {}

  // What a server has in a slot is what its reading wants there.
  lemma ReadWants(f: Features, s: Instance, profileRead: bool, o: Origin, list: ListId)
    requires IsReading(f, s, profileRead, o) && Filed(s) && (list == Leases ==> f.dhcpStaticLeases)
    ensures Wanted(o, list) == Part(s.lists, list) && (list != ListId.Clients ==> DistinctKeys(o.List(list)))
  {
    hide Filed, Listing, SettingsOf;
    ListingBelongs(list, o.List(list), s);
    Guarantees.ReadingWants(s, o, list);
  }

  // The entry the one execution leaves in a slot is there in the end.
  lemma SlotLeft(cfg: Config, run: SyncRun, act: Action, slot: Slot) returns (given: bool)
    requires ValidSync(cfg, run) && Flawless(cfg, run) && Enabled(cfg.features, act) && WorksOn(act, slot.list)
    requires slot.list != ListId.Clients && CleanFor(act, run.o0)
    ensures Reached(run.o0, run.s0.lists, run.s1.lists, slot, given)
  {
    hide ValidSync, Flawless, ValidRun, AllOk, Loosely, DistinctKeys, Differs, Want, Sent, Enabled;
    var r := OwnRun(cfg, run, act);
    CleanToo(act, run.o0, r.o0);
    given := ListRound(ContextFor(cfg, run.inst, run.s0), r, slot);
    assert SameAt(r.s0.lists, run.s0.lists, slot) && SameAt(r.s1.lists, run.s1.lists, slot);
    hide OwnedSame;
    ReachedThere(run.o0, r.o0, r.s0.lists, run.s0.lists, r.s1.lists, run.s1.lists, slot, given);
  }

  lemma CleanToo(act: Action, a: Origin, b: Origin)
    requires Loosely(a, b) && CleanFor(act, a)
    ensures CleanFor(act, b)
  {
    LooseListsAre(a, b, BlockLists);
    LooseListsAre(a, b, AllowLists);
    LooseListsAre(a, b, Leases);
    hide Loosely, DistinctKeys;
  }

  lemma ReachedThere(o: Origin, o': Origin, before: map<Slot, Item>, before': map<Slot, Item>, after: map<Slot, Item>,
                     after': map<Slot, Item>, slot: Slot, given: bool)
    requires Loosely(o, o') && slot.list != ListId.Clients
    requires SameAt(before, before', slot) && SameAt(after, after', slot) && Reached(o', before, after, slot, given)
    ensures Reached(o, before', after', slot, given)
  {
    LooseListsAre(o, o', slot.list);
    hide Loosely, Same, Sent;
  }

  // Against the server: the same slots; filters as on the server, only the flag of an added
  // one is the replica's choice; leases that were there as they were, others as on the server.
  ghost predicate SlotAsRead(s: map<Slot, Item>, was: map<Slot, Item>, now: map<Slot, Item>, slot: Slot)
  {
    && (slot in now <==> slot in s)
    && (slot in s && slot.list == Leases ==> now[slot] == if slot in was then was[slot] else s[slot])
    && (slot in s && slot.list in {BlockLists, AllowLists} ==>
          s[slot].Filter? && now[slot].Filter? && now[slot].url == s[slot].url && now[slot].name == s[slot].name
          && (slot in was ==> now[slot].enabled == s[slot].enabled))
  }

  lemma ReachedIsAsRead(o: Origin, s: Instance, was: Instance, now: map<Slot, Item>, slot: Slot, given: bool)
    requires Reached(o, was.lists, now, slot, given) && Filed(s) && Filed(was)
    requires slot.list != ListId.Clients && Wanted(o, slot.list) == Part(s.lists, slot.list)
    ensures SlotAsRead(s.lists, was.lists, now, slot)
  {
    assert Wants(o, slot) <==> slot in s.lists;
    assert slot in s.lists ==> Want(o, slot) == s.lists[slot];
    if slot in s.lists && slot in was.lists { SameMeans(was.lists[slot], s.lists[slot]); }
    hide Wants, Want, Same;
  }

  lemma SlotOn(cfg: Config, s: Instance, profileRead: bool, o: Origin, visits: seq<SyncRun>, i: nat, act: Action,
               slot: Slot)
    requires RunFrom(cfg, s, profileRead, o, visits) && i < |visits| && Flawless(cfg, visits[i])
    requires Enabled(cfg.features, act) && WorksOn(act, slot.list) && slot.list != ListId.Clients
    ensures SlotAsRead(s.lists, visits[i].s0.lists, visits[i].s1.lists, slot)
  {
    var run := visits[i];
    ReadSettings(cfg, s, profileRead, o, visits, i);
    ListsRead(cfg.features, s, profileRead, o, act, slot);
    hide RunFrom, Flawless, Loosely, SlotAsRead, IsReading;
    StartsFiled(cfg, run);
    hide ValidSync;
    CleanToo(act, o, run.o0);
    var given := SlotLeft(cfg, run, act, slot);
    LooseListsAre(o, run.o0, slot.list);
    ReachedIsAsRead(run.o0, s, run.s0, run.s1.lists, slot, given);
  }

  lemma StartsFiled(cfg: Config, run: SyncRun)
    requires ValidSync(cfg, run)
    ensures Filed(run.s0)
  {}

  lemma ListsRead(f: Features, s: Instance, profileRead: bool, o: Origin, act: Action, slot: Slot)
    requires IsReading(f, s, profileRead, o) && Filed(s) && Enabled(f, act) && WorksOn(act, slot.list)
    requires slot.list != ListId.Clients
    ensures CleanFor(act, o) && Wanted(o, slot.list) == Part(s.lists, slot.list)
  {
    hide IsReading, Filed, DistinctKeys;
    if act.FiltersAction? {
      ReadWants(f, s, profileRead, o, BlockLists);
      ReadWants(f, s, profileRead, o, AllowLists);
    } else {
      ReadWants(f, s, profileRead, o, Leases);
    }
  }

  // ---- Rules ----

  // Rules without spaces are as on the server, but for a single empty one; and with the
  // server's rules from the start, so are enabled and interval.
  predicate RulesAsRead(s: Settings, was: Settings, now: Settings)
  {
    && (s.userRules.Some? && Spaceless(s.userRules.value) && now.userRules.Some? && Spaceless(now.userRules.value) ==>
          now.userRules == s.userRules || (Blank(s.userRules.value) && Blank(now.userRules.value)))
    && (s.userRules.None? <==> now.userRules.None?)
    && (was.userRules == s.userRules ==> now.filtering == s.filtering)
  }

  lemma RulesOn(cfg: Config, s: Instance, profileRead: bool, o: Origin, visits: seq<SyncRun>, i: nat)
    requires RunFrom(cfg, s, profileRead, o, visits) && i < |visits| && Flawless(cfg, visits[i])
    requires cfg.features.filters
    ensures RulesAsRead(s.settings, visits[i].s0.settings, visits[i].s1.settings)
  {
    hide RunFrom, Flawless, RulesAsRead, SlotSettled;
    Agreed(cfg, s, profileRead, o, visits, i, FiltersAction);
    RulesSettledAre(o.settings, visits[i].s0.settings, visits[i].s1.settings);
    RulesOfReading(cfg.features, s, profileRead);
    hide Agrees;
    SameRules(o.settings, s.settings, visits[i].s0.settings, visits[i].s1.settings);
  }

  lemma RulesOfReading(f: Features, s: Instance, profileRead: bool)
    ensures SettingsOf(f, s, profileRead).userRules == s.settings.userRules
    ensures SettingsOf(f, s, profileRead).filtering == s.settings.filtering
  {}

  lemma RulesSettledAre(o: Settings, was: Settings, now: Settings)
    requires RulesSettled(o, was, now)
    ensures RulesAsRead(o, was, now)
  {
    hide Render;
    if o.userRules.Some? && Spaceless(o.userRules.value) && now.userRules.Some? && Spaceless(now.userRules.value) {
      RenderTells(o.userRules, now.userRules);
    }
    NilRenders(o.userRules);
    NilRenders(now.userRules);
  }

  lemma NilRenders(rules: Option<seq<string>>)
    ensures Render(rules) == "" <==> rules.None?
  {}

  lemma SameRules(o: Settings, s: Settings, was: Settings, now: Settings)
    requires o.userRules == s.userRules && o.filtering == s.filtering
    ensures RulesAsRead(o, was, now) == RulesAsRead(s, was, now)
  {}

  // ---- Clients ----

  // Schedules agree but for the time zone of one without a day.
  predicate SameSchedule(a: Option<Schedule>, b: Option<Schedule>)
  {
    b == a || (a.Some? && b.Some? && Dayless(a.value) && Dayless(b.value))
  }

  predicate SameClient(a: Item, b: Item)
  {
    && a.Client? && b.Client? && b.clientName == a.clientName && b.rest == a.rest
    && SameStrings(b.ids, a.ids) && SameStrings(b.tags, a.tags) && SameStrings(b.blockedServices, a.blockedServices)
    && SameStrings(b.upstreams, a.upstreams) && SameSchedule(a.schedule, b.schedule)
  }

  // No client of the server has both a day and a time zone.
  ghost predicate NoZonedDays(s: Instance)
  {
    forall key | Slot(ListId.Clients, key) in s.lists ::
      var c := s.lists[Slot(ListId.Clients, key)];
      c.Client? && c.schedule.Some? && c.schedule.value.timeZone.Some? ==> Dayless(c.schedule.value)
  }

  lemma ClientEqIs(a: Item, b: Item)
    requires a.Client? && b.Client? && ClientEq(b, a)
    ensures SameClient(a, b)
  {
    ClientEqMeaning(b, a);
    ListEqMeans(b.ids, a.ids);
    ListEqMeans(b.tags, a.tags);
    ListEqMeans(b.blockedServices, a.blockedServices);
    ListEqMeans(b.upstreams, a.upstreams);
    hide ClientEq, ListEq, SameStrings;
  }

  lemma ClientsRead(f: Features, s: Instance, profileRead: bool, o: Origin)
    requires IsReading(f, s, profileRead, o) && Filed(s) && NoZonedDays(s)
    ensures Wanted(o, ListId.Clients) == Part(s.lists, ListId.Clients) && NonLossy(o)
  {
    hide IsReading, Wanted;
    ReadWants(f, s, profileRead, o, ListId.Clients);
    forall k | k in Wanted(o, ListId.Clients) ensures !Lossy(Wanted(o, ListId.Clients)[k]) {
      assert Slot(ListId.Clients, k) in s.lists;
    }
  }

  lemma ClientSlotIs(o: Origin, s: Instance, now: Instance, slot: Slot)
    requires slot.list == ListId.Clients && Filed(s) && Filed(now) && !Differs(o, now.lists, slot)
    requires Wanted(o, ListId.Clients) == Part(s.lists, ListId.Clients)
    ensures (slot in now.lists <==> slot in s.lists)
            && (slot in s.lists ==> SameClient(s.lists[slot], now.lists[slot]))
  {
    assert Wants(o, slot) <==> slot in s.lists;
    if slot in s.lists && slot in now.lists {
      assert Want(o, slot) == s.lists[slot];
      SameMeans(now.lists[slot], s.lists[slot]);
      hide Same, ClientEq, SameClient;
      ClientEqIs(s.lists[slot], now.lists[slot]);
    }
  }

  lemma {:induction false} ChainKeepsFiled(ctx: Context, o0: Origin, s0: Instance, runs: seq<ActionRun>, n: nat)
    requires Chained(ctx, o0, s0, runs) && n <= |runs| && Filed(s0)
    ensures Filed(StateBefore(s0, runs, n))
  {
    hide Chained, Filed, ValidRun;
    if n > 0 {
      ChainLink(ctx, o0, s0, runs, n - 1);
      RunKeepsFiled(ctx, runs[n - 1]);
    }
  }

  lemma VisitKeepsFiled(cfg: Config, run: SyncRun)
    requires ValidSync(cfg, run)
    ensures Filed(run.s1)
  {
    hide Chained, Filed;
    if run.runs != [] {
      ChainKeepsFiled(ContextFor(cfg, run.inst, run.s0), run.o0, run.s0, run.runs, |run.runs|);
    }
  }

  lemma ClientsOn(cfg: Config, s: Instance, profileRead: bool, o: Origin, visits: seq<SyncRun>, i: nat, key: string)
    requires RunFrom(cfg, s, profileRead, o, visits) && i < |visits| && Flawless(cfg, visits[i])
    requires cfg.features.clientSettings && NoZonedDays(s)
    ensures var slot, now := Slot(ListId.Clients, key), visits[i].s1.lists;
            (slot in now <==> slot in s.lists) && (slot in s.lists ==> SameClient(s.lists[slot], now[slot]))
  {
    hide RunFrom, Filed, ValidSync, Flawless, NonLossy, Wanted, Part, SameClient, NoZonedDays, SettingsOf, Agrees;
    PartsOfRun(cfg, s, profileRead, o, visits, i);
    ClientsRead(cfg.features, s, profileRead, o);
    VisitKeepsFiled(cfg, visits[i]);
    Agreed(cfg, s, profileRead, o, visits, i, ClientsAction);
    ClientsAgreed(ContextFor(cfg, visits[i].inst, visits[i].s0), o, visits[i].s0, visits[i].s1, key);
    hide IsReading;
    ClientSlotIs(o, s, visits[i].s1, Slot(ListId.Clients, key));
  }

  lemma PartsOfRun(cfg: Config, s: Instance, profileRead: bool, o: Origin, visits: seq<SyncRun>, i: nat)
    requires RunFrom(cfg, s, profileRead, o, visits) && i < |visits|
    ensures IsReading(cfg.features, s, profileRead, o) && Filed(s) && ValidSync(cfg, visits[i])
  {
    hide ValidSync, IsReading;
  }

  lemma ClientsAgreed(ctx: Context, o: Origin, was: Instance, now: Instance, key: string)
    requires Agrees(ClientsAction, ctx, o, was, now)
    ensures !Differs(o, now.lists, Slot(ListId.Clients, key))
  {
    hide Differs;
  }

  // ---- All flags ----

  ghost predicate ListsAsRead(f: Features, s: Instance, was: Instance, now: Instance)
  {
    && (f.filters ==>
          (forall key :: SlotAsRead(s.lists, was.lists, now.lists, Slot(BlockLists, key))
                         && SlotAsRead(s.lists, was.lists, now.lists, Slot(AllowLists, key)))
          && RulesAsRead(s.settings, was.settings, now.settings))
    && (f.dhcpStaticLeases ==> forall key :: SlotAsRead(s.lists, was.lists, now.lists, Slot(Leases, key)))
    && (f.clientSettings && NoZonedDays(s) ==>
          forall key ::
            var slot := Slot(ListId.Clients, key);
            && (slot in now.lists <==> slot in s.lists)
            && (slot in s.lists ==> SameClient(s.lists[slot], now.lists[slot])))
  }

  lemma ListsOn(cfg: Config, s: Instance, profileRead: bool, o: Origin, visits: seq<SyncRun>, i: nat)
    requires RunFrom(cfg, s, profileRead, o, visits) && i < |visits| && Flawless(cfg, visits[i])
    ensures ListsAsRead(cfg.features, s, visits[i].s0, visits[i].s1)
  {
    hide RunFrom, Flawless, SlotAsRead, RulesAsRead, NoZonedDays, SameClient;
    if cfg.features.filters {
      RulesOn(cfg, s, profileRead, o, visits, i);
      forall key
        ensures SlotAsRead(s.lists, visits[i].s0.lists, visits[i].s1.lists, Slot(BlockLists, key))
        ensures SlotAsRead(s.lists, visits[i].s0.lists, visits[i].s1.lists, Slot(AllowLists, key))
      {
        SlotOn(cfg, s, profileRead, o, visits, i, FiltersAction, Slot(BlockLists, key));
        SlotOn(cfg, s, profileRead, o, visits, i, FiltersAction, Slot(AllowLists, key));
      }
    }
    if cfg.features.dhcpStaticLeases {
      forall key ensures SlotAsRead(s.lists, visits[i].s0.lists, visits[i].s1.lists, Slot(Leases, key)) {
        SlotOn(cfg, s, profileRead, o, visits, i, LeasesAction, Slot(Leases, key));
      }
    }
    if cfg.features.clientSettings && NoZonedDays(s) {
      forall key
        ensures var slot, now := Slot(ListId.Clients, key), visits[i].s1.lists;
                (slot in now <==> slot in s.lists) && (slot in s.lists ==> SameClient(s.lists[slot], now[slot]))
      {
        ClientsOn(cfg, s, profileRead, o, visits, i, key);
      }
    }
  }

  // What each flag that is on has made of the settings.
  ghost predicate SettingsAsRead(f: Features, s: Instance, profileRead: bool, inst: Endpoint, was: Instance,
                                 now: Instance)
  {
    var a, b := s.settings, now.settings;
    && (f.generalSettings ==>
          SameSwitches(a, b) && b.profile == ProfileLeft(ReadProfile(s, profileRead), was.settings.profile, f.theme))
    && (f.dnsServerConfig ==> SameDns(a.dns, b.dns) && b.protection == a.protection)
    && (f.queryLogConfig ==> b.queryLog == a.queryLog)
    && (f.statsConfig ==> b.stats == a.stats)
    && (f.services ==> SameServices(a.services, b.services))
    && (f.dnsAccessLists ==> SameAccess(a.access, b.access))
    && (f.dhcpServerConfig ==> DhcpSettled(a.dhcp, inst, was.settings.dhcp, b.dhcp))
    && (f.tlsConfig ==> b.tls == a.tls)
  }

  lemma SettingsOn(cfg: Config, s: Instance, profileRead: bool, o: Origin, visits: seq<SyncRun>, i: nat)
    requires RunFrom(cfg, s, profileRead, o, visits) && i < |visits| && Flawless(cfg, visits[i])
    ensures SettingsAsRead(cfg.features, s, profileRead, visits[i].inst, visits[i].s0, visits[i].s1)
  {
    hide RunFrom, Flawless, SameSwitches, ProfileLeft, SameDns, SameServices, SameAccess, DhcpSettled;
    if cfg.features.generalSettings {
      GeneralOn(cfg, s, profileRead, o, visits, i);
      ProfileOn(cfg, s, profileRead, o, visits, i);
    }
    if cfg.features.dnsServerConfig { DnsOn(cfg, s, profileRead, o, visits, i); }
    if cfg.features.queryLogConfig { QueryLogOn(cfg, s, profileRead, o, visits, i); }
    if cfg.features.statsConfig { StatsOn(cfg, s, profileRead, o, visits, i); }
    if cfg.features.services { ServicesOn(cfg, s, profileRead, o, visits, i); }
    if cfg.features.dnsAccessLists { AccessOn(cfg, s, profileRead, o, visits, i); }
    if cfg.features.dhcpServerConfig { DhcpOn(cfg, s, profileRead, o, visits, i); }
    if cfg.features.tlsConfig { TlsOn(cfg, s, profileRead, o, visits, i); }
  }

  // After a visit without a failing call, what each flag that is on stands for agrees with
  // the server that was read: settings, lists and, if no domain holds a '#', rewrites. What
  // happened to the replicas before does not matter.
  lemma FlagsOn(cfg: Config, s: Instance, profileRead: bool, o: Origin, visits: seq<SyncRun>, i: nat)
    requires RunFrom(cfg, s, profileRead, o, visits) && i < |visits| && Flawless(cfg, visits[i])
    ensures SettingsAsRead(cfg.features, s, profileRead, visits[i].inst, visits[i].s0, visits[i].s1)
    ensures ListsAsRead(cfg.features, s, visits[i].s0, visits[i].s1)
    ensures cfg.features.dnsRewrites && (forall e | e in visits[i].s0.rewrites || e in s.rewrites :: PlainEntry(e)) ==>
              SaysExactly(visits[i].s1.rewrites, s.rewrites)
  {
    hide RunFrom, Flawless, SettingsAsRead, ListsAsRead, PlainEntry, SaysExactly;
    SettingsOn(cfg, s, profileRead, o, visits, i);
    ListsOn(cfg, s, profileRead, o, visits, i);
    if cfg.features.dnsRewrites { RewritesOn(cfg, s, profileRead, o, visits, i); }
  }
}
