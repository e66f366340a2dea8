// The actions of a run: each reads a part of the replica, compares it with the origin's
// configuration in memory, and calls what is needed.

module Actions {
  import opened Sorting
  import opened Values
  import opened Server
  import opened Plans
  import opened Configs
  import opened Api
  import opened Memory
  import opened Outcomes

  // The end of an action that makes at most one call after its read e.
  method Finish(act: Action, ghost ctx: Context, client: ApiClient, ghost o: Origin, ghost s0: Instance,
                ghost t0: seq<Event>, ghost e: Event, needed: bool, call: Call, tolerated: bool)
    returns (err: bool, ghost run: ActionRun)
    requires Typed(o) && Filed(s0) && client.server == s0 && client.trace == t0 + [e]
    requires ReadOf(act, o).Some? && e.call == Get(ReadOf(act, o).value) && e.Ok()
    requires IsPlan(act, ctx, o, s0, OneStep(needed, call, tolerated))
    modifies client
    ensures Outcome(act, ctx, run, err, o, s0, t0, OriginAfter(act, o, s0, true), client.server, client.trace)
  {
    hide Replay, Filed, Executes, Outcome, IsPlan, Typed, OriginAfter, OneStep;
    ghost var events;
    err, events := client.DoIf(needed, call, tolerated);
    run := ReadAndDo(act, ctx, o, s0, t0, e, OneStep(needed, call, tolerated), events, err,
                     OriginAfter(act, o, s0, true));
  }

  // ---- General settings ----

  method SyncProfile(client: ApiClient, o: OriginMemory, ctx: Context, ghost org: Origin)
    returns (err: bool, ghost run: ActionRun)
    requires o.Valid() && org == o.View() && Filed(client.server)
    modifies client
    ensures Outcome(ProfileAction, ctx, run, err, org, old(client.server), old(client.trace), org, client.server,
                    client.trace)
  {
    hide Filed, Outcome, ShouldSyncFor, SafeSearchEq, OriginMemory.View, OriginMemory.Valid;
    o.ViewMeans();
    ghost var s0, t0 := client.server, client.trace;
    var rs;
    ghost var e;
    err, rs, e := client.Get(ProfileInfo);
    if err {
      run := ReadFails(ProfileAction, ctx, org, s0, t0, e);
      return;
    }
    var merged := ShouldSyncFor(rs.settings.profile, o.settings.profile, ctx.theme);
    var profile := if merged.Some? then merged.value else rs.settings.profile;
    err, run := Finish(ProfileAction, ctx, client, org, s0, t0, e, merged.Some?, SetProfile(profile), false);
  }

  // Compares with the protection in the status the run started with.
  method SyncProtection(client: ApiClient, o: OriginMemory, ctx: Context, ghost org: Origin)
    returns (err: bool, ghost run: ActionRun)
    requires o.Valid() && org == o.View() && Filed(client.server)
    modifies client
    ensures Outcome(ProtectionAction, ctx, run, err, org, old(client.server), old(client.trace), org, client.server,
                    client.trace)
  {
    hide Filed, Outcome, Executes, Replay, OriginMemory.View, OriginMemory.Valid;
    o.ViewMeans();
    ghost var s0, t0 := client.server, client.trace;
    var needed, call := o.settings.protection != ctx.replicaProtection, ToggleProtection(o.settings.protection);
    ghost var events;
    err, events := client.DoIf(needed, call, false);
    run := JustDo(ProtectionAction, ctx, org, s0, t0, OneStep(needed, call, false), events, err);
  }

  method SyncParental(client: ApiClient, o: OriginMemory, ctx: Context, ghost org: Origin)
    returns (err: bool, ghost run: ActionRun)
    requires o.Valid() && org == o.View() && Filed(client.server)
    modifies client
    ensures Outcome(ParentalAction, ctx, run, err, org, old(client.server), old(client.trace), org, client.server,
                    client.trace)
  {
    hide Filed, Outcome, ShouldSyncFor, SafeSearchEq, OriginMemory.View, OriginMemory.Valid;
    o.ViewMeans();
    ghost var s0, t0 := client.server, client.trace;
    var rs;
    ghost var e;
    err, rs, e := client.Get(Parental);
    if err {
      run := ReadFails(ParentalAction, ctx, org, s0, t0, e);
      return;
    }
    err,
        run := Finish(ParentalAction, ctx, client, org, s0, t0, e, o.settings.parental != rs.settings.parental,
                      ToggleParental(o.settings.parental), false);
  }

  // The log line before the write dereferences the enabled flag.
  method SyncSafeSearch(client: ApiClient, o: OriginMemory, ctx: Context, ghost org: Origin)
    returns (err: bool, ghost run: ActionRun)
    requires o.Valid() && org == o.View() && Filed(client.server)
    requires !SafeSearchEq(o.settings.safeSearch, client.server.settings.safeSearch) ==>
               o.settings.safeSearch.enabled.Some?
    modifies client
    ensures Outcome(SafeSearchAction, ctx, run, err, org, old(client.server), old(client.trace), org, client.server,
                    client.trace)
  {
    hide Filed, Outcome, ShouldSyncFor, SafeSearchEq, OriginMemory.View, OriginMemory.Valid;
    o.ViewMeans();
    ghost var s0, t0 := client.server, client.trace;
    var rs;
    ghost var e;
    err, rs, e := client.Get(SafeSearchConfig);
    if err {
      run := ReadFails(SafeSearchAction, ctx, org, s0, t0, e);
      return;
    }
    var needed := !SafeSearchEq(o.settings.safeSearch, rs.settings.safeSearch);
    if needed { var logged := o.settings.safeSearch.enabled.value; }
    err, run := Finish(SafeSearchAction, ctx, client, org, s0, t0, e, needed, SetSafeSearch(o.settings.safeSearch),
                       false);
  }

  method SyncSafeBrowsing(client: ApiClient, o: OriginMemory, ctx: Context, ghost org: Origin)
    returns (err: bool, ghost run: ActionRun)
    requires o.Valid() && org == o.View() && Filed(client.server)
    modifies client
    ensures Outcome(SafeBrowsingAction, ctx, run, err, org, old(client.server), old(client.trace), org, client.server,
                    client.trace)
  {
    hide Filed, Outcome, ShouldSyncFor, SafeSearchEq, OriginMemory.View, OriginMemory.Valid;
    o.ViewMeans();
    ghost var s0, t0 := client.server, client.trace;
    var rs;
    ghost var e;
    err, rs, e := client.Get(SafeBrowsing);
    if err {
      run := ReadFails(SafeBrowsingAction, ctx, org, s0, t0, e);
      return;
    }
    err,
        run := Finish(SafeBrowsingAction, ctx, client, org, s0, t0, e,
                      o.settings.safeBrowsing != rs.settings.safeBrowsing, ToggleSafeBrowsing(o.settings.safeBrowsing),
        false);
  }

  // ---- Single configurations ----

  // The log line before the write dereferences three fields.
  method SyncQueryLog(client: ApiClient, o: OriginMemory, ctx: Context, ghost org: Origin)
    returns (err: bool, ghost run: ActionRun)
    requires o.Valid() && org == o.View() && Filed(client.server)
    requires o.settings.queryLog != client.server.settings.queryLog ==> o.settings.queryLog.Loggable()
    modifies client
    ensures Outcome(QueryLogAction, ctx, run, err, org, old(client.server), old(client.trace), org, client.server,
                    client.trace)
  {
    hide Filed, Outcome, ShouldSyncFor, SafeSearchEq, OriginMemory.View, OriginMemory.Valid;
    o.ViewMeans();
    ghost var s0, t0 := client.server, client.trace;
    var rs;
    ghost var e;
    err, rs, e := client.Get(QueryLogConfig);
    if err {
      run := ReadFails(QueryLogAction, ctx, org, s0, t0, e);
      return;
    }
    var needed := o.settings.queryLog != rs.settings.queryLog;
    if needed {
      var q := o.settings.queryLog;
      var logged := (q.enabled.value, q.interval.value, q.anonymizeClientIp.value);
    }
    err, run := Finish(QueryLogAction, ctx, client, org, s0, t0, e, needed, SetQueryLog(o.settings.queryLog), false);
  }

  method SyncStats(client: ApiClient, o: OriginMemory, ctx: Context, ghost org: Origin)
    returns (err: bool, ghost run: ActionRun)
    requires o.Valid() && org == o.View() && Filed(client.server)
    modifies client
    ensures Outcome(StatsAction, ctx, run, err, org, old(client.server), old(client.trace), org, client.server,
                    client.trace)
  {
    hide Filed, Outcome, ShouldSyncFor, SafeSearchEq, OriginMemory.View, OriginMemory.Valid;
    o.ViewMeans();
    ghost var s0, t0 := client.server, client.trace;
    var rs;
    ghost var e;
    err, rs, e := client.Get(StatsConfig);
    if err {
      run := ReadFails(StatsAction, ctx, org, s0, t0, e);
      return;
    }
    err,
        run := Finish(StatsAction, ctx, client, org, s0, t0, e, rs.settings.stats != o.settings.stats,
                      SetStats(o.settings.stats), false);
  }

  method SyncTls(client: ApiClient, o: OriginMemory, ctx: Context, ghost org: Origin)
    returns (err: bool, ghost run: ActionRun)
    requires o.Valid() && org == o.View() && o.tls.Some? && Filed(client.server)
    modifies client
    ensures Outcome(TlsAction, ctx, run, err, org, old(client.server), old(client.trace), org, client.server,
                    client.trace)
  {
    hide Filed, Outcome, ShouldSyncFor, SafeSearchEq, OriginMemory.View, OriginMemory.Valid;
    o.ViewMeans();
    ghost var s0, t0 := client.server, client.trace;
    var rs;
    ghost var e;
    err, rs, e := client.Get(TlsConfig);
    if err {
      run := ReadFails(TlsAction, ctx, org, s0, t0, e);
      return;
    }
    err,
        run := Finish(TlsAction, ctx, client, org, s0, t0, e, rs.settings.tls != o.tls.value, SetTls(o.tls.value),
                      ctx.continueOnError);
  }

  method SyncDns(client: ApiClient, o: OriginMemory, ctx: Context, ghost org: Origin)
    returns (err: bool, ghost run: ActionRun)
    requires o.Valid() && org == o.View() && Filed(client.server)
    requires o.dns != null && Sortable(o.dns.View()) && Sortable(client.server.ReadDns())
    modifies client
    ensures Outcome(DnsAction, ctx, run, err, org, old(client.server), old(client.trace), org, client.server,
                    client.trace)
  {
    hide Filed, Outcome, Sortable, DnsEq, OriginMemory.View, OriginMemory.Valid, Configs.DnsConfig.View;
    o.ViewMeans();
    ghost var s0, t0 := client.server, client.trace;
    var rs;
    ghost var e;
    err, rs, e := client.Get(Resource.DnsConfig);
    if err {
      run := ReadFails(DnsAction, ctx, org, s0, t0, e);
      return;
    }
    var dc := new Configs.DnsConfig(rs.ReadDns());
    var eq := dc.Equals(o.dns);
    err, run := Finish(DnsAction, ctx, client, org, s0, t0, e, !eq, SetDns(o.dns.View()), false);
  }

  lemma ServicesPlan(ctx: Context, org: Origin, s0: Instance, needed: bool, v: Services)
    requires Typed(org) && needed == (org.settings.services != s0.settings.services)
    requires v == if needed then LoggedServices(org.settings.services) else org.settings.services
    ensures IsPlan(ServicesAction, ctx, org, s0, OneStep(needed, SetServices(v), false))
    ensures OriginAfter(ServicesAction, org, s0, true) == org.(settings := org.settings.(services := v))
  {
    hide LoggedServices;
  }

  lemma AccessPlan(ctx: Context, org: Origin, s0: Instance, needed: bool, v: Access)
    requires Typed(org) && needed == !AccessEq(s0.settings.access, org.settings.access)
    requires v == AccessTouched(org.settings.access, s0.settings.access)
    ensures IsPlan(AccessAction, ctx, org, s0, OneStep(needed, SetAccess(v), false))
    ensures OriginAfter(AccessAction, org, s0, true) == org.(settings := org.settings.(access := v))
  {
    hide AccessTouched, AccessEq;
  }

  // The log line before services are written sorts them in memory.
  method LogServices(services: Configs.BlockedServices, written: bool)
    modifies Slice(services.ids)
    ensures services.View() == if written then LoggedServices(old(services.View())) else old(services.View())
  {
    if written { var text := services.ServicesString(); }
  }

  // The body of the write is sorted as well.
  method SyncServices(client: ApiClient, o: OriginMemory, ctx: Context, ghost org: Origin)
    returns (err: bool, ghost run: ActionRun)
    requires o.Valid() && org == o.View() && Filed(client.server) && o.services != null
    modifies client, Slice(o.services.ids)
    ensures Outcome(ServicesAction, ctx, run, err, org, old(client.server), old(client.trace),
                    org.(settings := org.settings.(services := o.services.View())), client.server, client.trace)
  {
    hide Filed, Outcome, OriginMemory.View, OriginMemory.Valid, BlockedServices.View, SortOpt, Typed, IsPlan,
         OriginAfter, OneStep, LoggedServices;
    o.ViewMeans();
    ghost var s0, t0 := client.server, client.trace;
    var rs;
    ghost var e;
    err, rs, e := client.Get(Resource.BlockedServices);
    if err {
      run := ReadFails(ServicesAction, ctx, org, s0, t0, e);
      return;
    }
    var differ := o.services.View() != rs.settings.services;
    LogServices(o.services, differ);
    ServicesPlan(ctx, org, s0, differ, o.services.View());
    err, run := Finish(ServicesAction, ctx, client, org, s0, t0, e, differ, SetServices(o.services.View()), false);
  }

  method SyncAccess(client: ApiClient, o: OriginMemory, ctx: Context, ghost org: Origin)
    returns (err: bool, ghost run: ActionRun)
    requires o.Valid() && org == o.View() && Filed(client.server) && o.access != null
    requires o.access.Valid()
    modifies client, o.access.Slices()
    ensures Outcome(AccessAction, ctx, run, err, org, old(client.server), old(client.trace),
                    org.(settings := org.settings.(access := o.access.View())), client.server, client.trace)
  {
    hide Filed, Outcome, OriginMemory.View, OriginMemory.Valid, AccessList.View, AccessTouched, AccessEq,
         AccessList.Valid, IsPlan, OriginAfter, OneStep, Typed;
    o.ViewMeans();
    ghost var s0, t0 := client.server, client.trace;
    var rs;
    ghost var e;
    err, rs, e := client.Get(AccessLists);
    if err {
      run := ReadFails(AccessAction, ctx, org, s0, t0, e);
      return;
    }
    var al := new AccessList(rs.settings.access);
    var eq := al.Equals(o.access);
    AccessPlan(ctx, org, s0, !eq, o.access.View());
    err, run := Finish(AccessAction, ctx, client, org, s0, t0, e, !eq, SetAccess(o.access.View()), false);
  }
}
