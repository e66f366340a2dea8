// Any action, dispatched.

module Perform {
  import opened Values
  import opened Server
  import opened Plans
  import opened Objects
  import opened Configs
  import opened Api
  import opened Memory
  import opened Outcomes
  import opened Actions
  import opened ListActions

  // The parts of the origin an action dereferences have been read, and a server reports
  // enabled and interval of its filtering and no half a set of DNS lists.
  ghost predicate Ready(act: Action, o: OriginMemory)
    reads o, o.Fixed()
  {
    match act
    case SafeSearchAction => o.settings.safeSearch.enabled.Some?
    case QueryLogAction => o.settings.queryLog.Loggable()
    case DnsAction => o.dns != null && Sortable(o.dns.View())
    case FiltersAction => o.settings.filtering.enabled.Some? && o.settings.filtering.interval.Some?
    case ServicesAction => o.services != null
    case AccessAction => o.access != null
    case DhcpConfigAction => o.dhcp != null
    case LeasesAction => o.dhcp != null
    case TlsAction => o.tls.Some?
    case _ => true
  }

  predicate TouchesOrigin(act: Action)
  {
    act.ServicesAction? || act.ClientsAction? || act.AccessAction?
  }

  method PerformGeneral(act: Action, client: ApiClient, o: OriginMemory, ctx: Context, ghost org: Origin)
    returns (err: bool, ghost run: ActionRun)
    requires act.ProfileAction? || act.ProtectionAction? || act.ParentalAction? || act.SafeSearchAction?
              || act.SafeBrowsingAction?
    requires o.Valid() && org == o.View() && Filed(client.server) && Ready(act, o)
    modifies client
    ensures Outcome(act, ctx, run, err, org, old(client.server), old(client.trace), org, client.server, client.trace)
  {
    hide Outcome, OriginMemory.View, OriginMemory.Valid;
    match act
    case ProfileAction => err, run := SyncProfile(client, o, ctx, org);
    case ProtectionAction => err, run := SyncProtection(client, o, ctx, org);
    case ParentalAction => err, run := SyncParental(client, o, ctx, org);
    case SafeSearchAction => err, run := SyncSafeSearch(client, o, ctx, org);
    case SafeBrowsingAction => err, run := SyncSafeBrowsing(client, o, ctx, org);
  }

  method PerformOther(act: Action, client: ApiClient, o: OriginMemory, ctx: Context, ghost org: Origin)
    returns (err: bool, ghost run: ActionRun)
    requires act.DnsAction? || act.QueryLogAction? || act.StatsAction? || act.RewritesAction? || act.FiltersAction?
             || act.DhcpConfigAction? || act.LeasesAction? || act.TlsAction?
    requires o.Valid() && org == o.View() && Filed(client.server) && Ready(act, o)
    requires act.DnsAction? ==> Sortable(client.server.ReadDns())
    modifies client
    ensures Outcome(act, ctx, run, err, org, old(client.server), old(client.trace), org, client.server, client.trace)
  {
    hide Outcome, OriginMemory.View, OriginMemory.Valid, Sortable;
    o.ViewMeans();
    match act
    case DnsAction => err, run := SyncDns(client, o, ctx, org);
    case QueryLogAction => err, run := SyncQueryLog(client, o, ctx, org);
    case StatsAction => err, run := SyncStats(client, o, ctx, org);
    case RewritesAction => err, run := SyncRewrites(client, o, ctx, org);
    case FiltersAction => err, run := SyncFilters(client, o, ctx, org);
    case DhcpConfigAction => err, run := SyncDhcp(client, o, ctx, org);
    case LeasesAction => err, run := SyncLeases(client, o, ctx, org);
    case TlsAction => err, run := SyncTls(client, o, ctx, org);
  }

  // The actions that leave the origin in memory as it is.
  method PerformPure(act: Action, client: ApiClient, o: OriginMemory, ctx: Context, ghost org: Origin)
    returns (err: bool, ghost run: ActionRun)
    requires !TouchesOrigin(act) && o.Valid() && org == o.View() && Filed(client.server) && Ready(act, o)
    requires act.DnsAction? ==> Sortable(client.server.ReadDns())
    modifies client
    ensures Outcome(act, ctx, run, err, org, old(client.server), old(client.trace), org, client.server, client.trace)
  {
    hide Outcome, Sortable, OriginMemory.View, OriginMemory.Valid;
    o.ViewMeans();
    if act.ProfileAction? || act.ProtectionAction? || act.ParentalAction? || act.SafeSearchAction?
          || act.SafeBrowsingAction? {
      err, run := PerformGeneral(act, client, o, ctx, org);
    } else {
      err, run := PerformOther(act, client, o, ctx, org);
    }
  }

  // Nothing of the origin in memory was written.
  twostate lemma NothingWritten(o: OriginMemory)
    requires old(o.Valid()) && unchanged(o) && unchanged(o.clients) && unchanged(o.Touchable()) && unchanged(o.Fixed())
    ensures o.View() == old(o.View()) && o.Valid()
  {}

  method PerformQuietly(act: Action, client: ApiClient, o: OriginMemory, ctx: Context, ghost org: Origin)
    returns (err: bool, ghost run: ActionRun)
    requires !TouchesOrigin(act) && o.Valid() && org == o.View() && Filed(client.server) && Ready(act, o)
    requires act.DnsAction? ==> Sortable(client.server.ReadDns())
    modifies client
    ensures o.Valid()
    ensures Outcome(act, ctx, run, err, org, old(client.server), old(client.trace), o.View(), client.server,
                    client.trace)
  {
    hide Outcome, OriginMemory.View, OriginMemory.Valid, Sortable, Filed, TouchesOrigin, Ready;
    o.ClientsAreApart(client);
    err, run := PerformPure(act, client, o, ctx, org);
    NothingWritten(o);
  }

  // Only clients of the origin in memory were written.
  twostate lemma OnlyClientsWritten(o: OriginMemory)
    requires old(o.Valid()) && unchanged(o) && unchanged(o.Fixed())
    requires o.access != null ==> unchanged(o.access.Slices())
    requires o.services != null ==> unchanged(Slice(o.services.ids))
    ensures o.View() == old(o.View()).(clients := Views(o.clients))
    ensures Typed(o.View()) ==> o.Valid()
  {
    hide Typed, Views;
  }

  method PerformServices(client: ApiClient, o: OriginMemory, ctx: Context, ghost org: Origin)
    returns (err: bool, ghost run: ActionRun)
    requires o.Valid() && org == o.View() && Filed(client.server) && o.services != null
    modifies client, o.clients, o.Touchable()
    ensures o.Valid()
    ensures Outcome(ServicesAction, ctx, run, err, org, old(client.server), old(client.trace), o.View(), client.server,
                    client.trace)
  {
    hide Outcome, BlockedServices.View, AccessList.View, AccessList.Valid, Typed, Filed, PersistentClient.View;
    o.ClientsAreApart(client);
    ghost var s0, t0 := client.server, client.trace;
    err, run := SyncServices(client, o, ctx, org);
    OutcomeKeeps(ServicesAction, ctx, run, err, org, s0, t0, o.View(), client.server, client.trace);
  }

  method PerformAccess(client: ApiClient, o: OriginMemory, ctx: Context, ghost org: Origin)
    returns (err: bool, ghost run: ActionRun)
    requires o.Valid() && org == o.View() && Filed(client.server) && o.access != null
    modifies client, o.clients, o.Touchable()
    ensures o.Valid()
    ensures Outcome(AccessAction, ctx, run, err, org, old(client.server), old(client.trace), o.View(), client.server,
                    client.trace)
  {
    hide Outcome, BlockedServices.View, AccessList.View, AccessList.Valid, Typed, Filed, PersistentClient.View;
    o.ClientsAreApart(client);
    ghost var s0, t0 := client.server, client.trace;
    err, run := SyncAccess(client, o, ctx, org);
    OutcomeKeeps(AccessAction, ctx, run, err, org, s0, t0, o.View(), client.server, client.trace);
  }

  method PerformClients(client: ApiClient, o: OriginMemory, ctx: Context, ghost org: Origin)
    returns (err: bool, ghost run: ActionRun)
    requires o.Valid() && org == o.View() && Filed(client.server)
    modifies client, o.clients, o.Touchable()
    ensures o.Valid()
    ensures Outcome(ClientsAction, ctx, run, err, org, old(client.server), old(client.trace), o.View(), client.server,
                    client.trace)
  {
    hide Outcome, Typed, Filed, OriginMemory.View, AccessList.View, AccessList.Valid, Configs.DnsConfig.Valid, Distinct,
         Views, ValidRun, BlockedServices.View;
    o.ClientsAreApart(client);
    o.ClientsStandAlone();
    ghost var s0, t0 := client.server, client.trace;
    err, run := SyncClients(client, o, ctx, org);
    OnlyClientsWritten(o);
    OutcomeKeeps(ClientsAction, ctx, run, err, org, s0, t0, o.View(), client.server, client.trace);
  }

  method RunAction(act: Action, client: ApiClient, o: OriginMemory, ctx: Context)
    returns (err: bool, ghost run: ActionRun)
    requires o.Valid() && Filed(client.server) && Ready(act, o)
    requires act.DnsAction? ==> Sortable(client.server.ReadDns())
    modifies client, o.clients, o.Touchable()
    ensures o.Valid() && Filed(client.server)
    ensures Outcome(act, ctx, run, err, old(o.View()), old(client.server), old(client.trace), o.View(), client.server,
                    client.trace)
  {
    hide Outcome, OriginMemory.View, OriginMemory.Valid, OriginMemory.Touchable, Sortable, Filed;
    ghost var org, s0, t0 := o.View(), client.server, client.trace;
    match act {
      case ServicesAction => err, run := PerformServices(client, o, ctx, org);
      case AccessAction => err, run := PerformAccess(client, o, ctx, org);
      case ClientsAction => err, run := PerformClients(client, o, ctx, org);
      case _ => err, run := PerformQuietly(act, client, o, ctx, org);
    }
    OutcomeKeeps(act, ctx, run, err, org, s0, t0, o.View(), client.server, client.trace);
  }
}
