// The actions that merge lists: rewrites, filters, clients, DHCP.

module ListActions {
  import opened Sorting
  import opened Values
  import opened Server
  import opened Merging
  import opened Plans
  import opened Objects
  import opened Configs
  import opened Api
  import opened Memory
  import opened Outcomes
  import opened Actions

  method SyncRewrites(client: ApiClient, o: OriginMemory, ctx: Context, ghost org: Origin)
    returns (err: bool, ghost run: ActionRun)
    requires o.Valid() && org == o.View() && Filed(client.server)
    modifies client
    ensures Outcome(RewritesAction, ctx, run, err, org, old(client.server), old(client.trace), org, client.server,
                    client.trace)
  {
    hide Filed, Outcome, IsRewriteMerge, OriginMemory.View, OriginMemory.Valid, Executes, Replay;
    o.ViewMeans();
    ghost var s0, t0 := client.server, client.trace;
    var rs;
    ghost var e;
    err, rs, e := client.Get(RewriteList);
    if err {
      run := ReadFails(RewritesAction, ctx, org, s0, t0, e);
      return;
    }
    var a, r, d := MergeRewrites(rs.rewrites, o.rewrites);
    ghost var plan := RewriteSteps(r, a);
    ghost var events;
    err, events := client.DeleteAndAddRewrites(r, a);
    assert IsRewritesPlan(org, s0, plan);
    run := ReadAndDo(RewritesAction, ctx, org, s0, t0, e, plan, events, err, org);
  }

  // ---- Filters ----

  // One of the two filter lists: deletes, adds, updates, and a refresh when something was
  // added or updated.
  method SyncFilterType(client: ApiClient, list: ListId, of: Option<seq<Item>>, rFilters: Option<seq<Item>>,
                        continueOnError: bool, ghost lists: map<Slot, Item>)
    returns (err: bool, ghost plan: seq<Step>, ghost events: seq<Event>)
    requires Listing(OrEmpty(rFilters), Part(lists, list)) && forall k | k in Part(lists, list) ::
               Part(lists, list)[k].Key() == k
    modifies client
    ensures IsFilterPlan(list, OrEmpty(of), lists, continueOnError, plan) && Executes(plan, events, err)
    ensures client.server == Replay(old(client.server), events) && client.trace == old(client.trace) + events
  {
    hide Executes, Listing, SliceAdds, SliceUpdates, Replay, Changes, Steps, Part, IsFilterPlan, OneStep;
    ListingIsIndex(OrEmpty(rFilters), Part(lists, list));
    var fa, fu, fd := MergeFilters(rFilters, of);
    ghost var changes := Steps(Changes(list, fd, fa, fu), continueOnError);
    ghost var refresh := OneStep(|fa| > 0 || |fu| > 0, RefreshFilters(list == AllowLists), false);
    plan := changes + refresh;
    FilterPlanOf(list, OrEmpty(of), lists, continueOnError, fd);
    err, events := client.ApplyDiff(list, fd, fa, fu, continueOnError);
    if err {
      ExecutesStops(changes, events, refresh);
      return;
    }
    ghost var more;
    err, more := client.DoIf(|fa| > 0 || |fu| > 0, RefreshFilters(list == AllowLists), false);
    ReplayThen(old(client.server), events, more);
    ExecutesThen(changes, events, refresh, more, err);
    events := events + more;
  }

  lemma FilterPlanOf(list: ListId, items: seq<Item>, lists: map<Slot, Item>, continueOnError: bool, removes: seq<Item>)
    requires Listing(removes, Removed(Part(lists, list), ByKey(items)))
    ensures var adds, updates := ListAdds(list, items, lists), ListUpdates(list, items, lists);
            IsFilterPlan(list, items, lists, continueOnError,
                         Steps(Changes(list, removes, adds, updates), continueOnError)
                         + OneStep(|adds| > 0 || |updates| > 0, RefreshFilters(list == AllowLists), false))
  {
    hide Listing, Changes, SliceAdds, SliceUpdates, Steps;
    var adds, updates := ListAdds(list, items, lists), ListUpdates(list, items, lists);
    assert IsFilterPlanWith(list, items, lists, continueOnError,
                            Steps(Changes(list, removes, adds, updates), continueOnError)
                            + OneStep(|adds| > 0 || |updates| > 0, RefreshFilters(list == AllowLists), false), removes);
  }

  // Writing enabled and interval dereferences both of the origin's.
  predicate RulesReported(o: Settings, s: Settings)
  {
    Render(o.userRules) == Render(s.userRules) && o.filtering != s.filtering ==>
      o.filtering.enabled.Some? && o.filtering.interval.Some?
  }

  // User rules first; enabled and interval only when the rules agree.
  method SyncRules(client: ApiClient, o: Settings, rf: Settings) returns (err: bool, ghost events: seq<Event>)
    requires RulesReported(o, rf)
    modifies client
    ensures Executes(RuleSteps(o, rf), events, err)
    ensures client.server == Replay(old(client.server), events) && client.trace == old(client.trace) + events
  {
    hide Executes, Replay, Render;
    if Render(o.userRules) != Render(rf.userRules) {
      err, events := client.DoIf(true, SetRules(o.userRules), false);
      return;
    }
    if o.filtering.enabled != rf.filtering.enabled || o.filtering.interval != rf.filtering.interval {
      var sent := FilteringConfig(Some(o.filtering.enabled.value), Some(o.filtering.interval.value));
      err, events := client.DoIf(true, ToggleFiltering(sent), false);
    } else {
      NoEvents([], client.server);
      err, events := false, [];
    }
  }

  lemma {:induction false} SomeListing(m: map<string, Item>) returns (items: seq<Item>)
    requires forall k | k in m :: m[k].Key() == k
    ensures Listing(items, m)
  {
    if m == map[] {
      items := [];
    } else {
      var k :| k in m;
      assert (m - {k}).Keys == m.Keys - {k};
      var rest := SomeListing(m - {k});
      ListingOne(rest, m - {k}, m[k]);
      assert m == (m - {k})[k := m[k]];
      items := rest + [m[k]];
    }
  }

  lemma AnyFilterPlan(list: ListId, items: seq<Item>, lists: map<Slot, Item>, coe: bool) returns (plan: seq<Step>)
    requires forall k | k in Part(lists, list) :: Part(lists, list)[k].Key() == k
    ensures IsFilterPlan(list, items, lists, coe, plan)
  {
    hide Listing, Changes, SliceAdds, SliceUpdates;
    var removes := SomeListing(Removed(Part(lists, list), ByKey(items)));
    var adds, updates := ListAdds(list, items, lists), ListUpdates(list, items, lists);
    plan := Steps(Changes(list, removes, adds, updates), coe)
            + OneStep(|adds| > 0 || |updates| > 0, RefreshFilters(list == AllowLists), false);
    assert IsFilterPlanWith(list, items, lists, coe, plan, removes);
  }

  // Both lists, then the rules; an error of any part ends the action.
  method FilterCalls(client: ApiClient, o: OriginMemory, ctx: Context, ghost org: Origin, rf: Instance,
                     block: Option<seq<Item>>, allow: Option<seq<Item>>)
    returns (err: bool, ghost plan: seq<Step>, ghost events: seq<Event>)
    requires Filed(rf) && client.server == rf && RulesReported(org.settings, rf.settings)
    requires org.filters == OrEmpty(o.filters) && org.allowFilters == OrEmpty(o.allowFilters)
    requires org.settings.userRules == o.settings.userRules && org.settings.filtering == o.settings.filtering
    requires Listing(OrEmpty(block), Part(rf.lists, BlockLists)) && Listing(OrEmpty(allow), Part(rf.lists, AllowLists))
    modifies client
    ensures IsFiltersPlan(ctx, org, rf, plan) && Executes(plan, events, err)
    ensures client.server == Replay(old(client.server), events) && client.trace == old(client.trace) + events
  {
    hide Filed, Executes, Listing, IsFilterPlan, Replay, Render, Part;
    PartIsFiled(rf, BlockLists);
    PartIsFiled(rf, AllowLists);
    ghost var p, q, r, more;
    r := RuleSteps(org.settings, rf.settings);
    err, p, events := SyncFilterType(client, BlockLists, o.filters, block, ctx.continueOnError, rf.lists);
    q := AnyFilterPlan(AllowLists, OrEmpty(o.allowFilters), rf.lists, ctx.continueOnError);
    plan := p + q + r;
    if err {
      ExecutesStops(p, events, q);
      ExecutesStops(p + q, events, r);
      return;
    }
    err, q, more := SyncFilterType(client, AllowLists, o.allowFilters, allow, ctx.continueOnError, rf.lists);
    ReplayThen(old(client.server), events, more);
    ExecutesThen(p, events, q, more, err);
    events := events + more;
    plan := p + q + r;
    if err {
      ExecutesStops(p + q, events, r);
      return;
    }
    err, more := SyncRules(client, o.settings, rf.settings);
    ReplayThen(old(client.server), events, more);
    ExecutesThen(p + q, events, r, more, err);
    events := events + more;
  }

  method SyncFilters(client: ApiClient, o: OriginMemory, ctx: Context, ghost org: Origin)
    returns (err: bool, ghost run: ActionRun)
    requires o.Valid() && org == o.View() && Filed(client.server) && RulesReported(org.settings, client.server.settings)
    modifies client
    ensures Outcome(FiltersAction, ctx, run, err, org, old(client.server), old(client.trace), org, client.server,
                    client.trace)
  {
    hide Filed, Executes, Listing, IsFiltersPlan, Replay, OriginMemory.View, OriginMemory.Valid, RulesReported, Outcome;
    o.ViewMeans();
    ghost var s0, t0 := client.server, client.trace;
    var block, allow, rf;
    ghost var e;
    err, block, allow, rf, e := client.Filters();
    if err {
      run := ReadFails(FiltersAction, ctx, org, s0, t0, e);
      return;
    }
    ghost var plan, events;
    err, plan, events := FilterCalls(client, o, ctx, org, rf, block, allow);
    run := ReadAndDo(FiltersAction, ctx, org, s0, t0, e, plan, events, err, org);
  }

  // ---- Clients ----

  // The calls once the replica's clients rc have been read.
  method ClientCalls(client: ApiClient, rc: seq<PersistentClient>, clients: seq<PersistentClient>, ctx: Context,
                     ghost org: Origin, ghost s0: Instance)
    returns (err: bool, ghost plan: seq<Step>, ghost events: seq<Event>)
    requires Distinct(rc + clients) && Views(clients) == org.clients && AllBelong(ListId.Clients, org.clients)
    requires Filed(s0) && client.server == s0 && Listing(Views(rc), Part(s0.lists, ListId.Clients))
    modifies client, rc, clients
    ensures IsClientsPlan(ctx, org, s0, plan) && Executes(plan, events, err)
    ensures client.server == Replay(old(client.server), events) && client.trace == old(client.trace) + events
    ensures Views(clients) == MergedClients(org.clients, Part(s0.lists, ListId.Clients))
  {
    hide Filed, Executes, Listing, IsClientsPlan, Replay, IsDiff, Views, MergedClients, AllBelong, Distinct, Steps,
         Changes, Part, ByKey;
    PartIsFiled(s0, ListId.Clients);
    ListingIsIndex(Views(rc), Part(s0.lists, ListId.Clients));
    var a, u, r := MergeClients(rc, clients);
    plan := Steps(Changes(ListId.Clients, Views(r), Views(a), Views(u)), ctx.continueOnError);
    ClientsPlanOf(ctx, org, s0, Views(r), Views(a), Views(u));
    err, events := client.ApplyDiff(ListId.Clients, Views(r), Views(a), Views(u), ctx.continueOnError);
  }

  method SyncClients(client: ApiClient, o: OriginMemory, ctx: Context, ghost org: Origin)
    returns (err: bool, ghost run: ActionRun)
    requires o.Valid() && org == o.View() && Filed(client.server) && Distinct(o.clients)
    modifies client, o.clients
    ensures Outcome(ClientsAction, ctx, run, err, org, old(client.server), old(client.trace),
                    org.(clients := Views(o.clients)), client.server, client.trace)
  {
    hide Filed, Executes, Listing, IsClientsPlan, Replay, OriginMemory.View, OriginMemory.Valid, Outcome, Views,
         MergedClients;
    o.ViewMeans();
    ghost var s0, t0 := client.server, client.trace;
    var rc;
    ghost var e;
    err, rc, e := client.Clients();
    if err {
      run := ReadFails(ClientsAction, ctx, org, s0, t0, e);
      return;
    }
    AllDistinct(rc, o.clients);
    assert AllBelong(ListId.Clients, org.List(ListId.Clients));
    ghost var plan, events;
    err, plan, events := ClientCalls(client, rc, o.clients, ctx, org, s0);
    run := ReadAndDo(ClientsAction, ctx, org, s0, t0, e, plan, events, err, org.(clients := Views(o.clients)));
  }

  lemma AllDistinct(decoded: seq<PersistentClient>, older: seq<PersistentClient>)
    requires Distinct(decoded) && Distinct(older) && forall c | c in decoded :: c !in older
    ensures Distinct(decoded + older)
  {
    var all := decoded + older;
    forall i, j | 0 <= i < j < |all| ensures all[i] != all[j] {
      if i < |decoded| <= j { assert decoded[i] in decoded && older[j - |decoded|] in older; }
    }
  }

  lemma ClientsPlanOf(ctx: Context, o: Origin, s: Instance, removes: seq<Item>, adds: seq<Item>, updates: seq<Item>)
    requires IsDiff(Part(s.lists, ListId.Clients), Wanted(o, ListId.Clients), removes, adds, updates)
    ensures IsClientsPlan(ctx, o, s, Steps(Changes(ListId.Clients, removes, adds, updates), ctx.continueOnError))
  {
    hide IsDiff, Changes, Steps;
  }

  // ---- DHCP ----

  // The configuration for the replica is a clone: neither its interface name, nor its
  // enabled flag, nor the cleaning reaches the origin's.
  method CloneFor(dhcp: DhcpStatus, ctx: Context) returns (origClone: DhcpStatus)
    ensures fresh(origClone) && origClone.View() == DhcpFor(dhcp.View(), ctx)
    ensures origClone.staticLeases == dhcp.staticLeases
  {
    origClone := dhcp.Clone();
    if ctx.interfaceName != "" { origClone.interfaceName := Some(ctx.interfaceName); }
    if ctx.dhcpEnabled.Some? { origClone.enabled := ctx.dhcpEnabled; }
  }

  method SyncDhcp(client: ApiClient, o: OriginMemory, ctx: Context, ghost org: Origin)
    returns (err: bool, ghost run: ActionRun)
    requires o.Valid() && org == o.View() && Filed(client.server) && o.dhcp != null
    modifies client
    ensures Outcome(DhcpConfigAction, ctx, run, err, org, old(client.server), old(client.trace), org, client.server,
                    client.trace)
  {
    hide Filed, Executes, Listing, Replay, OriginMemory.View, OriginMemory.Valid, Outcome, Typed, DhcpFor, Dhcp.Cleaned,
         Dhcp.HasConfig, ValidRun;
    o.ViewMeans();
    ghost var s0, t0 := client.server, client.trace;
    if !o.dhcp.HasConfig() {
      NoEvents([], s0);
      run := JustDo(DhcpConfigAction, ctx, org, s0, t0, [], [], false);
      assert t0 + [] == t0;
      return false, run;
    }
    var sc;
    ghost var e;
    err, sc, e := client.DhcpConfig();
    if err {
      run := ReadFails(DhcpConfigAction, ctx, org, s0, t0, e);
      return;
    }
    var origClone := CloneFor(o.dhcp, ctx);
    var eq := sc.CleanAndEquals(origClone);
    err, run := Finish(DhcpConfigAction, ctx, client, org, s0, t0, e, !eq, SetDhcp(origClone.View()), false);
  }

  lemma LeasesPlanOf(ctx: Context, o: Origin, s: Instance, removes: seq<Item>)
    requires Listing(removes, Removed(Part(s.lists, Leases), ByKey(o.LeaseList())))
    ensures IsLeasesPlan(ctx, o, s,
                         Steps(Changes(Leases, removes,
                                       SliceAdds(Part(s.lists, Leases), o.LeaseList(), |o.LeaseList()|), []),
        ctx.continueOnError))
  {
    hide Listing, Changes, Steps, SliceAdds;
    assert Wanted(o, Leases) == ByKey(o.LeaseList());
    assert ListAdds(Leases, o.LeaseList(), s.lists) == SliceAdds(Part(s.lists, Leases), o.LeaseList(), |o.LeaseList()|);
  }

  method SyncLeases(client: ApiClient, o: OriginMemory, ctx: Context, ghost org: Origin)
    returns (err: bool, ghost run: ActionRun)
    requires o.Valid() && org == o.View() && Filed(client.server) && o.dhcp != null
    modifies client
    ensures Outcome(LeasesAction, ctx, run, err, org, old(client.server), old(client.trace), org, client.server,
                    client.trace)
  {
    hide Filed, Executes, Listing, Replay, OriginMemory.View, OriginMemory.Valid, Outcome, Typed, SliceAdds, Changes,
         Steps, IsLeasesPlan, Removed, ByKey, Part;
    o.ViewMeans();
    ghost var s0, t0 := client.server, client.trace;
    var sc;
    ghost var e;
    err, sc, e := client.DhcpConfig();
    if err {
      run := ReadFails(LeasesAction, ctx, org, s0, t0, e);
      return;
    }
    PartIsFiled(s0, Leases);
    ListingIsIndex(OrEmpty(sc.staticLeases), Part(s0.lists, Leases));
    var a, r := MergeDhcpStaticLeases(sc.staticLeases, o.dhcp.staticLeases);
    ghost var plan := Steps(Changes(Leases, r, a, []), ctx.continueOnError);
    LeasesPlanOf(ctx, org, s0, r);
    ghost var events;
    err, events := client.ApplyDiff(Leases, r, a, [], ctx.continueOnError);
    run := ReadAndDo(LeasesAction, ctx, org, s0, t0, e, plan, events, err, org);
  }
}
