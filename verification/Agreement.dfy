// What an error-free action makes replica and origin agree on.

module Agreement {
  import opened Sorting
  import opened Values
  import opened Server
  import opened Merging
  import opened Plans
  import opened NeverStale
  import opened Evolution
  import opened Convergence
  import opened Repeats

  // ---- Agreement ----

  ghost predicate DhcpAgrees(ctx: Context, o: Dhcp, s: Dhcp)
  {
    o.HasConfig() ==> s.Cleaned().(leases := "") == DhcpFor(o, ctx).Cleaned().(leases := "")
  }

  // What one execution brings about for filters, when the replica was like "was" before:
  // URLs and names agree, and so do the enabled flags of the filters that were there (an
  // added filter comes up with a flag of the server's choice); the rules agree as text,
  // and enabled and interval too if the rules did before.
  ghost predicate FiltersSettled(o: Origin, was: Instance, s: Instance)
  {
    && (forall slot: Slot | slot.list == BlockLists || slot.list == AllowLists ::
          SlotSettled(o, was.lists, s.lists, slot))
    && RulesSettled(o.settings, was.settings, s.settings)
  }

  ghost predicate SlotSettled(o: Origin, was: map<Slot, Item>, lists: map<Slot, Item>, slot: Slot)
  {
    NearlyAgrees(o, lists, slot) && (slot in was ==> !Differs(o, lists, slot))
  }

  ghost predicate RulesSettled(o: Settings, was: Settings, s: Settings)
  {
    && Render(o.userRules) == Render(s.userRules)
    && (Render(o.userRules) == Render(was.userRules) ==> o.filtering == s.filtering)
  }

  // What an action has to bring about on a replica that was like "was" before: for most
  // actions agreement under their own comparison; for filters see above; for services
  // agreement up to the order of the ids, because they are written sorted; for DHCP
  // agreement but for the leases.
  ghost predicate Agrees(act: Action, ctx: Context, o: Origin, was: Instance, s: Instance)
  {
    var a, b := o.settings, s.settings;
    match act
    case ProfileAction => ShouldSyncFor(b.profile, a.profile, ctx.theme) == None
    case ProtectionAction => b.protection == a.protection
    case ParentalAction => b.parental == a.parental
    case SafeSearchAction => SafeSearchEq(a.safeSearch, b.safeSearch)
    case SafeBrowsingAction => b.safeBrowsing == a.safeBrowsing
    case DnsAction => DnsEq(s.ReadDns(), a.dns)
    case QueryLogAction => b.queryLog == a.queryLog
    case StatsAction => b.stats == a.stats
    case RewritesAction => KeyBag(s.rewrites) == KeyOnce(o.rewrites)
    case FiltersAction => FiltersSettled(o, was, s)
    case ServicesAction => ServicesLike(a.services, b.services)
    case ClientsAction => ListAgrees(Clients, o, s.lists)
    case AccessAction => AccessEq(b.access, a.access)
    case DhcpConfigAction => DhcpAgrees(ctx, a.dhcp, b.dhcp)
    case LeasesAction => ListAgrees(Leases, o, s.lists)
    case TlsAction => b.tls == a.tls
  }

  // When one error-free execution suffices: no filter URL repeated in a list, no client
  // with both a day and a time zone, the replica's protection as its status said, and a
  // DNS configuration that reports its protection flag, as every server's does.
  ghost predicate Attainable(act: Action, ctx: Context, o: Origin, s: Instance)
  {
    match act
    case ProtectionAction => ctx.replicaProtection == s.settings.protection
    case DnsAction => o.settings.dns.protection.Some?
    case ClientsAction => NonLossy(o)
    case FiltersAction => CleanFor(FiltersAction, o)
    case _ => true
  }

  // The actions that make at most one call, in three groups.
  predicate General(act: Action)
  {
    || act.ProfileAction? || act.ProtectionAction? || act.ParentalAction?
    || act.SafeSearchAction? || act.SafeBrowsingAction?
  }

  predicate Configuring(act: Action)
  {
    act.DnsAction? || act.QueryLogAction? || act.StatsAction? || act.TlsAction?
  }

  predicate Reordering(act: Action)
  {
    act.ServicesAction? || act.AccessAction?
  }

  lemma OneCall(s: Instance, plan: seq<Step>, events: seq<Event>)
    requires |plan| <= 1 && Executes(plan, events, false) && AllOk(events)
    ensures plan == [] ==> Replay(s, events) == s
    ensures plan != [] ==> Replay(s, events).settings == Configured(s.settings, plan[0].call)
  {
    if |plan| == 1 {
      assert events == [] + [events[0]];
      ReplayOne(s, [], events[0]);
    }
  }

  lemma GeneralAgree(ctx: Context, act: Action, o: Origin, s: Instance, plan: seq<Step>, events: seq<Event>)
    requires General(act) && Attainable(act, ctx, o, s)
    requires IsPlan(act, ctx, o, s, plan) && Executes(plan, events, false) && AllOk(events)
    ensures Agrees(act, ctx, o, s, Replay(s, events))
  {
    OneCall(s, plan, events);
    hide Replay, Executes, AllOk;
  }

  lemma ConfigAgree(ctx: Context, act: Action, o: Origin, s: Instance, plan: seq<Step>, events: seq<Event>)
    requires Configuring(act) && Attainable(act, ctx, o, s)
    requires IsPlan(act, ctx, o, s, plan) && Executes(plan, events, false) && AllOk(events)
    ensures Agrees(act, ctx, o, s, Replay(s, events))
  {
    hide Replay, Executes, AllOk, SortDns, Same;
    OneCall(s, plan, events);
  }

  lemma ServicesAgree(ctx: Context, o: Origin, s: Instance, plan: seq<Step>, events: seq<Event>)
    requires IsPlan(ServicesAction, ctx, o, s, plan) && Executes(plan, events, false) && AllOk(events)
    ensures ServicesLike(o.settings.services, Replay(s, events).settings.services)
  {
    OneCall(s, plan, events);
    SortedServicesLike(o.settings.services);
    hide Replay, Executes, AllOk, LoggedServices, ListEq;
  }

  lemma AccessAgree(ctx: Context, o: Origin, s: Instance, plan: seq<Step>, events: seq<Event>)
    requires IsPlan(AccessAction, ctx, o, s, plan) && Executes(plan, events, false) && AllOk(events)
    ensures AccessEq(Replay(s, events).settings.access, o.settings.access)
  {
    OneCall(s, plan, events);
    AccessTouchedEq(o.settings.access, s.settings.access);
    hide Replay, Executes, AllOk, AccessTouched, AccessEq;
  }

  lemma ReorderingAgree(ctx: Context, act: Action, o: Origin, s: Instance, plan: seq<Step>, events: seq<Event>)
    requires Reordering(act)
    requires IsPlan(act, ctx, o, s, plan) && Executes(plan, events, false) && AllOk(events)
    ensures Agrees(act, ctx, o, s, Replay(s, events))
  {
    hide IsPlan, Replay, Executes, AllOk, AccessEq, ServicesLike;
    if act.AccessAction? { AccessAgree(ctx, o, s, plan, events); } else { ServicesAgree(ctx, o, s, plan, events); }
  }

  lemma DhcpPlanAgrees(ctx: Context, o: Origin, s: Instance, plan: seq<Step>, events: seq<Event>)
    requires IsDhcpPlan(o, s, ctx, plan) && Executes(plan, events, false) && AllOk(events)
    ensures DhcpAgrees(ctx, o.settings.dhcp, Replay(s, events).settings.dhcp)
  {
    OneCall(s, plan, events);
    hide Replay, Executes, AllOk, Listing;
  }

  lemma FiltersSettle(ctx: Context, run: ActionRun)
    requires ValidRun(ctx, run) && run.act.FiltersAction? && AllOk(run.events) && CleanFor(FiltersAction, run.o0)
    ensures FiltersSettled(run.o0, run.s0, run.s1)
  {
    hide NearlyAgrees, Differs, Render, Wants, AllOk, CleanFor;
    forall slot: Slot | slot.list == BlockLists || slot.list == AllowLists
      ensures SlotSettled(run.o0, run.s0.lists, run.s1.lists, slot)
    {
      FilterRound(ctx, run, slot);
    }
    RulesRound(ctx, run);
  }

  // An error-free execution of an action attains its agreement.
  lemma ActionAgrees(ctx: Context, run: ActionRun)
    requires ValidRun(ctx, run) && AllOk(run.events) && Attainable(run.act, ctx, run.o0, run.s0)
    ensures Agrees(run.act, ctx, run.o0, run.s0, run.s1)
  {
    hide FiltersSettled, DhcpAgrees, ListAgrees;
    if run.act.RewritesAction? {
      RewritesConverge(ctx, run);
    } else if run.act.FiltersAction? {
      FiltersSettle(ctx, run);
    } else if run.act.ClientsAction? {
      ClientsAgree(ctx, run);
    } else if run.act.LeasesAction? {
      LeasesConverge(ctx, run);
    } else {
      hide AllOk;
      SmallActionAgrees(ctx, run);
    }
  }

  lemma ClientsAgree(ctx: Context, run: ActionRun)
    requires ValidRun(ctx, run) && AllOk(run.events) && run.act.ClientsAction? && NonLossy(run.o0)
    ensures ListAgrees(Clients, run.o0, run.s1.lists)
  {
    ClientsConverge(ctx, run);
    forall slot ensures !SpoiledUpdate(run.o0, run.s0.lists, slot) {
      if Wants(run.o0, slot) { WantBelongs(run.o0, slot); }
    }
  }

  lemma SmallActionAgrees(ctx: Context, run: ActionRun)
    requires ValidRun(ctx, run) && AllOk(run.events) && Attainable(run.act, ctx, run.o0, run.s0)
    requires General(run.act) || Configuring(run.act) || Reordering(run.act) || run.act.DhcpConfigAction?
    ensures Agrees(run.act, ctx, run.o0, run.s0, run.s1)
  {
    ErrorFree(ctx, run);
    hide ValidRun, AllOk, Executes, Replay, Attainable;
    if run.act.DhcpConfigAction? {
      DhcpPlanAgrees(ctx, run.o0, run.s0, run.plan, AfterTheRead(run));
    } else {
      OneCallAgrees(ctx, run.act, run.o0, run.s0, run.plan, AfterTheRead(run));
    }
  }

  lemma OneCallAgrees(ctx: Context, act: Action, o: Origin, s: Instance, plan: seq<Step>, events: seq<Event>)
    requires General(act) || Configuring(act) || Reordering(act)
    requires Attainable(act, ctx, o, s)
    requires IsPlan(act, ctx, o, s, plan) && Executes(plan, events, false) && AllOk(events)
    ensures Agrees(act, ctx, o, s, Replay(s, events))
  {
    hide Agrees, IsPlan, Executes, AllOk, Replay;
    if General(act) {
      GeneralAgree(ctx, act, o, s, plan, events);
    } else if Configuring(act) {
      ConfigAgree(ctx, act, o, s, plan, events);
    } else {
      ReorderingAgree(ctx, act, o, s, plan, events);
    }
  }
}
