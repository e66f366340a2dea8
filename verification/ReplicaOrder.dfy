// Several replicas share the origin's configuration in memory, and comparing sorts it in
// place. The order in which they are synchronized still does not matter.

module ReplicaOrder {
  import opened Sorting
  import opened Values
  import opened Server
  import opened Merging
  import opened Plans
  import opened Evolution
  import opened Convergence
  import opened Ownership
  import opened Agreement
  import opened Syncing
  import opened Success
  import opened MapOrder

  // ---- The same replica up to order ----

  ghost predicate ListsAlike(a: map<Slot, Item>, b: map<Slot, Item>)
  {
    a.Keys == b.Keys && forall slot | slot in a :: Resorted(a[slot], b[slot])
  }

  // Equal settings up to the order of access lists and services, and up to invalid DHCP
  // sections, which every comparison ignores.
  ghost predicate ConfigAlike(a: Settings, b: Settings)
  {
    a.dhcp.Cleaned() == b.dhcp.Cleaned() && SettingsLike(a.(dhcp := b.dhcp), b)
  }

  ghost predicate Alike(a: Instance, b: Instance)
  {
    && a.version == b.version && ConfigAlike(a.settings, b.settings)
    && KeyBag(a.rewrites) == KeyBag(b.rewrites) && ListsAlike(a.lists, b.lists)
  }

  lemma AlikeReflexive(a: Instance)
    ensures Alike(a, a)
  {}

  // ---- One action on two such replicas ----

  // Two error-free executions of the same action, against the same origin up to order,
  // on the same replica up to order, with the same flags given to added filters.
  ghost predicate Twins(ctx: Context, a: ActionRun, b: ActionRun, flags: Slot -> bool)
  {
    && a.act == b.act && ValidRun(ctx, a) && ValidRun(ctx, b) && AllOk(a.events) && AllOk(b.events)
    && GivenBy(flags, a.events) && GivenBy(flags, b.events)
    && OriginLike(a.o0, b.o0) && (a.act.ClientsAction? ==> NonLossy(a.o0))
    && Alike(a.s0, b.s0)
  }

  lemma DiffersAlike(o: Origin, o': Origin, a: map<Slot, Item>, b: map<Slot, Item>, slot: Slot)
    requires OriginLike(o, o') && ListsAlike(a, b)
    ensures Differs(o, a, slot) == Differs(o', b, slot)
  {
    LikeOriginsWant(o, o');
    if slot in a { ResortedMeansSame(a[slot], b[slot]); }
    if Wants(o, slot) { ResortedMeansSame(Want(o, slot), Want(o', slot)); }
    hide Wants, Want;
    if slot in a && Wants(o, slot) {
      SameThroughLike(Want(o, slot), Want(o', slot));
      SameLeft(a[slot], b[slot], Want(o', slot));
    }
  }

  lemma SameLeft(a: Item, b: Item, c: Item)
    requires Resorted(a, b) && Same(a, b) && a.Key() == b.Key()
    ensures Same(a, c) <==> Same(b, c)
  {}

  lemma SentAlike(a: Item, b: Item, given: bool)
    requires Resorted(a, b) && !Lossy(a) && !Lossy(b)
    ensures Resorted(Sent(a), Sent(b)) && Resorted(Stored(a, given), Stored(b, given))
  {
    if a.Client? && b.Client? {
      ComparingSpoilsExactlyLossy(a);
      ComparingSpoilsExactlyLossy(b);
    }
  }

  lemma SlotAlike(ctx: Context, a: ActionRun, b: ActionRun, flags: Slot -> bool, slot: Slot)
    requires Twins(ctx, a, b, flags)
    ensures slot in a.s1.lists <==> slot in b.s1.lists
    ensures slot in a.s1.lists ==> Resorted(a.s1.lists[slot], b.s1.lists[slot])
  {
    hide AllOk, GivenBy, ConfigAlike, NonLossy, Resorted, Reached, ValidRun;
    if !WorksOn(a.act, slot.list) {
      ListsNotWorkedOn(ctx, a, slot);
      ListsNotWorkedOn(ctx, b, slot);
    } else if a.act.ClientsAction? {
      ClientSlotAlike(ctx, a, b, flags, slot);
    } else {
      SlicePartsAlike(ctx, a, b, flags, slot.list);
      SliceListsAgree(ctx, a, b, flags, slot);
      ItselfResorted(a.s1.lists, b.s1.lists, slot);
    }
  }

  lemma ItselfResorted(a: map<Slot, Item>, b: map<Slot, Item>, slot: Slot)
    requires SameAt(a, b, slot)
    ensures slot in a <==> slot in b
    ensures slot in a ==> Resorted(a[slot], b[slot])
  {}

  // Entries other than clients are the same on alike replicas.
  lemma SlicePartsAlike(ctx: Context, a: ActionRun, b: ActionRun, flags: Slot -> bool, list: ListId)
    requires Twins(ctx, a, b, flags) && list != Clients
    ensures Part(a.s0.lists, list) == Part(b.s0.lists, list)
  {
    hide AllOk, GivenBy, NonLossy, OriginLike, ConfigAlike, IsPlan, Executes, Replay, OriginAfter;
    assert Filed(a.s0) && ListsAlike(a.s0.lists, b.s0.lists);
    hide ValidRun;
    AlikePartsAreSame(a.s0, b.s0, list);
  }

  lemma AlikePartsAreSame(a: Instance, b: Instance, list: ListId)
    requires Filed(a) && ListsAlike(a.lists, b.lists) && list != Clients
    ensures Part(a.lists, list) == Part(b.lists, list)
  {
    forall k | k in Part(a.lists, list) ensures Part(a.lists, list)[k] == Part(b.lists, list)[k] {
      assert Belongs(list, a.lists[Slot(list, k)]);
    }
  }

  lemma ClientSlotAlike(ctx: Context, a: ActionRun, b: ActionRun, flags: Slot -> bool, slot: Slot)
    requires Twins(ctx, a, b, flags) && a.act.ClientsAction? && slot.list == Clients
    ensures slot in a.s1.lists <==> slot in b.s1.lists
    ensures slot in a.s1.lists ==> Resorted(a.s1.lists[slot], b.s1.lists[slot])
  {
    var ga := ListRound(ctx, a, slot);
    var gb := ListRound(ctx, b, slot);
    DiffersAlike(a.o0, b.o0, a.s0.lists, b.s0.lists, slot);
    LikeOriginsWant(a.o0, b.o0);
    NonLossyLike(a.o0, b.o0);
    if Wants(a.o0, slot) {
      WantBelongs(a.o0, slot);
      WantBelongs(b.o0, slot);
      SentAlike(Want(a.o0, slot), Want(b.o0, slot), flags(slot));
    }
    ReachedAlike(a.o0, b.o0, a.s0.lists, a.s1.lists, b.s0.lists, b.s1.lists, slot, ga, gb, flags(slot));
  }

  lemma ReachedAlike(o: Origin, o': Origin, a0: map<Slot, Item>, a1: map<Slot, Item>, b0: map<Slot, Item>, b1: map<Slot,
                     Item>, slot: Slot, ga: bool, gb: bool, given: bool)
    requires Reached(o, a0, a1, slot, ga) && Reached(o', b0, b1, slot, gb)
    requires Differs(o, a0, slot) == Differs(o', b0, slot) && ListsAlike(a0, b0)
    requires Differs(o, a0, slot) ==> ga == given && gb == given
    requires Wants(o, slot) <==> Wants(o', slot)
    requires Wants(o, slot) ==>
      && Resorted(Sent(Want(o, slot)), Sent(Want(o', slot)))
      && Resorted(Stored(Want(o, slot), given), Stored(Want(o', slot), given))
    ensures slot in a1 <==> slot in b1
    ensures slot in a1 ==> Resorted(a1[slot], b1[slot])
  {
    hide Differs, Want, Wants, Sent, Stored, Resorted;
  }

  lemma ListsNotWorkedOn(ctx: Context, run: ActionRun, slot: Slot)
    requires ValidRun(ctx, run) && !WorksOn(run.act, slot.list)
    ensures SameAt(run.s0.lists, run.s1.lists, slot)
  {
    var owner := match slot.list
      case BlockLists => FiltersAction case AllowLists => FiltersAction
      case Clients => ClientsAction case Leases => LeasesAction;
    OnlyTheOwnerChanges(ctx, run, owner);
  }

  lemma RewritesAlike(ctx: Context, a: ActionRun, b: ActionRun, flags: Slot -> bool)
    requires Twins(ctx, a, b, flags)
    ensures KeyBag(a.s1.rewrites) == KeyBag(b.s1.rewrites)
  {
    if a.act.RewritesAction? {
      RewritesConverge(ctx, a);
      RewritesConverge(ctx, b);
    } else {
      OnlyTheOwnerChanges(ctx, a, RewritesAction);
      OnlyTheOwnerChanges(ctx, b, RewritesAction);
    }
  }

  lemma SettingsOfListActions(ctx: Context, run: ActionRun)
    requires ValidRun(ctx, run) && (run.act.RewritesAction? || run.act.ClientsAction? || run.act.LeasesAction?)
    ensures run.s1.settings == run.s0.settings
  {
    RunOwnsItsCalls(ctx, run);
    OwnedCallsLeaveSettings(run.act, run.s0, run.events);
  }

  lemma OwnedCallsLeaveSettings(act: Action, s: Instance, events: seq<Event>)
    requires act.RewritesAction? || act.ClientsAction? || act.LeasesAction?
    requires forall i | 0 <= i < |events| :: events[i].call.Get? || Owns(act, events[i].call)
    ensures Replay(s, events).settings == s.settings
  {
    hide Replay;
    SettingsLeft(s, events);
  }

  // The settings after an error-free execution of an action that makes at most one call.
  ghost predicate OneCallMade(ctx: Context, run: ActionRun)
  {
    && IsPlan(run.act, ctx, run.o0, run.s0, run.plan) && |run.plan| <= 1
    && run.s1.settings == (if run.plan == [] then run.s0.settings else Configured(run.s0.settings, run.plan[0].call))
  }

  lemma OneCallRun(ctx: Context, run: ActionRun)
    requires ValidRun(ctx, run) && AllOk(run.events)
    requires General(run.act) || Configuring(run.act) || Reordering(run.act) || run.act.DhcpConfigAction?
    ensures OneCallMade(ctx, run)
  {
    ErrorFree(ctx, run);
    AtMostOne(ctx, run.act, run.o0, run.s0, run.plan);
    hide ValidRun, IsPlan;
    OneCall(run.s0, run.plan, AfterTheRead(run));
  }

  lemma AtMostOne(ctx: Context, act: Action, o: Origin, s: Instance, plan: seq<Step>)
    requires IsPlan(act, ctx, o, s, plan)
    requires General(act) || Configuring(act) || Reordering(act) || act.DhcpConfigAction?
    ensures |plan| <= 1
  {
    hide Listing;
  }

  ghost predicate TwinInputs(a: ActionRun, b: ActionRun)
  {
    a.act == b.act && OriginLike(a.o0, b.o0) && Alike(a.s0, b.s0)
  }

  // The call an action makes, if its one call depends on nothing but settings.
  function CallFor(act: Action, ctx: Context, o: Settings, s: Settings): Option<Call>
  {
    match act
    case ProfileAction =>
      (match ShouldSyncFor(s.profile, o.profile, ctx.theme) case Some(p) => Some(SetProfile(p)) case None => None)
    case ProtectionAction => When(o.protection != ctx.replicaProtection, ToggleProtection(o.protection))
    case ParentalAction => When(o.parental != s.parental, ToggleParental(o.parental))
    case SafeSearchAction => When(!SafeSearchEq(o.safeSearch, s.safeSearch), SetSafeSearch(o.safeSearch))
    case SafeBrowsingAction => When(o.safeBrowsing != s.safeBrowsing, ToggleSafeBrowsing(o.safeBrowsing))
    case DnsAction => When(!DnsEq(s.dns.(protection := Some(s.protection)), o.dns), SetDns(o.dns))
    case QueryLogAction => When(o.queryLog != s.queryLog, SetQueryLog(o.queryLog))
    case StatsAction => When(s.stats != o.stats, SetStats(o.stats))
    case TlsAction => When(s.tls != o.tls, SetTls(o.tls))
    case ServicesAction => When(o.services != s.services, SetServices(LoggedServices(o.services)))
    case _ => None
  }

  function When(needed: bool, call: Call): Option<Call> { if needed then Some(call) else None }

  // The settings left by that call.
  function Result(s: Settings, call: Option<Call>): Settings
  {
    if call.Some? then Configured(s, call.value) else s
  }

  lemma ResultOf(ctx: Context, run: ActionRun)
    requires OneCallMade(ctx, run) && (General(run.act) || Configuring(run.act) || run.act.ServicesAction?)
    ensures run.s1.settings == Result(run.s0.settings, CallFor(run.act, ctx, run.o0.settings, run.s0.settings))
  {
    hide Configured;
    PlannedCall(ctx, run.act, run.o0, run.s0, run.plan);
    hide IsPlan, CallFor;
  }

  lemma PlannedCall(ctx: Context, act: Action, o: Origin, s: Instance, plan: seq<Step>)
    requires IsPlan(act, ctx, o, s, plan) && (General(act) || Configuring(act) || act.ServicesAction?)
    ensures var call := CallFor(act, ctx, o.settings, s.settings);
            if call.Some? then |plan| == 1 && plan[0].call == call.value else plan == []
  {
    hide DnsEq, SafeSearchEq, ShouldSyncFor, LoggedServices;
  }

  lemma SameCall(act: Action, ctx: Context, o: Settings, o': Settings, s: Settings, s': Settings)
    requires SettingsLike(o, o') && ConfigAlike(s, s') && (General(act) || Configuring(act))
    ensures CallFor(act, ctx, o, s) == CallFor(act, ctx, o', s')
  {
    hide AccessEq, ServicesLike, DnsEq, SafeSearchEq, ShouldSyncFor, Dhcp.Cleaned;
  }

  lemma SameCallAlike(s: Settings, s': Settings, call: Call)
    requires ConfigAlike(s, s') && !call.SetServices? && !call.SetAccess? && !call.SetDhcp?
    ensures ConfigAlike(Configured(s, call), Configured(s', call))
  {
    hide AccessEq, ServicesLike, Dhcp.Cleaned;
  }

  lemma CallKind(act: Action, ctx: Context, o: Settings, s: Settings)
    requires General(act) || Configuring(act)
    ensures var call := CallFor(act, ctx, o, s);
            call.Some? ==> !call.value.SetServices? && !call.value.SetAccess? && !call.value.SetDhcp?
  {
    hide DnsEq, SafeSearchEq, ShouldSyncFor;
  }

  lemma ConfigActionsAlike(ctx: Context, a: ActionRun, b: ActionRun)
    requires TwinInputs(a, b) && OneCallMade(ctx, a) && OneCallMade(ctx, b) && (General(a.act) || Configuring(a.act))
    ensures ConfigAlike(a.s1.settings, b.s1.settings)
  {
    hide OneCallMade, ConfigAlike, SettingsLike, CallFor, ListsAlike, ListsLike, KeyBag, Configured;
    ResultOf(ctx, a);
    ResultOf(ctx, b);
    SameCall(a.act, ctx, a.o0.settings, b.o0.settings, a.s0.settings, b.s0.settings);
    CallKind(a.act, ctx, a.o0.settings, a.s0.settings);
    var call := CallFor(a.act, ctx, a.o0.settings, a.s0.settings);
    if call.Some? { SameCallAlike(a.s0.settings, b.s0.settings, call.value); }
  }

  lemma AccessAlike(ctx: Context, a: ActionRun, b: ActionRun)
    requires TwinInputs(a, b) && OneCallMade(ctx, a) && OneCallMade(ctx, b) && a.act.AccessAction?
    ensures ConfigAlike(a.s1.settings, b.s1.settings)
  {
    hide KeyBag, ListsAlike, ListsLike, AccessTouched, ServicesLike, ListEq;
    AccessTouchedEq(a.o0.settings.access, a.s0.settings.access);
    AccessTouchedEq(b.o0.settings.access, b.s0.settings.access);
    AccessEqEquivalence(a.o0.settings.access, b.o0.settings.access);
    AccessEqEquivalence(a.s0.settings.access, b.s0.settings.access);
    AccessEqEquivalence(a.o0.settings.access, AccessTouched(a.o0.settings.access, a.s0.settings.access));
    AccessEqEquivalence(b.o0.settings.access, AccessTouched(b.o0.settings.access, b.s0.settings.access));
    hide AccessEq;
  }

  // Equality up to order can be replaced on either side.
  lemma AccessEqEquivalence(a: Access, b: Access)
    ensures AccessEq(a, a) && (AccessEq(a, b) <==> AccessEq(b, a))
    ensures AccessEq(a, b) ==> forall c :: AccessEq(a, c) <==> AccessEq(b, c)
    ensures AccessEq(a, b) ==> forall c :: AccessEq(c, a) <==> AccessEq(c, b)
  {}

  lemma ServicesAlike(ctx: Context, a: ActionRun, b: ActionRun)
    requires TwinInputs(a, b) && OneCallMade(ctx, a) && OneCallMade(ctx, b) && a.act.ServicesAction?
    ensures ConfigAlike(a.s1.settings, b.s1.settings)
  {
    hide OneCallMade, ConfigAlike, SettingsLike, ListsAlike, ListsLike, KeyBag, LoggedServices, Configured, Result;
    ResultOf(ctx, a);
    ResultOf(ctx, b);
    ServicesResult(ctx, a.o0.settings, a.s0.settings);
    ServicesResult(ctx, b.o0.settings, b.s0.settings);
    ServicesResultsAlike(a.o0.settings, b.o0.settings, a.s0.settings, b.s0.settings, a.s1.settings, b.s1.settings);
  }

  // The services end up like the origin's, and nothing else changes.
  lemma ServicesResult(ctx: Context, o: Settings, s: Settings)
    ensures var s1 := Result(s, CallFor(ServicesAction, ctx, o, s));
            s1 == s.(services := s1.services) && ServicesLike(s1.services, o.services)
  {
    ServicesLikeEverywhere(o.services, o.services);
    hide LoggedServices;
  }

  lemma ServicesResultsAlike(o: Settings, o': Settings, s: Settings, s': Settings, s1: Settings, s1': Settings)
    requires SettingsLike(o, o') && ConfigAlike(s, s')
    requires s1 == s.(services := s1.services) && ServicesLike(s1.services, o.services)
    requires s1' == s'.(services := s1'.services) && ServicesLike(s1'.services, o'.services)
    ensures ConfigAlike(s1, s1')
  {
    hide AccessEq, ServicesLike, Dhcp.Cleaned;
    ServicesLikeEverywhere(o.services, o'.services);
    ServicesLikeEverywhere(s1'.services, o'.services);
  }

  // What is alike can be replaced on either side.
  lemma ServicesLikeEverywhere(a: Services, b: Services)
    ensures ServicesLike(LoggedServices(a), a)
    ensures ServicesLike(a, b) ==> forall c :: ServicesLike(c, a) <==> ServicesLike(c, b)
  {
    SortedServicesLike(a);
  }

  lemma DhcpCall(ctx: Context, o: Origin, s: Instance, plan: seq<Step>)
    requires IsDhcpPlan(o, s, ctx, plan) && o.settings.dhcp.HasConfig()
    ensures var target := DhcpFor(o.settings.dhcp, ctx).Cleaned();
            if plan == [] then s.settings.dhcp.Cleaned() == target else |plan| == 1 && plan[0].call == SetDhcp(target)
  {
    hide Listing, Dhcp.Cleaned, Dhcp.HasConfig, DhcpFor;
  }

  lemma DhcpResult(ctx: Context, run: ActionRun)
    requires OneCallMade(ctx, run) && run.act.DhcpConfigAction?
    ensures var o, s, s1 := run.o0.settings.dhcp, run.s0.settings, run.s1.settings;
            s1 == s.(dhcp := s1.dhcp)
            && s1.dhcp.Cleaned() ==
               if o.HasConfig() then DhcpFor(o, ctx).Cleaned().(leases := s.dhcp.leases) else s.dhcp.Cleaned()
  {
    hide Listing, Dhcp.Cleaned, Dhcp.HasConfig, DhcpFor;
    var o := run.o0.settings.dhcp;
    CleanedTwice(DhcpFor(o, ctx), run.s0.settings.dhcp);
    assert IsDhcpPlan(run.o0, run.s0, ctx, run.plan);
    if o.HasConfig() {
      DhcpCall(ctx, run.o0, run.s0, run.plan);
      hide IsPlan, IsDhcpPlan;
    } else {
      hide IsPlan;
    }
  }

  lemma CleanedTwice(d: Dhcp, s: Dhcp)
    ensures d.Cleaned().(leases := s.leases).Cleaned() == d.Cleaned().(leases := s.leases)
    ensures s.Cleaned().leases == s.leases
  {}

  lemma DhcpAlike(ctx: Context, a: ActionRun, b: ActionRun)
    requires TwinInputs(a, b) && OneCallMade(ctx, a) && OneCallMade(ctx, b) && a.act.DhcpConfigAction?
    ensures ConfigAlike(a.s1.settings, b.s1.settings)
  {
    DhcpResult(ctx, a);
    DhcpResult(ctx, b);
    CleanedTwice(a.s0.settings.dhcp, a.s0.settings.dhcp);
    CleanedTwice(b.s0.settings.dhcp, b.s0.settings.dhcp);
    hide OneCallMade, KeyBag, ListsAlike, ListsLike, AccessEq, ServicesLike, DhcpFor, Dhcp.Cleaned, Dhcp.HasConfig;
  }

  lemma ConfigStaysAlike(ctx: Context, a: ActionRun, b: ActionRun, flags: Slot -> bool)
    requires Twins(ctx, a, b, flags)
    ensures ConfigAlike(a.s1.settings, b.s1.settings)
  {
    hide ValidRun, AllOk, GivenBy, NonLossy, OneCallMade, ConfigAlike;
    assert TwinInputs(a, b);
    if a.act.RewritesAction? || a.act.ClientsAction? || a.act.LeasesAction? {
      SettingsOfListActions(ctx, a);
      SettingsOfListActions(ctx, b);
    } else if a.act.FiltersAction? {
      RulesRound(ctx, a);
      RulesRound(ctx, b);
      RulesAlike(a, b);
    } else {
      OneCallRun(ctx, a);
      OneCallRun(ctx, b);
      OneCallAlike(ctx, a, b);
    }
  }

  lemma RulesAlike(a: ActionRun, b: ActionRun)
    requires TwinInputs(a, b)
    ensures ConfigAlike(RulesApplied(a.o0.settings, a.s0.settings), RulesApplied(b.o0.settings, b.s0.settings))
  {
    hide KeyBag, ListsAlike, ListsLike, AccessEq, ServicesLike;
  }

  lemma OneCallAlike(ctx: Context, a: ActionRun, b: ActionRun)
    requires TwinInputs(a, b) && OneCallMade(ctx, a) && OneCallMade(ctx, b)
    requires General(a.act) || Configuring(a.act) || Reordering(a.act) || a.act.DhcpConfigAction?
    ensures ConfigAlike(a.s1.settings, b.s1.settings)
  {
    hide TwinInputs, OneCallMade, ConfigAlike;
    if General(a.act) || Configuring(a.act) {
      ConfigActionsAlike(ctx, a, b);
    } else if a.act.AccessAction? {
      AccessAlike(ctx, a, b);
    } else if a.act.ServicesAction? {
      ServicesAlike(ctx, a, b);
    } else {
      DhcpAlike(ctx, a, b);
    }
  }

  // The same action leads alike replicas to alike replicas.
  lemma ActionAlike(ctx: Context, a: ActionRun, b: ActionRun, flags: Slot -> bool)
    requires Twins(ctx, a, b, flags)
    ensures Alike(a.s1, b.s1)
  {
    hide AllOk, GivenBy, ConfigAlike, KeyBag, OriginLike, NonLossy, Resorted;
    RewritesAlike(ctx, a, b, flags);
    ConfigStaysAlike(ctx, a, b, flags);
    VersionStays(ctx, a);
    VersionStays(ctx, b);
    forall slot
      ensures slot in a.s1.lists <==> slot in b.s1.lists
      ensures slot in a.s1.lists ==> Resorted(a.s1.lists[slot], b.s1.lists[slot])
    {
      SlotAlike(ctx, a, b, flags, slot);
    }
  }

  lemma VersionStays(ctx: Context, run: ActionRun)
    requires ValidRun(ctx, run)
    ensures run.s1.version == run.s0.version
  {
    VersionKept(run.s0, run.events);
  }

  lemma {:induction false} VersionKept(s: Instance, events: seq<Event>)
    ensures Replay(s, events).version == s.version
  {
    if events != [] { VersionKept(s, events[..|events| - 1]); }
  }

  // ---- Whole runs ----

  lemma OriginsAlike(o: Origin, a: Origin, b: Origin)
    requires OriginLike(o, a) && OriginLike(o, b)
    ensures OriginLike(a, b)
  {
    OriginLikeSymmetric(o, a);
    OriginLikeTransitive(a, o, b);
  }

  // Every call of the executed actions succeeded, and added filters came up as flags says.
  ghost predicate ErrorFreeSync(run: SyncRun, flags: Slot -> bool)
  {
    run.ok && forall i | 0 <= i < |run.runs| :: AllOk(run.runs[i].events) && GivenBy(flags, run.runs[i].events)
  }

  lemma {:induction false} SameActions(f: seq<Action>, g: seq<Action>)
    requires forall act :: act in f <==> act in g
    requires forall i, j | 0 <= i < j < |f| :: Rank(f[i]) < Rank(f[j])
    requires forall i, j | 0 <= i < j < |g| :: Rank(g[i]) < Rank(g[j])
    ensures f == g
  {
    if f == [] {
      assert forall i | 0 <= i < |g| :: g[i] in f;
    } else {
      assert f[0] in g;
      var f', g', x, y := f[..|f| - 1], g[..|g| - 1], f[|f| - 1], g[|g| - 1];
      assert x in g && y in f;
      assert x == y;
      forall act ensures act in f' <==> act in g' {
        if act in f' { assert act in f && act != x; }
        if act in g' { assert act in g && act != y; }
      }
      SameActions(f', g');
      assert f == f' + [x] && g == g' + [y];
    }
  }

  // The clients among the executed actions meet only an origin without a client that has
  // both a day and a time zone.
  ghost predicate NoneSpoiled(runs: seq<ActionRun>, o: Origin)
  {
    forall i | 0 <= i < |runs| && runs[i].act.ClientsAction? :: NonLossy(o)
  }

  lemma {:induction false} ChainsAlike(ctx: Context, o: Origin, a: SyncRun, b: SyncRun, flags: Slot -> bool, n: nat)
    requires Chained(ctx, a.o0, a.s0, a.runs) && Chained(ctx, b.o0, b.s0, b.runs)
    requires |a.runs| == |b.runs| && n <= |a.runs| && forall i | 0 <= i < |a.runs| :: a.runs[i].act == b.runs[i].act
    requires ErrorFreeSync(a, flags) && ErrorFreeSync(b, flags)
    requires OriginLike(o, a.o0) && OriginLike(o, b.o0) && NoneSpoiled(a.runs, o)
    requires Alike(a.s0, b.s0)
    ensures Alike(StateBefore(a.s0, a.runs, n), StateBefore(b.s0, b.runs, n))
  {
    hide Chained, OriginLike, NonLossy, Alike, ValidRun, AllOk, GivenBy;
    if n > 0 {
      var x, y := a.runs[n - 1], b.runs[n - 1];
      ChainsAlike(ctx, o, a, b, flags, n - 1);
      ChainLink(ctx, a.o0, a.s0, a.runs, n - 1);
      ChainLink(ctx, b.o0, b.s0, b.runs, n - 1);
      OriginStaysLike(ctx, o, a.o0, a.s0, a.runs, n - 1);
      OriginStaysLike(ctx, o, b.o0, b.s0, b.runs, n - 1);
      NonLossyLike(o, x.o0);
      OriginsAlike(o, x.o0, y.o0);
      assert Twins(ctx, x, y, flags);
      ActionAlike(ctx, x, y, flags);
    }
  }

  // The replicas of one run, one after another, sharing the origin in memory. Any of
  // them may fail in any way.
  ghost predicate OneAfterAnother(cfg: Config, o: Origin, syncs: seq<SyncRun>)
  {
    forall i | 0 <= i < |syncs| :: ValidSync(cfg, syncs[i]) && syncs[i].o0 == OriginFor(o, syncs, i)
  }

  function OriginFor(o: Origin, syncs: seq<SyncRun>, i: nat): Origin
    requires i <= |syncs|
  {
    if i == 0 then o else syncs[i - 1].o1
  }

  // Client settings are not synchronized, or no client has both a day and a time zone.
  ghost predicate Unspoilable(f: Features, o: Origin)
  {
    f.clientSettings ==> NonLossy(o)
  }

  lemma VisitStaysLike(cfg: Config, o: Origin, run: SyncRun)
    requires ValidSync(cfg, run) && OriginLike(o, run.o0) && Unspoilable(cfg.features, o)
    ensures OriginLike(o, run.o1) && NoneSpoiled(run.runs, o)
  {
    hide OriginLike, NonLossy, Greeting, Chained, Disciplined, ActionList, Typed, Filed;
    RunsAreEnabled(cfg, run);
    if run.runs != [] {
      OriginStaysLike(ContextFor(cfg, run.inst, run.s0), o, run.o0, run.s0, run.runs, |run.runs|);
    }
  }

  lemma {:induction false} OriginForReplica(cfg: Config, o: Origin, syncs: seq<SyncRun>, i: nat)
    requires OneAfterAnother(cfg, o, syncs) && Unspoilable(cfg.features, o) && i < |syncs|
    ensures OriginLike(o, syncs[i].o0)
  {
    OriginLikeReflexive(o);
    hide OriginLike, Unspoilable, ValidSync;
    if i > 0 {
      OriginForReplica(cfg, o, syncs, i - 1);
      VisitStaysLike(cfg, o, syncs[i - 1]);
    }
  }

  // In whatever order two runs visit the replicas, and whatever happens to the other
  // replicas, a replica that is synchronized without error ends up the same up to the
  // order of its lists, if client settings are not synchronized or no origin client has
  // both a day and a time zone. Repeated filters and leases do not matter.
  lemma OrderDoesNotMatter(cfg: Config, o: Origin, one: seq<SyncRun>, other: seq<SyncRun>, i: nat, j: nat,
                           flags: Slot -> bool)
    requires OneAfterAnother(cfg, o, one) && OneAfterAnother(cfg, o, other) && i < |one| && j < |other|
    requires Unspoilable(cfg.features, o)
    requires one[i].inst == other[j].inst && one[i].s0 == other[j].s0
    requires ErrorFreeSync(one[i], flags) && ErrorFreeSync(other[j], flags)
    ensures Alike(one[i].s1, other[j].s1)
  {
    OriginForReplica(cfg, o, one, i);
    OriginForReplica(cfg, o, other, j);
    assert ValidSync(cfg, one[i]) && ValidSync(cfg, other[j]);
    hide OneAfterAnother, Unspoilable, OriginLike, Alike, ValidSync, ErrorFreeSync;
    SameVisitAlike(cfg, o, one[i], other[j], flags);
  }

  lemma SameVisitAlike(cfg: Config, o: Origin, a: SyncRun, b: SyncRun, flags: Slot -> bool)
    requires ValidSync(cfg, a) && ValidSync(cfg, b) && OriginLike(o, a.o0) && OriginLike(o, b.o0)
    requires Unspoilable(cfg.features, o) && a.inst == b.inst && a.s0 == b.s0
    requires ErrorFreeSync(a, flags) && ErrorFreeSync(b, flags)
    ensures Alike(a.s1, b.s1)
  {
    hide ValidSync, Unspoilable, OriginLike, Alike, Chained, NoneSpoiled, ActionList, ValidRun, AllOk, GivenBy;
    assert a.ok && b.ok;
    VisitStaysLike(cfg, o, a);
    SuccessfulVisit(cfg, a);
    SuccessfulVisit(cfg, b);
    SameLists(cfg.features, a.acts, b.acts);
    AlikeReflexive(a.s0);
    ChainsAlike(ContextFor(cfg, a.inst, a.s0), o, a, b, flags, |a.runs|);
  }

  lemma SuccessfulVisit(cfg: Config, run: SyncRun)
    requires ValidSync(cfg, run) && run.ok
    ensures Chained(ContextFor(cfg, run.inst, run.s0), run.o0, run.s0, run.runs) && ActionList(cfg.features, run.acts)
    ensures |run.runs| == |run.acts| && forall i | 0 <= i < |run.acts| :: run.runs[i].act == run.acts[i]
    ensures run.s1 == StateBefore(run.s0, run.runs, |run.runs|) && run.o1 == OriginBefore(run.o0, run.runs, |run.runs|)
  {
    hide Chained, ActionList, Greeting, Typed, Filed;
  }

  lemma SameLists(f: Features, a: seq<Action>, b: seq<Action>)
    requires ActionList(f, a) && ActionList(f, b)
    ensures a == b
  {
    SameActions(a, b);
  }

  // ---- With such a client the order does matter ----

  // A client the replica lacks arrives exactly as the origin in memory has it.
  lemma MissingClientArrives(ctx: Context, run: ActionRun, i: nat)
    requires ValidRun(ctx, run) && run.act.ClientsAction? && AllOk(run.events)
    requires i < |run.o0.clients|
    requires forall j | i < j < |run.o0.clients| :: run.o0.clients[j].Key() != run.o0.clients[i].Key()
    requires Slot(Clients, run.o0.clients[i].Key()) !in run.s0.lists
    ensures var c := run.o0.clients[i];
            Slot(Clients, c.Key()) in run.s1.lists && run.s1.lists[Slot(Clients, c.Key())] == c
  {
    hide AllOk, IsPlan, Executes, Replay, OriginAfter, Filed, Item.Key, Lossy, Sent;
    var c := run.o0.clients[i];
    LastWins(run.o0.clients, i, |run.o0.clients|);
    var given := ListRound(ctx, run, Slot(Clients, c.Key()));
    assert AllBelong(Clients, run.o0.List(Clients));
    assert c.Client?;
    hide ValidRun;
  }

  lemma SpoiledOrigin(o: Origin, y: Instance, i: nat)
    requires Typed(o) && i < |o.clients| && Lossy(o.clients[i]) && Compared(o.clients, Part(y.lists, Clients), i)
    ensures var o' := OriginAfter(ClientsAction, o, y, true);
            && |o'.clients| == |o.clients| && o'.clients[i].Key() == o.clients[i].Key()
            && !Resorted(o.clients[i], o'.clients[i])
            && forall j | i < j < |o'.clients| :: o'.clients[j].Key() != o'.clients[i].Key()
  {
    LossyClientIsSpoiled(o, y, i);
    NamesStay(ClientsAction, o, y, true);
    var o' := OriginAfter(ClientsAction, o, y, true);
    if Resorted(o.clients[i], o'.clients[i]) {
      ResortedMeansSame(o.clients[i], o'.clients[i]);
      SameBothWays(o.clients[i], o'.clients[i]);
    }
    hide OriginAfter;
  }

  lemma SameBothWays(a: Item, b: Item)
    requires Same(a, b)
    ensures Same(b, a)
  {}

  // Replica y has the client, replica x has not. If x is synchronized first it gets the
  // client with its time zone; after y it gets it without.
  lemma OrderMattersForLossyClients(ctx: Context, y: Instance, i: nat, first: ActionRun, second: ActionRun)
    requires ValidRun(ctx, first) && ValidRun(ctx, second) && AllOk(first.events) && AllOk(second.events)
    requires first.act.ClientsAction? && second.act.ClientsAction? && first.s0 == second.s0
    requires second.o0 == OriginAfter(ClientsAction, first.o0, y, true)
    requires i < |first.o0.clients| && Lossy(first.o0.clients[i])
    requires Compared(first.o0.clients, Part(y.lists, Clients), i)
    requires Slot(Clients, first.o0.clients[i].Key()) !in first.s0.lists
    ensures !Alike(first.s1, second.s1)
  {
    hide AllOk, Resorted, OriginAfter;
    SpoiledOrigin(first.o0, y, i);
    MissingClientArrives(ctx, first, i);
    MissingClientArrives(ctx, second, i);
  }
}
