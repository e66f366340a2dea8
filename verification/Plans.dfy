// Every action of a run as data: the calls it plans after reading the replica, and how
// they are executed when any of them may fail.

module Plans {
  import opened Sorting
  import opened Values
  import opened Server
  import opened Merging

  // The origin's configuration in memory, shared by all replicas of a run. Lists are in
  // the order they were read.
  datatype Origin = Origin(
    version: string, settings: Settings, rewrites: seq<RewriteEntry>,
    filters: seq<Item>, allowFilters: seq<Item>, clients: seq<Item>, staticLeases: Option<seq<Item>>)
  {
    function List(list: ListId): seq<Item> {
      match list
      case BlockLists => filters
      case AllowLists => allowFilters
      case Clients => clients
      case Leases => LeaseList()
    }

    // Nil counts as empty, but for the comparison of DHCP configurations.
    function LeaseList(): seq<Item> { OrEmpty(staticLeases) }
  }

  ghost predicate AllBelong(list: ListId, items: seq<Item>)
  {
    forall i | 0 <= i < |items| :: Belongs(list, items[i])
  }

  ghost predicate Typed(o: Origin)
  {
    forall list :: AllBelong(list, o.List(list))
  }

  // A server files every entry in the right list under its own key.
  ghost predicate Filed(s: Instance)
  {
    forall slot | slot in s.lists :: Belongs(slot.list, s.lists[slot]) && s.lists[slot].Key() == slot.key
  }

  // What the origin wants in a slot; for a repeated key the last entry.
  function Wanted(o: Origin, list: ListId): map<string, Item>
  {
    ByKey(o.List(list))
  }

  predicate Wants(o: Origin, slot: Slot)
  {
    slot.key in Wanted(o, slot.list)
  }

  function Want(o: Origin, slot: Slot): Item
    requires Wants(o, slot)
  {
    Wanted(o, slot.list)[slot.key]
  }

  // Does the replica still differ from the origin in this slot?
  predicate Differs(o: Origin, lists: map<Slot, Item>, slot: Slot)
  {
    if slot in lists && Wants(o, slot) then !Same(lists[slot], Want(o, slot))
    else slot in lists || Wants(o, slot)
  }

  // A change that is one of the difference between these lists and the origin's.
  predicate Fits(o: Origin, lists: map<Slot, Item>, c: Change)
  {
    match c
    case Remove(slot, it) => slot in lists && it == lists[slot] && !Wants(o, slot)
    case Add(slot, it) => slot !in lists && Wants(o, slot) && it == Want(o, slot)
    case Update(slot, it) =>
      slot in lists && Wants(o, slot) && !Same(lists[slot], Want(o, slot)) && it == Sent(Want(o, slot))
  }

  // ---- Plans and their execution ----

  // A planned call. A tolerated failure is logged and the next call follows; any other
  // failure ends the action with an error.
  datatype Step = Step(call: Call, tolerated: bool)

  ghost predicate Underway(plan: seq<Step>, events: seq<Event>)
  {
    && |events| <= |plan|
    && (forall i | 0 <= i < |events| :: events[i].call == plan[i].call)
    && (forall i | 0 <= i < |events| :: events[i].Ok() || plan[i].tolerated)
  }

  // The calls made are the whole plan, or its prefix up to the first failure that is
  // not tolerated.
  ghost predicate Executes(plan: seq<Step>, events: seq<Event>, err: bool)
  {
    if !err then Underway(plan, events) && |events| == |plan|
    else
      && 0 < |events| <= |plan|
      && Underway(plan, events[..|events| - 1])
      && events[|events| - 1].call == plan[|events| - 1].call
      && !events[|events| - 1].Ok() && !plan[|events| - 1].tolerated
  }

  lemma ExecutesCalls(plan: seq<Step>, events: seq<Event>, err: bool)
    requires Executes(plan, events, err)
    ensures |events| <= |plan|
    ensures forall i | 0 <= i < |events| :: events[i].call == plan[i].call
    ensures forall i | 0 <= i < |events| - 1 :: events[i].Ok() || plan[i].tolerated
  {
    if err {
      forall i | 0 <= i < |events| - 1
        ensures events[i].call == plan[i].call && (events[i].Ok() || plan[i].tolerated)
      {
        assert events[..|events| - 1][i] == events[i];
      }
    }
  }

  function Changes(list: ListId, removes: seq<Item>, adds: seq<Item>, updates: seq<Item>): (r: seq<Change>)
    ensures |r| == |removes| + |adds| + |updates|
  {
    seq(|removes|, i requires 0 <= i < |removes| => Remove(Slot(list, removes[i].Key()), removes[i]))
    + seq(|adds|, i requires 0 <= i < |adds| => Add(Slot(list, adds[i].Key()), adds[i]))
    + seq(|updates|, i requires 0 <= i < |updates| => Update(Slot(list, updates[i].Key()), updates[i]))
  }

  function Steps(changes: seq<Change>, tolerated: bool): (r: seq<Step>)
    ensures |r| == |changes|
    ensures forall i | 0 <= i < |r| :: r[i] == Step(ListChange(changes[i]), tolerated)
  {
    seq(|changes|, i requires 0 <= i < |changes| => Step(ListChange(changes[i]), tolerated))
  }

  // ---- Actions ----

  datatype Action =
    | ProfileAction | ProtectionAction | ParentalAction | SafeSearchAction | SafeBrowsingAction
    | DnsAction | QueryLogAction | StatsAction | RewritesAction | FiltersAction | ServicesAction
    | ClientsAction | AccessAction | DhcpConfigAction | LeasesAction | TlsAction

  // What an action knows besides the origin and the replica.
  datatype Context = Context(
    continueOnError: bool, theme: bool, interfaceName: string, dhcpEnabled: Option<bool>,
    replicaProtection: bool)

  // The read an action starts with, if it makes one.
  function ReadOf(act: Action, o: Origin): Option<Resource>
  {
    match act
    case ProfileAction => Some(ProfileInfo)
    case ProtectionAction => None
    case ParentalAction => Some(Parental)
    case SafeSearchAction => Some(SafeSearchConfig)
    case SafeBrowsingAction => Some(SafeBrowsing)
    case DnsAction => Some(DnsConfig)
    case QueryLogAction => Some(QueryLogConfig)
    case StatsAction => Some(StatsConfig)
    case RewritesAction => Some(RewriteList)
    case FiltersAction => Some(Filtering)
    case ServicesAction => Some(BlockedServices)
    case ClientsAction => Some(ClientList)
    case AccessAction => Some(AccessLists)
    case DhcpConfigAction => if o.settings.dhcp.HasConfig() then Some(DhcpConfig) else None
    case LeasesAction => Some(DhcpConfig)
    case TlsAction => Some(TlsConfig)
  }

  function OneStep(needed: bool, call: Call, tolerated: bool): seq<Step>
  {
    if needed then [Step(call, tolerated)] else []
  }

  // syncFilterType for one of the two lists, with the refresh at its end.
  ghost predicate IsFilterPlan(list: ListId, items: seq<Item>, lists: map<Slot, Item>, continueOnError: bool,
                               plan: seq<Step>)
  {
    exists removes :: IsFilterPlanWith(list, items, lists, continueOnError, plan, removes)
  }

  function ListAdds(list: ListId, items: seq<Item>, lists: map<Slot, Item>): seq<Item>
  {
    SliceAdds(Part(lists, list), items, |items|)
  }

  function ListUpdates(list: ListId, items: seq<Item>, lists: map<Slot, Item>): seq<Item>
  {
    SliceUpdates(Part(lists, list), items, |items|)
  }

  ghost predicate IsFilterPlanWith(list: ListId, items: seq<Item>, lists: map<Slot, Item>, continueOnError: bool,
                                   plan: seq<Step>, removes: seq<Item>)
  {
    var adds, updates := ListAdds(list, items, lists), ListUpdates(list, items, lists);
    && Listing(removes, Removed(Part(lists, list), ByKey(items)))
    && plan == Steps(Changes(list, removes, adds, updates), continueOnError)
               + OneStep(|adds| > 0 || |updates| > 0, RefreshFilters(list == AllowLists), false)
  }

  // User rules first; enabled and interval only when the rules agree.
  function RuleSteps(o: Settings, s: Settings): seq<Step>
  {
    if Render(o.userRules) != Render(s.userRules) then [Step(SetRules(o.userRules), false)]
    else OneStep(o.filtering != s.filtering, ToggleFiltering(o.filtering), false)
  }

  function RewriteSteps(removes: seq<RewriteEntry>, adds: seq<RewriteEntry>): (r: seq<Step>)
    ensures |r| == |removes| + |adds|
  {
    seq(|removes|, i requires 0 <= i < |removes| => Step(DeleteRewrite(removes[i]), false))
    + seq(|adds|, i requires 0 <= i < |adds| => Step(AddRewrite(adds[i]), false))
  }

  // The DHCP configuration meant for this replica.
  function DhcpFor(o: Dhcp, ctx: Context): Dhcp
  {
    var named := if ctx.interfaceName != "" then o.(interfaceName := Some(ctx.interfaceName)) else o;
    if ctx.dhcpEnabled.Some? then named.(enabled := ctx.dhcpEnabled) else named
  }

  // The comparison includes the static leases, in the order the replica reports them; a
  // replica without any reports an empty list or none.
  ghost predicate IsDhcpPlan(o: Origin, s: Instance, ctx: Context, plan: seq<Step>)
  {
    var target := DhcpFor(o.settings.dhcp, ctx).Cleaned();
    if !o.settings.dhcp.HasConfig() then plan == []
    else
      exists reported: Option<seq<Item>> :: Listing(OrEmpty(reported), Part(s.lists, Leases)) &&
        plan == OneStep(s.settings.dhcp.Cleaned() != target || reported != o.staticLeases, SetDhcp(target), false)
  }

  // The services as SetBlockedServicesSchedule leaves and sends them: logging them sorts the ids.
  function LoggedServices(v: Services): Services
  {
    v.(ids := SortOpt(v.ids))
  }

  ghost predicate IsRewritesPlan(o: Origin, s: Instance, plan: seq<Step>)
  {
    exists removes, adds :: IsRewriteMerge(s.rewrites, o.rewrites, removes, adds) && plan == RewriteSteps(removes, adds)
  }

  lemma RewritesPlanIsDiff(o: Origin, s: Instance, plan: seq<Step>)
    returns (removes: seq<RewriteEntry>, adds: seq<RewriteEntry>)
    requires IsRewritesPlan(o, s, plan)
    ensures IsRewriteDiff(s.rewrites, o.rewrites, removes, adds) && plan == RewriteSteps(removes, adds)
  {
    removes, adds :| IsRewriteMerge(s.rewrites, o.rewrites, removes, adds) && plan == RewriteSteps(removes, adds);
    hide IsRewriteMerge;
    MergeIsDiff(s.rewrites, o.rewrites, removes, adds);
  }

  ghost predicate IsFiltersPlan(ctx: Context, o: Origin, s: Instance, plan: seq<Step>)
  {
    exists block, allow ::
      && IsFilterPlan(BlockLists, o.filters, s.lists, ctx.continueOnError, block)
      && IsFilterPlan(AllowLists, o.allowFilters, s.lists, ctx.continueOnError, allow)
      && plan == block + allow + RuleSteps(o.settings, s.settings)
  }

  ghost predicate IsClientsPlan(ctx: Context, o: Origin, s: Instance, plan: seq<Step>)
  {
    exists removes, adds, updates ::
      && IsDiff(Part(s.lists, Clients), Wanted(o, Clients), removes, adds, updates)
      && plan == Steps(Changes(Clients, removes, adds, updates), ctx.continueOnError)
  }

  ghost predicate IsLeasesPlan(ctx: Context, o: Origin, s: Instance, plan: seq<Step>)
  {
    exists removes ::
      && Listing(removes, Removed(Part(s.lists, Leases), Wanted(o, Leases)))
      && plan == Steps(Changes(Leases, removes, ListAdds(Leases, o.LeaseList(), s.lists), []), ctx.continueOnError)
  }

  ghost predicate IsPlan(act: Action, ctx: Context, o: Origin, s: Instance, plan: seq<Step>)
  {
    var a, b := o.settings, s.settings;
    match act
    case ProfileAction =>
      var merged := ShouldSyncFor(b.profile, a.profile, ctx.theme);
      plan == if merged.Some? then [Step(SetProfile(merged.value), false)] else []
    case ProtectionAction =>
      plan == OneStep(a.protection != ctx.replicaProtection, ToggleProtection(a.protection), false)
    case ParentalAction => plan == OneStep(a.parental != b.parental, ToggleParental(a.parental), false)
    case SafeSearchAction =>
      plan == OneStep(!SafeSearchEq(a.safeSearch, b.safeSearch), SetSafeSearch(a.safeSearch), false)
    case SafeBrowsingAction =>
      plan == OneStep(a.safeBrowsing != b.safeBrowsing, ToggleSafeBrowsing(a.safeBrowsing), false)
    case DnsAction => plan == OneStep(!DnsEq(s.ReadDns(), a.dns), SetDns(a.dns), false)
    case QueryLogAction => plan == OneStep(a.queryLog != b.queryLog, SetQueryLog(a.queryLog), false)
    case StatsAction => plan == OneStep(b.stats != a.stats, SetStats(a.stats), false)
    case RewritesAction => IsRewritesPlan(o, s, plan)
    case FiltersAction => IsFiltersPlan(ctx, o, s, plan)
    case ServicesAction =>
      plan == OneStep(a.services != b.services, SetServices(LoggedServices(a.services)), false)
    case ClientsAction => IsClientsPlan(ctx, o, s, plan)
    case AccessAction =>
      plan == OneStep(!AccessEq(b.access, a.access), SetAccess(AccessTouched(a.access, b.access)), false)
    case DhcpConfigAction => IsDhcpPlan(o, s, ctx, plan)
    case LeasesAction => IsLeasesPlan(ctx, o, s, plan)
    case TlsAction => plan == OneStep(b.tls != a.tls, SetTls(a.tls), ctx.continueOnError)
  }

  // The lists an action works on, and the calls that are its own.
  predicate WorksOn(act: Action, list: ListId)
  {
    match list
    case BlockLists => act.FiltersAction?
    case AllowLists => act.FiltersAction?
    case Clients => act.ClientsAction?
    case Leases => act.LeasesAction?
  }

  predicate Owns(act: Action, call: Call)
  {
    match call
    case Get(_) => false
    case Setup => false
    case SetProfile(_) => act.ProfileAction?
    case ToggleProtection(_) => act.ProtectionAction?
    case ToggleParental(_) => act.ParentalAction?
    case SetSafeSearch(_) => act.SafeSearchAction?
    case ToggleSafeBrowsing(_) => act.SafeBrowsingAction?
    case SetDns(_) => act.DnsAction?
    case SetQueryLog(_) => act.QueryLogAction?
    case SetStats(_) => act.StatsAction?
    case DeleteRewrite(_) => act.RewritesAction?
    case AddRewrite(_) => act.RewritesAction?
    case ListChange(c) => WorksOn(act, c.slot.list)
    case RefreshFilters(_) => act.FiltersAction?
    case SetRules(_) => act.FiltersAction?
    case ToggleFiltering(_) => act.FiltersAction?
    case SetServices(_) => act.ServicesAction?
    case SetAccess(_) => act.AccessAction?
    case SetDhcp(_) => act.DhcpConfigAction?
    case SetTls(_) => act.TlsAction?
  }

  ghost predicate AllOwned(act: Action, plan: seq<Step>)
  {
    forall i | 0 <= i < |plan| :: Owns(act, plan[i].call)
  }

  lemma ChangesIn(list: ListId, removes: seq<Item>, adds: seq<Item>, updates: seq<Item>)
    ensures forall i | 0 <= i < |Changes(list, removes, adds, updates)| ::
              Changes(list, removes, adds, updates)[i].slot.list == list
  {}

  lemma FilterPlanOwned(list: ListId, items: seq<Item>, lists: map<Slot, Item>, coe: bool, plan: seq<Step>)
    requires list == BlockLists || list == AllowLists
    requires IsFilterPlan(list, items, lists, coe, plan)
    ensures AllOwned(FiltersAction, plan)
  {
    var removes :| IsFilterPlanWith(list, items, lists, coe, plan, removes);
    ChangesIn(list, removes, ListAdds(list, items, lists), ListUpdates(list, items, lists));
    hide ListAdds, ListUpdates, Changes;
  }

  lemma StepsOwned(act: Action, list: ListId, tolerated: bool, removes: seq<Item>, adds: seq<Item>, updates: seq<Item>)
    requires WorksOn(act, list)
    ensures AllOwned(act, Steps(Changes(list, removes, adds, updates), tolerated))
  {
    ChangesIn(list, removes, adds, updates);
    hide Changes;
  }

  lemma FiltersPlanOwned(ctx: Context, o: Origin, s: Instance, plan: seq<Step>)
    requires IsFiltersPlan(ctx, o, s, plan)
    ensures AllOwned(FiltersAction, plan)
  {
    var coe := ctx.continueOnError;
    hide IsFilterPlan;
    var block, allow :|
      && IsFilterPlan(BlockLists, o.filters, s.lists, coe, block)
      && IsFilterPlan(AllowLists, o.allowFilters, s.lists, coe, allow)
      && plan == block + allow + RuleSteps(o.settings, s.settings);
    FilterPlanOwned(BlockLists, o.filters, s.lists, coe, block);
    FilterPlanOwned(AllowLists, o.allowFilters, s.lists, coe, allow);
  }

  lemma ClientsPlanOwned(ctx: Context, o: Origin, s: Instance, plan: seq<Step>)
    requires IsClientsPlan(ctx, o, s, plan)
    ensures AllOwned(ClientsAction, plan)
  {
    hide IsDiff, AllOwned, Changes;
    var removes, adds, updates :|
      && IsDiff(Part(s.lists, Clients), Wanted(o, Clients), removes, adds, updates)
      && plan == Steps(Changes(Clients, removes, adds, updates), ctx.continueOnError);
    StepsOwned(ClientsAction, Clients, ctx.continueOnError, removes, adds, updates);
  }

  lemma LeasesPlanOwned(ctx: Context, o: Origin, s: Instance, plan: seq<Step>)
    requires IsLeasesPlan(ctx, o, s, plan)
    ensures AllOwned(LeasesAction, plan)
  {
    hide AllOwned, Changes, ListAdds, Listing;
    var removes :|
      && Listing(removes, Removed(Part(s.lists, Leases), Wanted(o, Leases)))
      && plan == Steps(Changes(Leases, removes, ListAdds(Leases, o.LeaseList(), s.lists), []), ctx.continueOnError);
    StepsOwned(LeasesAction, Leases, ctx.continueOnError, removes, ListAdds(Leases, o.LeaseList(), s.lists), []);
  }

  lemma OtherPlansOwned(act: Action, ctx: Context, o: Origin, s: Instance, plan: seq<Step>)
    requires IsPlan(act, ctx, o, s, plan) && !act.FiltersAction? && !act.ClientsAction? && !act.LeasesAction?
    ensures AllOwned(act, plan)
  {
    hide IsRewriteMerge, Listing, DnsEq, SafeSearchEq, AccessEq, ShouldSyncFor, AccessTouched;
  }

  // An action plans only calls of its own.
  lemma PlanOwned(act: Action, ctx: Context, o: Origin, s: Instance, plan: seq<Step>)
    requires IsPlan(act, ctx, o, s, plan)
    ensures AllOwned(act, plan)
  {
    hide IsFiltersPlan, IsClientsPlan, IsLeasesPlan, AllOwned;
    if act.FiltersAction? {
      FiltersPlanOwned(ctx, o, s, plan);
    } else if act.ClientsAction? {
      ClientsPlanOwned(ctx, o, s, plan);
    } else if act.LeasesAction? {
      LeasesPlanOwned(ctx, o, s, plan);
    } else {
      OtherPlansOwned(act, ctx, o, s, plan);
    }
  }

  // Is the i-th client the one its name stands for, and was it compared?
  predicate Compared(clients: seq<Item>, current: map<string, Item>, i: nat)
    requires i < |clients|
  {
    clients[i].Key() in current && forall j | i < j < |clients| :: clients[j].Key() != clients[i].Key()
  }

  // The origin's clients after Merge: each client that was compared is left touched.
  function MergedClients(clients: seq<Item>, current: map<string, Item>): (r: seq<Item>)
    requires AllBelong(Clients, clients)
    ensures |r| == |clients|
  {
    seq(|clients|, i requires 0 <= i < |clients| && AllBelong(Clients, clients) =>
      if Compared(clients, current, i) then Touched(clients[i]) else clients[i])
  }

  // What an action leaves of the origin's configuration in memory.
  function OriginAfter(act: Action, o: Origin, s: Instance, read: bool): Origin
    requires Typed(o)
  {
    assert AllBelong(Clients, o.List(Clients));
    if !read then o
    else match act
      case ClientsAction => o.(clients := MergedClients(o.clients, Part(s.lists, Clients)))
      case AccessAction =>
        o.(settings := o.settings.(access := AccessTouched(o.settings.access, s.settings.access)))
      case ServicesAction =>
        if o.settings.services != s.settings.services
        then o.(settings := o.settings.(services := LoggedServices(o.settings.services))) else o
      case _ => o
  }

  // ---- One executed action ----

  datatype ActionRun = ActionRun(
    act: Action, o0: Origin, s0: Instance, plan: seq<Step>, events: seq<Event>, err: bool,
    o1: Origin, s1: Instance)

  // The number of reads at the head of the events.
  function Reads(act: Action, o: Origin): nat
  {
    if ReadOf(act, o).Some? then 1 else 0
  }

  ghost predicate ReadFailed(run: ActionRun)
  {
    ReadOf(run.act, run.o0).Some? && |run.events| > 0 && !run.events[0].Ok()
  }

  ghost predicate ValidRun(ctx: Context, run: ActionRun)
  {
    var n := Reads(run.act, run.o0);
    && Typed(run.o0) && Filed(run.s0)
    && n <= |run.events|
    && (n == 1 ==> run.events[0].call == Get(ReadOf(run.act, run.o0).value))
    && run.s1 == Replay(run.s0, run.events)
    && run.o1 == OriginAfter(run.act, run.o0, run.s0, !ReadFailed(run))
    && (if ReadFailed(run) then |run.events| == 1 && run.err && run.plan == []
        else IsPlan(run.act, ctx, run.o0, run.s0, run.plan) && Executes(run.plan, run.events[n..], run.err))
  }
}
