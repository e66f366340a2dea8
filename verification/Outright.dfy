// What single actions do to a replica, said outright on its fields: nothing here speaks
// through the functions that derive what is written.

module Outright {
  import opened Sorting
  import opened Values
  import opened Server
  import opened Plans
  import opened Merging
  import opened NeverStale
  import opened Convergence
  import opened ReplicaOrder
  import opened Meanings

  // An action that plans at most one call leaves the settings alone or as that call sets them.
  lemma OneCallOrNone(ctx: Context, run: ActionRun)
    requires ValidRun(ctx, run) && |run.plan| <= 1
    ensures run.s1.settings == run.s0.settings
            || (|run.plan| == 1 && run.s1.settings == Configured(run.s0.settings, run.plan[0].call))
  {
    hide IsPlan, OriginAfter, Typed, Filed;
    if ReadFailed(run) {
      OneRead(run.s0, run.events);
    } else {
      var n := Reads(run.act, run.o0);
      var events := run.events[n..];
      AfterRead(run.s0, run.events, n, |run.events|);
      assert run.events[..|run.events|] == run.events && events[..|events|] == events;
      ExecutesCalls(run.plan, events, run.err);
      if events != [] {
        assert events == [] + [events[0]];
        ReplayOne(run.s0, [], events[0]);
      }
    }
  }

  // ---- Profiles ----

  // Whatever fails, a profile keeps its name, and its theme unless themes are synchronized;
  // language and theme stay the replica's own or become the origin's, if that has one.
  ghost predicate ProfileKept(o: Profile, was: Profile, now: Profile, withTheme: bool)
  {
    && now.name == was.name
    && (!withTheme ==> now.theme == was.theme)
    && (now.language == was.language || (now.language == o.language && o.language != ""))
    && (now.theme == was.theme || (now.theme == o.theme && o.theme != ""))
  }

  lemma ProfileActionKeeps(ctx: Context, run: ActionRun)
    requires ValidRun(ctx, run) && run.act.ProfileAction?
    ensures ProfileKept(run.o0.settings.profile, run.s0.settings.profile, run.s1.settings.profile, ctx.theme)
  {
    ProfilePlan(ctx, run);
    OneCallOrNone(ctx, run);
    hide ValidRun, ShouldSyncFor, ProfileKept;
    WrittenProfileIsKept(run.s0.settings.profile, run.o0.settings.profile, ctx.theme);
  }

  lemma WrittenProfileIsKept(p: Profile, o: Profile, withTheme: bool)
    ensures var merged := ShouldSyncFor(p, o, withTheme); merged.Some? ==> ProfileKept(o, p, merged.value, withTheme)
    ensures ProfileKept(o, p, p, withTheme)
  {
    ProfileToWrite(p, o, withTheme);
    hide ShouldSyncFor;
  }

  lemma ProfilePlan(ctx: Context, run: ActionRun)
    requires ValidRun(ctx, run) && run.act.ProfileAction?
    ensures var merged := ShouldSyncFor(run.s0.settings.profile, run.o0.settings.profile, ctx.theme);
            run.plan == [] || (merged.Some? && run.plan == [Step(SetProfile(merged.value), false)])
  {
    hide ShouldSyncFor, Executes, Replay, OriginAfter;
  }

  // ---- DHCP ----

  // The sections the origin has and that are usable, and no other usable one; the
  // replica's own interface and switch where it has them.
  predicate DhcpTaken(o: Dhcp, interfaceName: string, enabled: Option<bool>, d: Dhcp)
  {
    && (if UsableV4(o.v4) then d.v4 == o.v4 else !UsableV4(d.v4))
    && (if UsableV6(o.v6) then d.v6 == o.v6 else !UsableV6(d.v6))
    && d.interfaceName == (if interfaceName != "" then Some(interfaceName) else o.interfaceName)
    && d.enabled == (if enabled.Some? then enabled else o.enabled)
  }

  // Without an error the replica takes over the origin's DHCP configuration if that has a
  // usable section, and keeps its own otherwise.
  lemma DhcpReached(ctx: Context, run: ActionRun)
    requires ValidRun(ctx, run) && run.act.DhcpConfigAction? && AllOk(run.events)
    ensures var o, was, now := run.o0.settings.dhcp, run.s0.settings.dhcp, run.s1.settings.dhcp;
            now.leases == was.leases
            && if UsableV4(o.v4) || UsableV6(o.v6) then DhcpTaken(o, ctx.interfaceName, ctx.dhcpEnabled, now)
               else now == was
  {
    var o, was, now := run.o0.settings.dhcp, run.s0.settings.dhcp, run.s1.settings.dhcp;
    OneCallRun(ctx, run);
    DhcpResult(ctx, run);
    CleaningKeeps(o);
    if o.HasConfig() { TakenIfCleanedSo(o, ctx, was, now); } else { NoDhcpPlan(ctx, run); }
    hide ValidRun, OneCallMade, Dhcp.Cleaned, UsableV4, UsableV6, Dhcp.HasConfig, DhcpFor;
    CleaningKeeps(was);
    CleaningKeeps(now);
  }

  lemma TakenIfCleanedSo(o: Dhcp, ctx: Context, was: Dhcp, now: Dhcp)
    requires now.Cleaned() == DhcpFor(o, ctx).Cleaned().(leases := was.leases)
    ensures DhcpTaken(o, ctx.interfaceName, ctx.dhcpEnabled, now) && now.leases == was.leases
  {
    CleaningKeeps(now);
    CleaningKeeps(DhcpFor(o, ctx));
    hide Dhcp.Cleaned, Dhcp.HasConfig, Given;
  }

  lemma NoDhcpPlan(ctx: Context, run: ActionRun)
    requires OneCallMade(ctx, run) && run.act.DhcpConfigAction? && !run.o0.settings.dhcp.HasConfig()
    ensures run.s1.settings == run.s0.settings
  {
    hide Listing, Dhcp.Cleaned;
  }

  // ---- The refresh of filters ----

  // An add or an update of one of the lists.
  predicate Enters(call: Call, list: ListId)
  {
    call.ListChange? && !call.change.Remove? && call.change.slot.list == list
  }

  predicate Refreshes(call: Call, list: ListId)
  {
    call == RefreshFilters(list == AllowLists)
  }

  predicate RefreshPlanned(plan: seq<Step>, i: nat, list: ListId)
  {
    exists j :: i < j < |plan| && Refreshes(plan[j].call, list) && !plan[j].tolerated
  }

  predicate EntryPlanned(plan: seq<Step>, j: nat, list: ListId)
  {
    exists i :: 0 <= i < j && i < |plan| && Enters(plan[i].call, list)
  }

  ghost predicate RefreshedInPlan(plan: seq<Step>, list: ListId)
  {
    && (forall i | 0 <= i < |plan| && Enters(plan[i].call, list) :: RefreshPlanned(plan, i, list))
    && (forall j | 0 <= j < |plan| && Refreshes(plan[j].call, list) :: EntryPlanned(plan, j, list))
  }

  lemma RefreshConcat(a: seq<Step>, b: seq<Step>, list: ListId)
    requires RefreshedInPlan(a, list) && RefreshedInPlan(b, list)
    ensures RefreshedInPlan(a + b, list)
  {
    hide Enters, Refreshes;
    var plan := a + b;
    forall i | 0 <= i < |plan| && Enters(plan[i].call, list) ensures RefreshPlanned(plan, i, list) {
      if i < |a| {
        assert RefreshPlanned(a, i, list);
        var j :| i < j < |a| && Refreshes(a[j].call, list) && !a[j].tolerated;
        assert plan[j] == a[j];
      } else {
        assert RefreshPlanned(b, i - |a|, list);
        var j :| i - |a| < j < |b| && Refreshes(b[j].call, list) && !b[j].tolerated;
        assert plan[|a| + j] == b[j];
      }
    }
    forall j | 0 <= j < |plan| && Refreshes(plan[j].call, list) ensures EntryPlanned(plan, j, list) {
      if j < |a| {
        assert EntryPlanned(a, j, list);
        var i :| 0 <= i < j && i < |a| && Enters(a[i].call, list);
        assert plan[i] == a[i];
      } else {
        assert EntryPlanned(b, j - |a|, list);
        var i :| 0 <= i < j - |a| && i < |b| && Enters(b[i].call, list);
        assert plan[|a| + i] == b[i];
      }
    }
  }

  lemma RemovesFirst(own: ListId, removes: seq<Item>, adds: seq<Item>, updates: seq<Item>, i: nat)
    requires i < |removes| + |adds| + |updates|
    ensures Changes(own, removes, adds, updates)[i].slot.list == own
    ensures Changes(own, removes, adds, updates)[i].Remove? <==> i < |removes|
  {}

  lemma FilterPlanRefreshes(own: ListId, items: seq<Item>, lists: map<Slot, Item>, coe: bool, plan: seq<Step>,
                            list: ListId)
    requires IsFilterPlan(own, items, lists, coe, plan) && own in {BlockLists, AllowLists}
    requires list in {BlockLists, AllowLists}
    ensures RefreshedInPlan(plan, list)
  {
    hide ListAdds, ListUpdates, Listing;
    var removes :| IsFilterPlanWith(own, items, lists, coe, plan, removes);
    ChangesRefresh(own, removes, ListAdds(own, items, lists), ListUpdates(own, items, lists), coe, plan, list);
  }

  lemma ChangesRefresh(own: ListId, removes: seq<Item>, adds: seq<Item>, updates: seq<Item>, coe: bool,
                       plan: seq<Step>, list: ListId)
    requires own in {BlockLists, AllowLists} && list in {BlockLists, AllowLists}
    requires plan == Steps(Changes(own, removes, adds, updates), coe)
                     + OneStep(|adds| > 0 || |updates| > 0, RefreshFilters(own == AllowLists), false)
    ensures RefreshedInPlan(plan, list)
  {
    hide Changes, Steps;
    var n := |removes| + |adds| + |updates|;
    forall i | 0 <= i < n
      ensures !Refreshes(plan[i].call, list) && (Enters(plan[i].call, list) <==> own == list && i >= |removes|)
    {
      RemovesFirst(own, removes, adds, updates, i);
    }
    if |plan| > n { RefreshAtEnd(own, plan, list, |removes|, n); }
  }

  lemma RefreshAtEnd(own: ListId, plan: seq<Step>, list: ListId, first: nat, n: nat)
    requires own in {BlockLists, AllowLists} && list in {BlockLists, AllowLists}
    requires first < n && |plan| == n + 1 && plan[n] == Step(RefreshFilters(own == AllowLists), false)
    requires forall i | 0 <= i < n ::
               !Refreshes(plan[i].call, list) && (Enters(plan[i].call, list) <==> own == list && i >= first)
    ensures RefreshedInPlan(plan, list)
  {
    if own == list {
      forall i | 0 <= i < |plan| && Enters(plan[i].call, list) ensures RefreshPlanned(plan, i, list) {
        assert Refreshes(plan[n].call, list);
      }
      assert Enters(plan[first].call, list);
    }
  }

  lemma FiltersPlanRefreshes(ctx: Context, o: Origin, s: Instance, plan: seq<Step>, list: ListId)
    requires IsFiltersPlan(ctx, o, s, plan) && list in {BlockLists, AllowLists}
    ensures RefreshedInPlan(plan, list)
  {
    hide IsFilterPlan, RefreshedInPlan;
    var block, allow :|
      && IsFilterPlan(BlockLists, o.filters, s.lists, ctx.continueOnError, block)
      && IsFilterPlan(AllowLists, o.allowFilters, s.lists, ctx.continueOnError, allow)
      && plan == block + allow + RuleSteps(o.settings, s.settings);
    FilterPlanRefreshes(BlockLists, o.filters, s.lists, ctx.continueOnError, block, list);
    FilterPlanRefreshes(AllowLists, o.allowFilters, s.lists, ctx.continueOnError, allow, list);
    RulesNeedNoRefresh(o.settings, s.settings, list);
    RefreshConcat(block, allow, list);
    RefreshConcat(block + allow, RuleSteps(o.settings, s.settings), list);
  }

  lemma RulesNeedNoRefresh(o: Settings, s: Settings, list: ListId)
    ensures RefreshedInPlan(RuleSteps(o, s), list)
  {
    hide Render;
  }

  predicate RefreshFollows(events: seq<Event>, i: nat, list: ListId)
  {
    exists j :: i < j < |events| && Refreshes(events[j].call, list) && events[j].Ok()
  }

  predicate EntryPrecedes(events: seq<Event>, j: nat, list: ListId)
  {
    exists i :: 0 <= i < j && i < |events| && Enters(events[i].call, list)
  }

  // A list is refreshed, with its own flag, only after an add or an update of it; and in an
  // execution without an error every one of them is followed by such a refresh, with success.
  lemma RefreshesFollowEntries(ctx: Context, run: ActionRun, list: ListId, i: nat)
    requires ValidRun(ctx, run) && run.act.FiltersAction? && list in {BlockLists, AllowLists} && i < |run.events|
    ensures Refreshes(run.events[i].call, list) ==> EntryPrecedes(run.events, i, list)
    ensures !run.err && Enters(run.events[i].call, list) ==> RefreshFollows(run.events, i, list)
  {
    hide IsPlan, Replay, OriginAfter, Typed, Filed, RefreshedInPlan, Enters, Refreshes, RefreshFollows, EntryPrecedes;
    assert i == 0 ==> run.events[0].call.Get?;
    GetsAreNeither(run.events[i].call, list);
    if i > 0 {
      FilterRunPlan(ctx, run);
      FiltersPlanRefreshes(ctx, run.o0, run.s0, run.plan, list);
      hide ValidRun;
      CallsRefresh(run.plan, run.events, run.err, list, i);
    }
  }

  lemma GetsAreNeither(call: Call, list: ListId)
    ensures call.Get? ==> !Enters(call, list) && !Refreshes(call, list)
  {}

  lemma FilterRunPlan(ctx: Context, run: ActionRun)
    requires ValidRun(ctx, run) && run.act.FiltersAction? && |run.events| > 1
    ensures IsFiltersPlan(ctx, run.o0, run.s0, run.plan) && Executes(run.plan, run.events[1..], run.err)
  {
    hide IsFiltersPlan, Replay, Typed, Filed, OriginAfter, Executes;
  }

  lemma CallsRefresh(plan: seq<Step>, events: seq<Event>, err: bool, list: ListId, i: nat)
    requires 0 < i < |events| && Executes(plan, events[1..], err) && RefreshedInPlan(plan, list)
    ensures Refreshes(events[i].call, list) ==> EntryPrecedes(events, i, list)
    ensures !err && Enters(events[i].call, list) ==> RefreshFollows(events, i, list)
  {
    ExecutesCalls(plan, events[1..], err);
    assert !err ==> |events| == |plan| + 1 && forall k | 0 <= k < |plan| :: events[1..][k].Ok() || plan[k].tolerated;
    hide Enters, Refreshes, Executes;
    assert events[i] == events[1..][i - 1];
    if Refreshes(events[i].call, list) { EntryBefore(plan, events, list, i); }
    if !err && Enters(events[i].call, list) { RefreshAfter(plan, events, list, i); }
  }

  lemma EntryBefore(plan: seq<Step>, events: seq<Event>, list: ListId, i: nat)
    requires 0 < i < |events| <= |plan| + 1 && EntryPlanned(plan, i - 1, list)
    requires forall k | 0 <= k < |events| - 1 :: events[1..][k].call == plan[k].call
    ensures EntryPrecedes(events, i, list)
  {
    hide Enters;
    var k :| 0 <= k < i - 1 && k < |plan| && Enters(plan[k].call, list);
    assert events[k + 1] == events[1..][k];
  }

  lemma RefreshAfter(plan: seq<Step>, events: seq<Event>, list: ListId, i: nat)
    requires 0 < i < |events| == |plan| + 1 && RefreshPlanned(plan, i - 1, list)
    requires forall k | 0 <= k < |plan| ::
               events[1..][k].call == plan[k].call && (events[1..][k].Ok() || plan[k].tolerated)
    ensures RefreshFollows(events, i, list)
  {
    hide Refreshes;
    var k :| i - 1 < k < |plan| && Refreshes(plan[k].call, list) && !plan[k].tolerated;
    assert events[k + 1] == events[1..][k];
  }

  // ---- The order of the calls ----

  function FirstStage(list: ListId): nat
  {
    if list == AllowLists then 5 else 1
  }

  function StageOfChange(c: Change): nat
  {
    FirstStage(c.slot.list) + match c case Remove(_, _) => 0 case Add(_, _) => 1 case Update(_, _) => 2
  }

  // The read; of each list deletes, adds, updates and the refresh, blocking filters before
  // allowing ones; the rules or else enabled and interval.
  function Stage(call: Call): nat
  {
    match call
    case Get(_) => 0
    case ListChange(c) => StageOfChange(c)
    case RefreshFilters(whitelist) => if whitelist then 8 else 4
    case SetRules(_) => 9
    case ToggleFiltering(_) => 9
    case DeleteRewrite(_) => 1
    case AddRewrite(_) => 2
    case _ => 1
  }

  // Stages between the two bounds, none before an earlier one; of the last stage one call at most.
  ghost predicate Staged(plan: seq<Step>, from: nat, to: nat)
  {
    && (forall i | 0 <= i < |plan| :: from <= Stage(plan[i].call) <= to)
    && (forall i, j | 0 <= i < j < |plan| :: Stage(plan[i].call) <= Stage(plan[j].call) && Stage(plan[i].call) < 9)
  }

  lemma StagedConcat(a: seq<Step>, b: seq<Step>, from: nat, mid: nat, to: nat)
    requires Staged(a, from, mid) && Staged(b, mid + 1, to) && from <= mid <= to && mid < 9
    ensures Staged(a + b, from, to)
  {
    hide Stage;
  }

  lemma StageOfChanges(list: ListId, removes: seq<Item>, adds: seq<Item>, updates: seq<Item>, i: nat)
    requires i < |removes| + |adds| + |updates|
    ensures StageOfChange(Changes(list, removes, adds, updates)[i])
            == FirstStage(list) + if i < |removes| then 0 else if i < |removes| + |adds| then 1 else 2
  {}

  lemma ChangesStaged(list: ListId, removes: seq<Item>, adds: seq<Item>, updates: seq<Item>, tolerated: bool)
    ensures Staged(Steps(Changes(list, removes, adds, updates), tolerated), FirstStage(list), FirstStage(list) + 2)
  {
    hide Changes, StageOfChange, FirstStage;
    var changes := Changes(list, removes, adds, updates);
    forall i | 0 <= i < |changes|
      ensures StageOfChange(changes[i])
              == FirstStage(list) + if i < |removes| then 0 else if i < |removes| + |adds| then 1 else 2
    {
      StageOfChanges(list, removes, adds, updates, i);
    }
    assert FirstStage(list) <= 5 by { LowStages(list); }
  }

  lemma LowStages(list: ListId)
    ensures FirstStage(list) <= 5
  {}

  lemma FilterPlanStaged(list: ListId, items: seq<Item>, lists: map<Slot, Item>, coe: bool, plan: seq<Step>)
    requires IsFilterPlan(list, items, lists, coe, plan) && list in {BlockLists, AllowLists}
    ensures Staged(plan, FirstStage(list), FirstStage(list) + 3)
  {
    hide ListAdds, ListUpdates, Listing, Staged, Steps, Changes;
    var removes :| IsFilterPlanWith(list, items, lists, coe, plan, removes);
    var adds, updates := ListAdds(list, items, lists), ListUpdates(list, items, lists);
    ChangesStaged(list, removes, adds, updates, coe);
    RefreshStaged(list, |adds| > 0 || |updates| > 0);
    StagedConcat(Steps(Changes(list, removes, adds, updates), coe),
                 OneStep(|adds| > 0 || |updates| > 0, RefreshFilters(list == AllowLists), false),
                 FirstStage(list), FirstStage(list) + 2, FirstStage(list) + 3);
  }

  lemma RefreshStaged(list: ListId, needed: bool)
    requires list in {BlockLists, AllowLists}
    ensures var stage := FirstStage(list) + 3;
            Staged(OneStep(needed, RefreshFilters(list == AllowLists), false), stage, stage)
  {}

  lemma RulesStaged(o: Settings, s: Settings)
    ensures Staged(RuleSteps(o, s), 9, 9)
  {
    hide Render;
  }

  lemma FiltersPlanStaged(ctx: Context, o: Origin, s: Instance, plan: seq<Step>)
    requires IsFiltersPlan(ctx, o, s, plan)
    ensures Staged(plan, 1, 9)
  {
    hide IsFilterPlan, Staged;
    var block, allow :|
      && IsFilterPlan(BlockLists, o.filters, s.lists, ctx.continueOnError, block)
      && IsFilterPlan(AllowLists, o.allowFilters, s.lists, ctx.continueOnError, allow)
      && plan == block + allow + RuleSteps(o.settings, s.settings);
    FilterPlanStaged(BlockLists, o.filters, s.lists, ctx.continueOnError, block);
    FilterPlanStaged(AllowLists, o.allowFilters, s.lists, ctx.continueOnError, allow);
    RulesStaged(o.settings, s.settings);
    StagedConcat(block, allow, 1, 4, 8);
    StagedConcat(block + allow, RuleSteps(o.settings, s.settings), 1, 8, 9);
  }

  lemma WiderStages(plan: seq<Step>, to: nat)
    requires Staged(plan, 1, to) && to <= 9
    ensures Staged(plan, 1, 9)
  {
    hide Stage;
  }

  lemma ListPlansStaged(ctx: Context, act: Action, o: Origin, s: Instance, plan: seq<Step>)
    requires IsPlan(act, ctx, o, s, plan) && (act.ClientsAction? || act.LeasesAction?)
    ensures Staged(plan, 1, 9)
  {
    hide Staged, IsDiff, Listing, Changes, Steps, ListAdds;
    if act.ClientsAction? {
      var removes, adds, updates :|
        && IsDiff(Part(s.lists, ListId.Clients), Wanted(o, ListId.Clients), removes, adds, updates)
        && plan == Steps(Changes(ListId.Clients, removes, adds, updates), ctx.continueOnError);
      ChangesStaged(ListId.Clients, removes, adds, updates, ctx.continueOnError);
    } else {
      var removes :|
        && Listing(removes, Removed(Part(s.lists, Leases), Wanted(o, Leases)))
        && plan == Steps(Changes(Leases, removes, ListAdds(Leases, o.LeaseList(), s.lists), []), ctx.continueOnError);
      ChangesStaged(Leases, removes, ListAdds(Leases, o.LeaseList(), s.lists), [], ctx.continueOnError);
    }
    WiderStages(plan, 3);
  }

  lemma RewritesPlanStaged(o: Origin, s: Instance, plan: seq<Step>)
    requires IsRewritesPlan(o, s, plan)
    ensures Staged(plan, 1, 9)
  {
    hide IsRewriteMerge;
  }

  lemma SmallPlanStaged(act: Action, ctx: Context, o: Origin, s: Instance, plan: seq<Step>)
    requires IsPlan(act, ctx, o, s, plan) && |plan| <= 1
    ensures Staged(plan, 1, 9)
  {
    hide IsPlan;
    PlanOwned(act, ctx, o, s, plan);
    assert plan != [] ==> Owns(act, plan[0].call);
  }

  lemma PlanStaged(act: Action, ctx: Context, o: Origin, s: Instance, plan: seq<Step>)
    requires IsPlan(act, ctx, o, s, plan)
    ensures Staged(plan, 1, 9)
  {
    hide Staged, IsFiltersPlan, IsRewritesPlan, IsClientsPlan, IsLeasesPlan, IsDhcpPlan;
    if act.FiltersAction? {
      FiltersPlanStaged(ctx, o, s, plan);
    } else if act.RewritesAction? {
      RewritesPlanStaged(o, s, plan);
    } else if act.ClientsAction? || act.LeasesAction? {
      ListPlansStaged(ctx, act, o, s, plan);
    } else {
      AtMostOne(ctx, act, o, s, plan);
      SmallPlanStaged(act, ctx, o, s, plan);
    }
  }

  // In every execution the calls come in stages: the read first and only once, then per list
  // deletes, adds, updates and the refresh, and at most one call for the rules.
  lemma CallsComeInStages(ctx: Context, run: ActionRun, i: nat, j: nat)
    requires ValidRun(ctx, run) && i < j < |run.events|
    ensures Stage(run.events[i].call) <= Stage(run.events[j].call)
    ensures 0 < Stage(run.events[j].call) && Stage(run.events[i].call) < 9
  {
    hide IsPlan, Replay, OriginAfter, Typed, Filed, Stage;
    var n := Reads(run.act, run.o0);
    PlanStaged(run.act, ctx, run.o0, run.s0, run.plan);
    ExecutesCalls(run.plan, run.events[n..], run.err);
    assert run.events[j] == run.events[n..][j - n];
    if i >= n { assert run.events[i] == run.events[n..][i - n]; } else { ReadIsFirstStage(run.events[i].call); }
  }

  lemma ReadIsFirstStage(call: Call)
    requires call.Get?
    ensures Stage(call) == 0
  {}

  // ---- What an action leaves in memory ----

  // A client is looked at if the replica has one of its name and no later one has it too.
  predicate LookedAt(clients: seq<Item>, s: Instance, i: nat)
    requires i < |clients|
  {
    && Slot(ListId.Clients, clients[i].Key()) in s.lists
    && forall j | 0 <= j < |clients| && clients[j].Key() == clients[i].Key() :: j <= i
  }

  ghost predicate ClientsTidied(before: seq<Item>, s: Instance, after: seq<Item>)
  {
    && |after| == |before|
    && forall i | 0 <= i < |before| ::
         before[i].Client? && after[i] == if LookedAt(before, s, i) then Tidied(before[i]) else before[i]
  }

  lemma ClientsInMemory(ctx: Context, run: ActionRun)
    requires ValidRun(ctx, run) && run.act.ClientsAction? && !ReadFailed(run)
    ensures run.o1 == run.o0.(clients := run.o1.clients) && ClientsTidied(run.o0.clients, run.s0, run.o1.clients)
  {
    hide IsPlan, Executes, Replay, Filed, Touched, Tidied;
    assert AllBelong(ListId.Clients, run.o0.List(ListId.Clients));
    forall i | 0 <= i < |run.o0.clients|
      ensures run.o0.clients[i].Client?
      ensures run.o1.clients[i] ==
              if LookedAt(run.o0.clients, run.s0, i) then Tidied(run.o0.clients[i]) else run.o0.clients[i]
    {
      TouchedIs(run.o0.clients[i]);
      assert Compared(run.o0.clients, Part(run.s0.lists, ListId.Clients), i) == LookedAt(run.o0.clients, run.s0, i);
    }
  }

  lemma ServicesInMemory(ctx: Context, run: ActionRun)
    requires ValidRun(ctx, run) && run.act.ServicesAction? && !ReadFailed(run)
    ensures var services := run.o0.settings.services;
            run.o1 == run.o0.(settings := run.o0.settings.(services :=
              if run.plan == [] then services else services.(ids := Alphabetical(services.ids))))
  {
    hide Executes, Replay, Filed, Typed;
  }

  lemma AccessInMemory(ctx: Context, run: ActionRun)
    requires ValidRun(ctx, run) && run.act.AccessAction? && !ReadFailed(run)
    ensures run.o1 == run.o0.(settings := run.o0.settings.(access := run.o1.settings.access))
    ensures var a, s, left := run.o0.settings.access, run.s0.settings.access, run.o1.settings.access;
      && left.allowed == SortedIfReached(a.allowed, s.allowed, true)
      && left.disallowed == SortedIfReached(a.disallowed, s.disallowed, SameStrings(a.allowed, s.allowed))
      && left.blockedHosts ==
         SortedIfReached(a.blockedHosts, s.blockedHosts,
                         SameStrings(a.allowed, s.allowed) && SameStrings(a.disallowed, s.disallowed))
  {
    ComparedAccess(run.o0.settings.access, run.s0.settings.access);
    hide IsPlan, Executes, Replay, Filed, Typed, AccessTouched, SameStrings;
  }

  // Whatever fails, an action leaves the configuration that all replicas share as it is, but
  // for the clients, services and access lists it has looked at: clients that were compared
  // are sorted and lose the time zone beside a day, ids are sorted if services are written,
  // access lists as far as they were compared.
  lemma MemoryAfter(ctx: Context, run: ActionRun)
    requires ValidRun(ctx, run)
    ensures ReadFailed(run) || !(run.act.ClientsAction? || run.act.ServicesAction? || run.act.AccessAction?) ==>
              run.o1 == run.o0
    ensures !ReadFailed(run) && run.act.ClientsAction? ==>
              run.o1 == run.o0.(clients := run.o1.clients) && ClientsTidied(run.o0.clients, run.s0, run.o1.clients)
    ensures !ReadFailed(run) && run.act.ServicesAction? ==>
              var services := run.o0.settings.services;
              run.o1 == run.o0.(settings := run.o0.settings.(services :=
                if run.plan == [] then services else services.(ids := Alphabetical(services.ids))))
    ensures !ReadFailed(run) && run.act.AccessAction? ==>
              run.o1 == run.o0.(settings := run.o0.settings.(access := run.o1.settings.access))
              && AccessEq(run.o1.settings.access, run.o0.settings.access)
  {
    hide ClientsTidied, Alphabetical, AccessEq;
    if !ReadFailed(run) {
      if run.act.ClientsAction? { ClientsInMemory(ctx, run); }
      if run.act.ServicesAction? { ServicesInMemory(ctx, run); }
      if run.act.AccessAction? {
        AccessInMemory(ctx, run);
        AccessTouchedEq(run.o0.settings.access, run.s0.settings.access);
      }
    }
    hide IsPlan, Executes, Replay, Filed, Typed, AccessTouched, MergedClients, LoggedServices;
  }
}
