// Whose calls are whose: no action but the owner of a setting touches it, and everything
// written is filed under its own key.

module Ownership {
  import opened Values
  import opened Server
  import opened Merging
  import opened Plans
  import opened NeverStale

  ghost predicate OwnedSettingsSame(act: Action, x: Settings, y: Settings)
  {
    match act
    case ProfileAction => x.profile == y.profile
    case ProtectionAction => x.protection == y.protection
    case ParentalAction => x.parental == y.parental
    case SafeSearchAction => x.safeSearch == y.safeSearch
    case SafeBrowsingAction => x.safeBrowsing == y.safeBrowsing
    case DnsAction => x.dns == y.dns
    case QueryLogAction => x.queryLog == y.queryLog
    case StatsAction => x.stats == y.stats
    case FiltersAction => x.userRules == y.userRules && x.filtering == y.filtering
    case ServicesAction => x.services == y.services
    case AccessAction => x.access == y.access
    case DhcpConfigAction => x.dhcp == y.dhcp
    case TlsAction => x.tls == y.tls
    case _ => true
  }

  ghost predicate OwnedListsSame(act: Action, a: map<Slot, Item>, b: map<Slot, Item>)
  {
    forall slot: Slot | WorksOn(act, slot.list) :: SameAt(a, b, slot)
  }

  // The part of a replica that belongs to an action is the same in both states.
  ghost predicate OwnedSame(act: Action, a: Instance, b: Instance)
  {
    && OwnedSettingsSame(act, a.settings, b.settings)
    && OwnedListsSame(act, a.lists, b.lists)
    && (act.RewritesAction? ==> a.rewrites == b.rewrites)
  }

  lemma OwnedSameTransitive(act: Action, a: Instance, b: Instance, c: Instance)
    requires OwnedSame(act, a, b) && OwnedSame(act, b, c)
    ensures OwnedSame(act, a, c)
  {}

  lemma OwnedSameSymmetric(act: Action, a: Instance, b: Instance)
    requires OwnedSame(act, a, b)
    ensures OwnedSame(act, b, a)
  {}

  // The DNS configuration carries the protection flag as well.
  predicate MayTouch(call: Call, act: Action)
  {
    Owns(act, call) || (act.ProtectionAction? && call.SetDns?)
  }

  lemma OthersKeepSettings(act: Action, s: Settings, call: Call)
    requires !MayTouch(call, act)
    ensures OwnedSettingsSame(act, s, Configured(s, call))
  {}

  lemma OthersKeep(act: Action, s: Instance, e: Event)
    requires !MayTouch(e.call, act)
    ensures OwnedSame(act, s, After(s, e))
  {
    OthersKeepSettings(act, s.settings, e.call);
    hide Configured, OwnedSettingsSame;
    OwnSettingsReflexive(act, s.settings);
  }

  lemma OwnSettingsReflexive(act: Action, s: Settings)
    ensures OwnedSettingsSame(act, s, s)
  {}

  lemma {:induction false} OthersKeepAll(act: Action, s: Instance, events: seq<Event>)
    requires forall i | 0 <= i < |events| :: !MayTouch(events[i].call, act)
    ensures OwnedSame(act, s, Replay(s, events))
  {
    if events != [] {
      var before := events[..|events| - 1];
      OthersKeepAll(act, s, before);
      OthersKeep(act, Replay(s, before), events[|events| - 1]);
      OwnedSameTransitive(act, s, Replay(s, before), Replay(s, events));
    }
  }

  lemma ExecutedCallsOwned(act: Action, plan: seq<Step>, events: seq<Event>, err: bool)
    requires AllOwned(act, plan) && Executes(plan, events, err)
    ensures forall i | 0 <= i < |events| :: Owns(act, events[i].call)
  {
    hide Owns;
    ExecutesCalls(plan, events, err);
  }

  // The calls of a run are its read and calls of its own.
  lemma RunOwnsItsCalls(ctx: Context, run: ActionRun)
    requires ValidRun(ctx, run)
    ensures forall i | 0 <= i < |run.events| :: run.events[i].call.Get? || Owns(run.act, run.events[i].call)
  {
    hide Owns, IsPlan, Executes, Replay, OriginAfter, AllOwned;
    var n := Reads(run.act, run.o0);
    if !ReadFailed(run) {
      PlanOwned(run.act, ctx, run.o0, run.s0, run.plan);
      ExecutedCallsOwned(run.act, run.plan, run.events[n..], run.err);
      forall i | n <= i < |run.events| ensures Owns(run.act, run.events[i].call) {
        assert run.events[i] == run.events[n..][i - n];
      }
    }
  }

  // An action leaves the part of every other action alone, except that setting the DNS
  // configuration also sets the protection flag.
  lemma OnlyTheOwnerChanges(ctx: Context, run: ActionRun, act: Action)
    requires ValidRun(ctx, run) && act != run.act
    requires !(act.ProtectionAction? && run.act.DnsAction?)
    ensures OwnedSame(act, run.s0, run.s1)
  {
    RunOwnsItsCalls(ctx, run);
    OwnedCallsKeep(run.act, act, run.s0, run.events);
  }

  lemma OwnedCallsKeep(owner: Action, act: Action, s: Instance, events: seq<Event>)
    requires forall i | 0 <= i < |events| :: events[i].call.Get? || Owns(owner, events[i].call)
    requires act != owner && !(act.ProtectionAction? && owner.DnsAction?)
    ensures OwnedSame(act, s, Replay(s, events))
  {
    forall i | 0 <= i < |events| ensures !MayTouch(events[i].call, act) {
      OneOwner(owner, act, events[i].call);
    }
    hide OwnedSame, Replay, MayTouch, Owns;
    OthersKeepAll(act, s, events);
  }

  lemma OneOwner(owner: Action, act: Action, call: Call)
    requires call.Get? || Owns(owner, call)
    requires act != owner && !(act.ProtectionAction? && owner.DnsAction?)
    ensures !MayTouch(call, act)
  {}

  // Filing is kept by every event of a run.
  lemma FiledStep(s: Instance, e: Event)
    requires Filed(s)
    requires e.call.ListChange? && !e.call.change.Remove? ==>
               && Belongs(e.call.change.slot.list, e.call.change.item)
               && e.call.change.item.Key() == e.call.change.slot.key
    ensures Filed(After(s, e))
  {}

  lemma {:induction false} FiledRun(s: Instance, events: seq<Event>)
    requires Filed(s)
    requires forall i | 0 <= i < |events| && events[i].call.ListChange? && !events[i].call.change.Remove? ::
        Belongs(events[i].call.change.slot.list, events[i].call.change.item)
        && events[i].call.change.item.Key() == events[i].call.change.slot.key
    ensures Filed(Replay(s, events))
  {
    if events != [] {
      FiledRun(s, events[..|events| - 1]);
      FiledStep(Replay(s, events[..|events| - 1]), events[|events| - 1]);
    }
  }

  // Every entry a plan adds or updates is of the right kind and goes to its own slot.
  ghost predicate FiledSteps(plan: seq<Step>)
  {
    forall i | 0 <= i < |plan| && plan[i].call.ListChange? && !plan[i].call.change.Remove? ::
      Belongs(plan[i].call.change.slot.list, plan[i].call.change.item)
      && plan[i].call.change.item.Key() == plan[i].call.change.slot.key
  }

  lemma {:induction false} SliceBelongs(list: ListId, current: map<string, Item>, items: seq<Item>, n: nat)
    requires AllBelong(list, items) && n <= |items|
    ensures AllBelong(list, SliceAdds(current, items, n)) && AllBelong(list, SliceUpdates(current, items, n))
  {
    if n > 0 { SliceBelongs(list, current, items, n - 1); }
  }

  lemma StepsFiled(list: ListId, removes: seq<Item>, adds: seq<Item>, updates: seq<Item>, tolerated: bool)
    requires AllBelong(list, adds) && AllBelong(list, updates)
    ensures FiledSteps(Steps(Changes(list, removes, adds, updates), tolerated))
  {
    var changes := Changes(list, removes, adds, updates);
    forall i | 0 <= i < |changes| && !changes[i].Remove?
      ensures Belongs(changes[i].slot.list, changes[i].item) && changes[i].item.Key() == changes[i].slot.key
    {
      ChangeAt(list, removes, adds, updates, i);
    }
  }

  lemma FilterPlanFiled(list: ListId, items: seq<Item>, lists: map<Slot, Item>, coe: bool, plan: seq<Step>)
    requires AllBelong(list, items) && IsFilterPlan(list, items, lists, coe, plan)
    ensures FiledSteps(plan)
  {
    var removes :| IsFilterPlanWith(list, items, lists, coe, plan, removes);
    SliceBelongs(list, Part(lists, list), items, |items|);
    StepsFiled(list, removes, ListAdds(list, items, lists), ListUpdates(list, items, lists), coe);
    hide Changes, ListAdds, ListUpdates, Listing, Belongs;
  }

  lemma TypedLists(o: Origin)
    requires Typed(o)
    ensures AllBelong(BlockLists, o.filters) && AllBelong(AllowLists, o.allowFilters)
    ensures AllBelong(Clients, o.clients) && AllBelong(Leases, o.LeaseList())
    ensures forall list :: AllBelong(list, [])
  {
    assert AllBelong(BlockLists, o.List(BlockLists)) && AllBelong(AllowLists, o.List(AllowLists));
    assert AllBelong(Clients, o.List(Clients)) && AllBelong(Leases, o.List(Leases));
  }

  lemma RulesFiled(o: Settings, s: Settings)
    ensures FiledSteps(RuleSteps(o, s))
  {}

  lemma FiledConcat(a: seq<Step>, b: seq<Step>)
    requires FiledSteps(a) && FiledSteps(b)
    ensures FiledSteps(a + b)
  {}

  lemma FiltersPlanFiled(ctx: Context, o: Origin, s: Instance, plan: seq<Step>)
    requires Typed(o) && IsFiltersPlan(ctx, o, s, plan)
    ensures FiledSteps(plan)
  {
    hide IsFilterPlan, AllBelong, Typed, FiledSteps, RuleSteps;
    var coe := ctx.continueOnError;
    TypedLists(o);
    RulesFiled(o.settings, s.settings);
    var block, allow :|
      && IsFilterPlan(BlockLists, o.filters, s.lists, coe, block)
      && IsFilterPlan(AllowLists, o.allowFilters, s.lists, coe, allow)
      && plan == block + allow + RuleSteps(o.settings, s.settings);
    FilterPlanFiled(BlockLists, o.filters, s.lists, coe, block);
    FilterPlanFiled(AllowLists, o.allowFilters, s.lists, coe, allow);
    FiledConcat(block, allow);
    FiledConcat(block + allow, RuleSteps(o.settings, s.settings));
  }

  lemma ClientsPlanFiled(ctx: Context, o: Origin, s: Instance, plan: seq<Step>)
    requires Typed(o) && IsClientsPlan(ctx, o, s, plan)
    ensures FiledSteps(plan)
  {
    var removes, adds, updates :|
      && IsDiff(Part(s.lists, Clients), Wanted(o, Clients), removes, adds, updates)
      && plan == Steps(Changes(Clients, removes, adds, updates), ctx.continueOnError);
    assert AllBelong(Clients, o.List(Clients));
    forall k | k in Wanted(o, Clients) ensures Wanted(o, Clients)[k].Client? {
      IndexHas(o.clients, |o.clients|, k);
    }
    assert AllBelong(Clients, adds) && AllBelong(Clients, updates);
    StepsFiled(Clients, removes, adds, updates, ctx.continueOnError);
  }

  lemma LeasesPlanFiled(ctx: Context, o: Origin, s: Instance, plan: seq<Step>)
    requires Typed(o) && IsLeasesPlan(ctx, o, s, plan)
    ensures FiledSteps(plan)
  {
    hide Typed, Listing, Changes, SliceAdds, SliceUpdates, FiledSteps, AllBelong, Steps;
    TypedLists(o);
    var removes :|
      && Listing(removes, Removed(Part(s.lists, Leases), Wanted(o, Leases)))
      && plan == Steps(Changes(Leases, removes, ListAdds(Leases, o.LeaseList(), s.lists), []), ctx.continueOnError);
    SliceBelongs(Leases, Part(s.lists, Leases), o.LeaseList(), |o.LeaseList()|);
    StepsFiled(Leases, removes, ListAdds(Leases, o.LeaseList(), s.lists), [], ctx.continueOnError);
  }

  lemma PlanFiled(act: Action, ctx: Context, o: Origin, s: Instance, plan: seq<Step>)
    requires Typed(o) && IsPlan(act, ctx, o, s, plan)
    ensures FiledSteps(plan)
  {
    hide IsFiltersPlan, IsClientsPlan, IsLeasesPlan, Typed;
    if act.FiltersAction? {
      FiltersPlanFiled(ctx, o, s, plan);
    } else if act.ClientsAction? {
      ClientsPlanFiled(ctx, o, s, plan);
    } else if act.LeasesAction? {
      LeasesPlanFiled(ctx, o, s, plan);
    } else {
      PlanOwned(act, ctx, o, s, plan);
      hide IsPlan;
    }
  }

  // Whatever fails and whatever the origin repeats, a run leaves every entry filed.
  lemma RunKeepsFiled(ctx: Context, run: ActionRun)
    requires ValidRun(ctx, run)
    ensures Filed(run.s1)
  {
    hide IsPlan, Executes, Filed, OriginAfter, Typed;
    var n := Reads(run.act, run.o0);
    if !ReadFailed(run) {
      PlanFiled(run.act, ctx, run.o0, run.s0, run.plan);
      ExecutesCalls(run.plan, run.events[n..], run.err);
      forall i | n <= i < |run.events| ensures run.events[i].call == run.plan[i - n].call {
        assert run.events[i] == run.events[n..][i - n];
      }
    }
    FiledRun(run.s0, run.events);
  }
}
