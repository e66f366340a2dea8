// What one error-free execution of an action achieves, and when an action has nothing
// left to do.

module Convergence {
  import opened Values
  import opened Server
  import opened Merging
  import opened Plans
  import opened NeverStale
  import Evolution

  // ---- One slot after an error-free execution ----

  // The entry a slot ends up with.
  ghost predicate Reached(o: Origin, before: map<Slot, Item>, after: map<Slot, Item>, slot: Slot, given: bool)
  {
    if !Differs(o, before, slot) then SameAt(after, before, slot)
    else if !Wants(o, slot) then slot !in after
    else slot in after && after[slot] == if slot in before then Sent(Want(o, slot)) else Stored(Want(o, slot), given)
  }

  // The flags the server picks for added filters, by slot.
  ghost predicate GivenBy(flags: Slot -> bool, events: seq<Event>)
  {
    forall k | 0 <= k < |events| && events[k].call.ListChange? :: events[k].given == flags(events[k].call.change.slot)
  }

  lemma UntouchedWhenSame(o: Origin, s: Instance, plan: seq<Step>, events: seq<Event>, slot: Slot)
    requires SoundPlan(o, s.lists, plan) && Executes(plan, events, false) && !Differs(o, s.lists, slot)
    ensures SameAt(Replay(s, events).lists, s.lists, slot)
  {
    forall i | 0 <= i < |events| ensures !Touches(events[i].call, slot) {}
    UntouchedSlot(s, events, slot);
  }

  // A slot that differed is changed by exactly one call, and holds the wanted entry.
  lemma FinalSlot(o: Origin, s: Instance, plan: seq<Step>, events: seq<Event>, slot: Slot) returns (given: bool)
    requires SoundPlan(o, s.lists, plan) && CompletePlan(slot.list, o, s.lists, plan)
    requires Executes(plan, events, false) && AllOk(events)
    ensures Reached(o, s.lists, Replay(s, events).lists, slot, given)
    ensures forall flags :: GivenBy(flags, events) && Differs(o, s.lists, slot) ==> given == flags(slot)
  {
    given := false;
    if !Differs(o, s.lists, slot) {
      UntouchedWhenSame(o, s, plan, events, slot);
    } else {
      var k :| 0 <= k < |plan| && Touches(plan[k].call, slot);
      given := events[k].given;
      TouchedOnce(s, events, k);
    }
  }

  // ---- When a plan is empty ----

  lemma EmptyListing(items: seq<Item>, m: map<string, Item>)
    requires Listing(items, m)
    ensures items == [] <==> m == map[]
  {
    if items != [] { assert items[0].Key() in m; }
  }

  ghost predicate ListAgrees(list: ListId, o: Origin, lists: map<Slot, Item>)
  {
    forall slot: Slot | slot.list == list :: !Differs(o, lists, slot)
  }

  lemma AgreementMaps(list: ListId, o: Origin, lists: map<Slot, Item>)
    ensures ListAgrees(list, o, lists) <==>
            Removed(Part(lists, list), Wanted(o, list)) == map[]
            && Added(Part(lists, list), Wanted(o, list)) == map[]
            && Updated(Part(lists, list), Wanted(o, list)) == map[]
  {
    var cur, exp := Part(lists, list), Wanted(o, list);
    forall slot: Slot | slot.list == list
      ensures Differs(o, lists, slot) <==>
              slot.key in Removed(cur, exp) || slot.key in Added(cur, exp) || slot.key in Updated(cur, exp)
    {}
    if ListAgrees(list, o, lists) {
      forall k ensures k !in Removed(cur, exp) && k !in Added(cur, exp) && k !in Updated(cur, exp) {
        assert !Differs(o, lists, Slot(list, k));
      }
    }
  }

  // A client plan is empty exactly when the client lists agree.
  lemma ClientsQuiescent(ctx: Context, o: Origin, s: Instance, plan: seq<Step>)
    requires IsClientsPlan(ctx, o, s, plan)
    ensures plan == [] <==> ListAgrees(Clients, o, s.lists)
  {
    var removes, adds, updates :|
      && IsDiff(Part(s.lists, Clients), Wanted(o, Clients), removes, adds, updates)
      && plan == Steps(Changes(Clients, removes, adds, updates), ctx.continueOnError);
    hide IsClientsPlan, Listing, Removed, Added, Updated, ListAgrees, Wanted;
    EmptyListing(removes, Removed(Part(s.lists, Clients), Wanted(o, Clients)));
    EmptyListing(adds, Added(Part(s.lists, Clients), Wanted(o, Clients)));
    EmptyListing(updates, Updated(Part(s.lists, Clients), Wanted(o, Clients)));
    AgreementMaps(Clients, o, s.lists);
  }

  lemma RepeatedKeyIsAdded(current: map<string, Item>, items: seq<Item>)
    requires !DistinctKeys(items)
    ensures SliceAdds(current, items, |items|) != []
  {
    var i, j :| 0 <= i < j < |items| && items[i].Key() == items[j].Key();
    IndexHas(items, j, items[j].Key());
    var p := SliceAddsAt(current, items, j);
  }

  lemma FilterPlanEmpty(list: ListId, o: Origin, lists: map<Slot, Item>, coe: bool, plan: seq<Step>)
    requires list == BlockLists || list == AllowLists
    requires AllBelong(list, o.List(list))
    requires IsFilterPlan(list, o.List(list), lists, coe, plan)
    ensures plan == [] <==> ListAgrees(list, o, lists) && DistinctKeys(o.List(list))
  {
    var items := o.List(list);
    var removes :| IsFilterPlanWith(list, items, lists, coe, plan, removes);
    var adds, updates := ListAdds(list, items, lists), ListUpdates(list, items, lists);
    assert plan == [] <==> removes == [] && adds == [] && updates == [];
    EmptyListing(removes, Removed(Part(lists, list), ByKey(items)));
    if DistinctKeys(items) {
      DistinctSliceAdds(Part(lists, list), items, |items|);
      DistinctSliceUpdates(Part(lists, list), items, |items|);
      EmptyListing(adds, Added(Part(lists, list), ByKey(items)));
      EmptyListing(updates, Updated(Part(lists, list), ByKey(items)));
      AgreementMaps(list, o, lists);
    } else {
      RepeatedKeyIsAdded(Part(lists, list), items);
    }
  }

  // Everything actionFilters looks at agrees: both lists in URL, name and enabled, the
  // rendered user rules, and enabled and interval.
  ghost predicate FiltersAgree(o: Origin, s: Instance)
  {
    && ListAgrees(BlockLists, o, s.lists) && ListAgrees(AllowLists, o, s.lists)
    && Render(o.settings.userRules) == Render(s.settings.userRules)
    && o.settings.filtering == s.settings.filtering
  }

  // A filter plan, including its refreshes, is empty exactly when all of that agrees
  // and the origin repeats no URL within a list.
  lemma FiltersQuiescent(ctx: Context, o: Origin, s: Instance, plan: seq<Step>)
    requires Typed(o) && IsFiltersPlan(ctx, o, s, plan)
    ensures plan == [] <==> FiltersAgree(o, s) && DistinctKeys(o.filters) && DistinctKeys(o.allowFilters)
  {
    var coe := ctx.continueOnError;
    var block, allow :|
      && IsFilterPlan(BlockLists, o.filters, s.lists, coe, block)
      && IsFilterPlan(AllowLists, o.allowFilters, s.lists, coe, allow)
      && plan == block + allow + RuleSteps(o.settings, s.settings);
    hide IsFilterPlan, IsFiltersPlan, ListAgrees, DistinctKeys;
    assert o.List(BlockLists) == o.filters && o.List(AllowLists) == o.allowFilters;
    assert AllBelong(BlockLists, o.List(BlockLists)) && AllBelong(AllowLists, o.List(AllowLists));
    FilterPlanEmpty(BlockLists, o, s.lists, coe, block);
    FilterPlanEmpty(AllowLists, o, s.lists, coe, allow);
  }

  lemma LeasePlanEmpty(o: Origin, s: Instance, removes: seq<Item>)
    requires Typed(o) && Filed(s)
    requires Listing(removes, Removed(Part(s.lists, Leases), Wanted(o, Leases)))
    ensures removes == [] && ListAdds(Leases, o.LeaseList(), s.lists) == [] <==>
            ListAgrees(Leases, o, s.lists) && DistinctKeys(o.LeaseList())
  {
    LeasesNeverUpdated(o, s);
    assert o.List(Leases) == o.LeaseList();
    hide Typed, Filed, ListAgrees, SliceAdds, Listing, Removed, Updated, DistinctKeys;
    EmptyListing([], Updated(Part(s.lists, Leases), Wanted(o, Leases)));
    EmptyListing(removes, Removed(Part(s.lists, Leases), Wanted(o, Leases)));
    AgreementMaps(Leases, o, s.lists);
    hide Added;
    if DistinctKeys(o.LeaseList()) {
      DistinctSliceAdds(Part(s.lists, Leases), o.LeaseList(), |o.LeaseList()|);
      EmptyListing(ListAdds(Leases, o.LeaseList(), s.lists), Added(Part(s.lists, Leases), Wanted(o, Leases)));
    } else {
      RepeatedKeyIsAdded(Part(s.lists, Leases), o.LeaseList());
    }
  }

  // A lease plan is empty exactly when the MACs agree and the origin repeats none.
  lemma LeasesQuiescent(ctx: Context, o: Origin, s: Instance, plan: seq<Step>)
    requires Typed(o) && Filed(s) && IsLeasesPlan(ctx, o, s, plan)
    ensures plan == [] <==> ListAgrees(Leases, o, s.lists) && DistinctKeys(o.LeaseList())
  {
    hide Typed, Filed, ListAgrees, ListAdds, Listing, DistinctKeys;
    var removes :|
      && Listing(removes, Removed(Part(s.lists, Leases), Wanted(o, Leases)))
      && plan == Steps(Changes(Leases, removes, ListAdds(Leases, o.LeaseList(), s.lists), []), ctx.continueOnError);
    LeasePlanEmpty(o, s, removes);
  }

  lemma EmptyBag(s: seq<RewriteEntry>)
    ensures s == [] <==> KeyBag(s) == multiset{}
  {
    if s != [] { assert s[|s| - 1].Key() in KeyBag(s); }
  }

  lemma RewritesQuiescent(o: Origin, s: Instance, plan: seq<Step>)
    requires IsRewritesPlan(o, s, plan)
    ensures plan == [] <==> KeyBag(s.rewrites) == KeyOnce(o.rewrites)
  {
    var removes, adds := RewritesPlanIsDiff(o, s, plan);
    assert plan == [] <==> removes == [] && adds == [];
    hide KeyBag, KeyOnce, RewriteSteps, IsRewritesPlan;
    EmptyBag(removes);
    EmptyBag(adds);
    BagsEqual(KeyBag(s.rewrites), KeyOnce(o.rewrites));
  }

  lemma BagsEqual(a: multiset<string>, b: multiset<string>)
    ensures a == b <==> a - b == multiset{} && b - a == multiset{}
  {
    if a - b == multiset{} && b - a == multiset{} {
      forall k ensures a[k] == b[k] {
        assert (a - b)[k] == 0 && (b - a)[k] == 0;
      }
    }
  }

  // ---- One error-free round ----

  // The calls of an action after its read.
  function AfterTheRead(run: ActionRun): seq<Event>
    requires Reads(run.act, run.o0) <= |run.events|
  {
    run.events[Reads(run.act, run.o0)..]
  }

  lemma ErrorFree(ctx: Context, run: ActionRun)
    requires ValidRun(ctx, run) && AllOk(run.events)
    ensures Reads(run.act, run.o0) <= |run.events|
    ensures !ReadFailed(run) && !run.err && IsPlan(run.act, ctx, run.o0, run.s0, run.plan)
    ensures Executes(run.plan, AfterTheRead(run), false) && AllOk(AfterTheRead(run))
    ensures run.s1 == Replay(run.s0, AfterTheRead(run))
  {
    hide IsPlan;
    var n := Reads(run.act, run.o0);
    AfterRead(run.s0, run.events, n, |run.events|);
    var events := AfterTheRead(run);
    assert run.events[..|run.events|] == run.events && events[..|events|] == events;
  }

  // Rewrites: each distinct origin key exactly once.
  lemma RewritesConverge(ctx: Context, run: ActionRun)
    requires ValidRun(ctx, run) && run.act.RewritesAction? && AllOk(run.events)
    ensures KeyBag(run.s1.rewrites) == KeyOnce(run.o0.rewrites)
  {
    ErrorFree(ctx, run);
    hide ValidRun;
    RewritePlanConverges(run.o0, run.s0, run.plan, AfterTheRead(run));
  }

  lemma AllRewritesDone(s: seq<RewriteEntry>, now: seq<RewriteEntry>, removes: seq<RewriteEntry>,
                        adds: seq<RewriteEntry>)
    requires RewritesAfter(s, now, removes, adds, |removes| + |adds|)
    ensures KeyBag(now) == KeyBag(s) - KeyBag(removes) + KeyBag(adds)
  {
    KeyBagEmpty();
    assert removes[..|removes|] == removes && adds[..|adds|] == adds;
    hide KeyBag;
  }

  lemma RewritePlanConverges(o: Origin, s: Instance, plan: seq<Step>, events: seq<Event>)
    requires IsRewritesPlan(o, s, plan) && Executes(plan, events, false)
    ensures KeyBag(Replay(s, events).rewrites) == KeyOnce(o.rewrites)
  {
    var removes, adds := RewritesPlanIsDiff(o, s, plan);
    hide KeyBag, KeyOnce, RewriteSteps, Replay, RewritesAfter, Underway;
    RewritesTracked(s, removes, adds, events);
    AllRewritesDone(s.rewrites, Replay(s, events).rewrites, removes, adds);
    RewriteConservation(s.rewrites, o.rewrites, removes, adds);
  }

  // Every slot of the lists an action works on ends up as wanted.
  lemma ListRound(ctx: Context, run: ActionRun, slot: Slot) returns (given: bool)
    requires ValidRun(ctx, run) && CleanFor(run.act, run.o0) && AllOk(run.events) && WorksOn(run.act, slot.list)
    ensures Reached(run.o0, run.s0.lists, run.s1.lists, slot, given)
    ensures forall flags :: GivenBy(flags, run.events) && Differs(run.o0, run.s0.lists, slot) ==> given == flags(slot)
  {
    ErrorFree(ctx, run);
    PlanSound(run.act, ctx, run.o0, run.s0, run.plan);
    hide ValidRun, IsPlan;
    given := FinalSlot(run.o0, run.s0, run.plan, AfterTheRead(run), slot);
    assert forall flags :: GivenBy(flags, run.events) ==> GivenBy(flags, AfterTheRead(run));
  }

  // ---- Clients ----

  // An update of a client whose schedule has both a day and a time zone sends it
  // without the time zone.
  ghost predicate SpoiledUpdate(o: Origin, lists: map<Slot, Item>, slot: Slot)
  {
    slot.list == Clients && slot in lists && Wants(o, slot) && Differs(o, lists, slot) && Lossy(Want(o, slot))
  }

  lemma SentIsSame(o: Origin, slot: Slot)
    requires Typed(o) && Wants(o, slot)
    ensures Same(Sent(Want(o, slot)), Want(o, slot)) <==> !Lossy(Want(o, slot))
    ensures Same(Want(o, slot), Want(o, slot))
  {
    Evolution.WantBelongs(o, slot);
    if Want(o, slot).Client? { ComparingSpoilsExactlyLossy(Want(o, slot)); }
  }

  // One error-free round leaves the client lists in agreement exactly when it had no
  // such update to make.
  lemma ClientsConverge(ctx: Context, run: ActionRun)
    requires ValidRun(ctx, run) && run.act.ClientsAction? && AllOk(run.events)
    ensures ListAgrees(Clients, run.o0, run.s1.lists) <==>
            forall slot :: !SpoiledUpdate(run.o0, run.s0.lists, slot)
    ensures forall slot: Slot | slot.list == Clients :: slot in run.s1.lists <==> Wants(run.o0, slot)
  {
    var o := run.o0;
    forall slot: Slot | slot.list == Clients
      ensures Differs(o, run.s1.lists, slot) <==> SpoiledUpdate(o, run.s0.lists, slot)
      ensures slot in run.s1.lists <==> Wants(o, slot)
    {
      hide AllOk;
      var given := ListRound(ctx, run, slot);
      hide ValidRun, Want, Wants;
      if Wants(o, slot) {
        SentIsSame(o, slot);
        Evolution.WantBelongs(o, slot);
      }
    }
  }

  // ... and then, and only then, a second run against the same origin makes no call
  // after its read.
  lemma ClientsSecondRun(ctx: Context, run: ActionRun, again: ActionRun)
    requires ValidRun(ctx, run) && run.act.ClientsAction? && AllOk(run.events)
    requires ValidRun(ctx, again) && again.act.ClientsAction? && AllOk(again.events)
    requires again.o0 == run.o0 && again.s0 == run.s1
    ensures AfterTheRead(again) == [] <==> forall slot :: !SpoiledUpdate(run.o0, run.s0.lists, slot)
  {
    ClientsConverge(ctx, run);
    ErrorFree(ctx, again);
    hide ValidRun;
    ClientsQuiescent(ctx, again.o0, again.s0, again.plan);
  }

  // ---- Filters ----

  // After one round a filter list has the origin's URLs and names; only the enabled
  // flag of an added filter is still the server's choice.
  ghost predicate NearlyAgrees(o: Origin, lists: map<Slot, Item>, slot: Slot)
  {
    && (slot in lists <==> Wants(o, slot))
    && (slot in lists ==> lists[slot].Filter? && Want(o, slot).Filter? && lists[slot].name == Want(o, slot).name)
  }

  lemma FilterRound(ctx: Context, run: ActionRun, slot: Slot)
    requires ValidRun(ctx, run) && run.act.FiltersAction? && CleanFor(FiltersAction, run.o0) && AllOk(run.events)
    requires slot.list == BlockLists || slot.list == AllowLists
    ensures NearlyAgrees(run.o0, run.s1.lists, slot)
    ensures slot in run.s0.lists || !Wants(run.o0, slot) ==> !Differs(run.o0, run.s1.lists, slot)
  {
    var given := ListRound(ctx, run, slot);
    if slot in run.s0.lists { assert Belongs(slot.list, run.s0.lists[slot]); }
    hide ValidRun, Wants, Want;
    if Wants(run.o0, slot) { Evolution.WantBelongs(run.o0, slot); }
  }

  predicate LeavesSettings(call: Call)
  {
    call.Get? || call.ListChange? || call.RefreshFilters? || call.DeleteRewrite? || call.AddRewrite?
  }

  lemma {:induction false} SettingsLeft(s: Instance, events: seq<Event>)
    requires forall i | 0 <= i < |events| :: LeavesSettings(events[i].call)
    ensures Replay(s, events).settings == s.settings
  {
    if events != [] { SettingsLeft(s, events[..|events| - 1]); }
  }

  lemma FilterPlanCalls(list: ListId, items: seq<Item>, lists: map<Slot, Item>, coe: bool, plan: seq<Step>)
    requires IsFilterPlan(list, items, lists, coe, plan)
    ensures forall i | 0 <= i < |plan| :: plan[i].call.ListChange? || plan[i].call.RefreshFilters?
  {
    hide ListAdds, ListUpdates, Changes, Listing;
    var removes :| IsFilterPlanWith(list, items, lists, coe, plan, removes);
  }

  // The settings after an error-free round: the rules, or else enabled and interval.
  function RulesApplied(o: Settings, s: Settings): Settings
  {
    if Render(o.userRules) != Render(s.userRules) then s.(userRules := o.userRules) else s.(filtering := o.filtering)
  }

  lemma RulesRound(ctx: Context, run: ActionRun)
    requires ValidRun(ctx, run) && run.act.FiltersAction? && AllOk(run.events)
    ensures run.s1.settings == RulesApplied(run.o0.settings, run.s0.settings)
  {
    ErrorFree(ctx, run);
    hide ValidRun, IsFiltersPlan, Executes, Reads, RulesApplied;
    RulesOfPlan(ctx, run.o0, run.s0, run.plan, AfterTheRead(run));
  }

  lemma RulesOfPlan(ctx: Context, o: Origin, s: Instance, plan: seq<Step>, events: seq<Event>)
    requires IsFiltersPlan(ctx, o, s, plan) && Executes(plan, events, false) && AllOk(events)
    ensures Replay(s, events).settings == RulesApplied(o.settings, s.settings)
  {
    hide IsFilterPlan, Executes, RuleSteps, Replay, RulesApplied;
    var block, allow :|
      && IsFilterPlan(BlockLists, o.filters, s.lists, ctx.continueOnError, block)
      && IsFilterPlan(AllowLists, o.allowFilters, s.lists, ctx.continueOnError, allow)
      && plan == block + allow + RuleSteps(o.settings, s.settings);
    FilterPlanCalls(BlockLists, o.filters, s.lists, ctx.continueOnError, block);
    FilterPlanCalls(AllowLists, o.allowFilters, s.lists, ctx.continueOnError, allow);
    RulesTail(o.settings, s, block + allow, events);
  }

  lemma RulesTail(o: Settings, s: Instance, lists: seq<Step>, events: seq<Event>)
    requires forall i | 0 <= i < |lists| :: lists[i].call.ListChange? || lists[i].call.RefreshFilters?
    requires Executes(lists + RuleSteps(o, s.settings), events, false) && AllOk(events)
    ensures Replay(s, events).settings == RulesApplied(o, s.settings)
  {
    hide RuleSteps, RulesApplied, Replay;
    var n, rules := |lists|, RuleSteps(o, s.settings);
    assert events == events[..n] + events[n..] && forall i | 0 <= i < |rules| :: (lists + rules)[n + i] == rules[i];
    ReplayConcat(s, events[..n], events[n..]);
    SettingsLeft(s, events[..n]);
    OneRuleCall(o, s.settings, Replay(s, events[..n]), events[n..]);
  }

  lemma OneRuleCall(o: Settings, was: Settings, s: Instance, events: seq<Event>)
    requires s.settings == was && AllOk(events) && |events| == |RuleSteps(o, was)|
    requires forall i | 0 <= i < |events| :: events[i].call == RuleSteps(o, was)[i].call
    ensures Replay(s, events).settings == RulesApplied(o, was)
  {
    hide Render, Changed, Rewritten;
    if events != [] {
      ReplayOne(s, [], events[0]);
      assert events == [] + [events[0]];
    }
  }

  // Two readings of the same filters, in whatever order.
  ghost predicate SameFilters(a: Origin, b: Origin)
  {
    && Wanted(a, BlockLists) == Wanted(b, BlockLists) && Wanted(a, AllowLists) == Wanted(b, AllowLists)
    && a.settings.userRules == b.settings.userRules && a.settings.filtering == b.settings.filtering
  }

  // From any replica, and whatever enabled flags the server gives to added filters, two
  // error-free rounds bring everything actionFilters looks at into agreement.
  // The second round may read the origin's filters in another order.
  lemma FiltersConverge(ctx: Context, first: ActionRun, second: ActionRun)
    requires ValidRun(ctx, first) && first.act.FiltersAction? && AllOk(first.events)
    requires ValidRun(ctx, second) && second.act.FiltersAction? && AllOk(second.events)
    requires SameFilters(first.o0, second.o0) && second.s0 == first.s1
    requires CleanFor(FiltersAction, first.o0) && CleanFor(FiltersAction, second.o0)
    ensures FiltersAgree(first.o0, second.s1)
  {
    var o := first.o0;
    forall slot: Slot | slot.list == BlockLists || slot.list == AllowLists
      ensures !Differs(o, second.s1.lists, slot)
    {
      assert Wanted(o, slot.list) == Wanted(second.o0, slot.list);
      hide ValidRun, CleanFor, AllOk;
      FilterRound(ctx, first, slot);
      FilterRound(ctx, second, slot);
    }
    RulesRound(ctx, first);
    RulesRound(ctx, second);
  }

  // Once they agree, no later round writes or refreshes anything, whether or not its
  // read succeeds.
  lemma FiltersStayQuiet(ctx: Context, later: ActionRun)
    requires ValidRun(ctx, later) && later.act.FiltersAction? && CleanFor(FiltersAction, later.o0)
    requires FiltersAgree(later.o0, later.s0)
    ensures later.plan == [] && later.s1 == later.s0 && later.o1 == later.o0
    ensures forall i | 0 <= i < |later.events| :: !IsWrite(later.events[i].call)
  {
    if !ReadFailed(later) { FiltersQuiescent(ctx, later.o0, later.s0, later.plan); }
    assert |later.events| == 1;
    OneRead(later.s0, later.events);
  }

  lemma OneRead(s: Instance, events: seq<Event>)
    requires |events| == 1 && events[0].call.Get?
    ensures Replay(s, events) == s
  {
    ReplayStep(s, events, 0);
    assert events[..1] == events && events[..0] == [];
  }
}
