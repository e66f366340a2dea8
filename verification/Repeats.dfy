// What still holds, and what does not, when the origin repeats a filter URL or a MAC.

module Repeats {
  import opened Values
  import opened Server
  import opened Merging
  import opened Plans
  import opened NeverStale
  import opened Evolution
  import opened Convergence
  import opened Ownership
  import opened Safety

  // ---- Keys ----

  // The plan removes every key the origin does not want and adds every one that is missing.
  ghost predicate CoversKeys(list: ListId, o: Origin, lists: map<Slot, Item>, plan: seq<Step>)
  {
    forall slot: Slot | slot.list == list && (slot in lists) != Wants(o, slot) ::
      exists i :: 0 <= i < |plan| && Touches(plan[i].call, slot)
  }

  lemma MissingIsAdded(current: map<string, Item>, items: seq<Item>, key: string) returns (p: nat)
    requires key in ByKey(items) && key !in current
    ensures p < |SliceAdds(current, items, |items|)| && SliceAdds(current, items, |items|)[p].Key() == key
  {
    IndexHas(items, |items|, key);
    var j :| 0 <= j < |items| && items[j].Key() == key;
    p := SliceAddsAt(current, items, j);
  }

  lemma ChangesCoverKeys(list: ListId, o: Origin, lists: map<Slot, Item>, removes: seq<Item>, updates: seq<Item>,
                         key: string)
    returns (i: nat)
    requires Listing(removes, Removed(Part(lists, list), Wanted(o, list)))
    requires (Slot(list, key) in lists) != Wants(o, Slot(list, key))
    ensures var changes := Changes(list, removes, ListAdds(list, o.List(list), lists), updates);
            i < |changes| && changes[i].slot == Slot(list, key)
  {
    var adds := ListAdds(list, o.List(list), lists);
    if key in Part(lists, list) {
      assert key in Removed(Part(lists, list), Wanted(o, list)) && HasKey(removes, key);
      i :| 0 <= i < |removes| && removes[i].Key() == key;
    } else {
      var p := MissingIsAdded(Part(lists, list), o.List(list), key);
      i := |removes| + p;
    }
    hide Listing, Removed, SliceAdds;
    ChangeAt(list, removes, adds, updates, i);
  }

  lemma StepsCoverKeys(list: ListId, o: Origin, lists: map<Slot, Item>, removes: seq<Item>, updates: seq<Item>,
                       tolerated: bool, before: seq<Step>, after: seq<Step>)
    requires Listing(removes, Removed(Part(lists, list), Wanted(o, list)))
    ensures var changes := Changes(list, removes, ListAdds(list, o.List(list), lists), updates);
            CoversKeys(list, o, lists, before + Steps(changes, tolerated) + after)
  {
    hide Listing, Changes, SliceAdds;
    var changes := Changes(list, removes, ListAdds(list, o.List(list), lists), updates);
    var plan := before + Steps(changes, tolerated) + after;
    forall slot: Slot | slot.list == list && (slot in lists) != Wants(o, slot)
      ensures exists i :: 0 <= i < |plan| && Touches(plan[i].call, slot)
    {
      var i := ChangesCoverKeys(list, o, lists, removes, updates, slot.key);
      assert plan[|before| + i] == Step(ListChange(changes[i]), tolerated);
      assert Touches(plan[|before| + i].call, slot);
    }
  }

  lemma FilterPlanCoversKeys(list: ListId, o: Origin, lists: map<Slot, Item>, coe: bool, plan: seq<Step>,
                             before: seq<Step>, after: seq<Step>)
    requires IsFilterPlan(list, o.List(list), lists, coe, plan)
    ensures CoversKeys(list, o, lists, before + plan + after)
  {
    hide Listing, Changes, SliceAdds, SliceUpdates, CoversKeys, Steps;
    var items := o.List(list);
    var removes :| IsFilterPlanWith(list, items, lists, coe, plan, removes);
    var adds, updates := ListAdds(list, items, lists), ListUpdates(list, items, lists);
    var changes := Steps(Changes(list, removes, adds, updates), coe);
    var refresh := OneStep(|adds| > 0 || |updates| > 0, RefreshFilters(list == AllowLists), false);
    StepsCoverKeys(list, o, lists, removes, updates, coe, before, refresh + after);
    assert before + plan + after == before + changes + (refresh + after);
  }

  lemma FiltersPlanCoversKeys(ctx: Context, o: Origin, s: Instance, plan: seq<Step>, list: ListId)
    requires IsFiltersPlan(ctx, o, s, plan) && (list == BlockLists || list == AllowLists)
    ensures CoversKeys(list, o, s.lists, plan)
  {
    hide IsFilterPlan, CoversKeys, RuleSteps;
    var block, allow :|
      && IsFilterPlan(BlockLists, o.filters, s.lists, ctx.continueOnError, block)
      && IsFilterPlan(AllowLists, o.allowFilters, s.lists, ctx.continueOnError, allow)
      && plan == block + allow + RuleSteps(o.settings, s.settings);
    assert o.List(BlockLists) == o.filters && o.List(AllowLists) == o.allowFilters;
    var rules := RuleSteps(o.settings, s.settings);
    if list == BlockLists {
      FilterPlanCoversKeys(BlockLists, o, s.lists, ctx.continueOnError, block, [], allow + rules);
      assert [] + block + (allow + rules) == plan;
    } else {
      FilterPlanCoversKeys(AllowLists, o, s.lists, ctx.continueOnError, allow, block, rules);
    }
  }

  lemma LeasesPlanCoversKeys(ctx: Context, o: Origin, s: Instance, plan: seq<Step>)
    requires IsLeasesPlan(ctx, o, s, plan)
    ensures CoversKeys(Leases, o, s.lists, plan)
  {
    hide Changes, Listing, SliceAdds, SliceUpdates, CoversKeys, Steps;
    var removes :|
      && Listing(removes, Removed(Part(s.lists, Leases), Wanted(o, Leases)))
      && plan == Steps(Changes(Leases, removes, ListAdds(Leases, o.LeaseList(), s.lists), []), ctx.continueOnError);
    assert o.List(Leases) == o.LeaseList();
    StepsCoverKeys(Leases, o, s.lists, removes, [], ctx.continueOnError, [], []);
    assert [] + plan + [] == plan;
  }

  lemma ClientsPlanCoversKeys(ctx: Context, o: Origin, s: Instance, plan: seq<Step>)
    requires IsClientsPlan(ctx, o, s, plan)
    ensures CoversKeys(Clients, o, s.lists, plan)
  {
    ClientsPlanSound(ctx, o, s, plan);
    assert CompletePlan(Clients, o, s.lists, plan);
  }

  lemma PlanCoversKeys(act: Action, ctx: Context, o: Origin, s: Instance, plan: seq<Step>, list: ListId)
    requires IsPlan(act, ctx, o, s, plan) && WorksOn(act, list)
    ensures CoversKeys(list, o, s.lists, plan)
  {
    hide IsFiltersPlan, IsClientsPlan, IsLeasesPlan, CoversKeys;
    if act.FiltersAction? {
      FiltersPlanCoversKeys(ctx, o, s, plan, list);
    } else if act.ClientsAction? {
      ClientsPlanCoversKeys(ctx, o, s, plan);
    } else {
      LeasesPlanCoversKeys(ctx, o, s, plan);
    }
  }

  lemma SuffixIsSafe(o: Origin, s: Instance, events: seq<Event>, k: nat)
    requires SafeThroughout(o, s, events) && k <= |events|
    ensures SafeThroughout(o, At(s, events, k), events[k..])
    ensures Replay(At(s, events, k), events[k..]) == Replay(s, events)
  {
    assert events == events[..k] + events[k..];
    forall j | 0 <= j < |events[k..]| ensures At(At(s, events, k), events[k..], j) == At(s, events, k + j) {
      assert events[..k + j] == events[..k] + events[k..][..j];
      ReplayConcat(s, events[..k], events[k..][..j]);
    }
    ReplayConcat(s, events[..k], events[k..]);
    hide SafeCall, Replay;
  }

  lemma NamesAreTheSame(o: Origin)
    ensures SameNames(o, o)
  {}

  // Where a slot has been touched with success, it is filled exactly if it is wanted, and
  // nothing safe changes that.
  lemma TouchedStaysRight(o: Origin, s: Instance, events: seq<Event>, k: nat, slot: Slot)
    requires SafeThroughout(o, s, events) && k < |events| && Touches(events[k].call, slot) && events[k].Ok()
    ensures slot in Replay(s, events).lists <==> Wants(o, slot)
  {
    ReplayStep(s, events, k);
    assert SafeCall(o, At(s, events, k), events[k].call);
    assert slot in At(s, events, k + 1).lists <==> Wants(o, slot);
    SuffixIsSafe(o, s, events, k + 1);
    hide At, Replay, SafeThroughout, SafeCall;
    SafeRun(o, At(s, events, k + 1), events[k + 1..], |events[k + 1..]|);
    WholeIsAt(At(s, events, k + 1), events[k + 1..]);
  }

  lemma WholeIsAt(s: Instance, events: seq<Event>)
    ensures At(s, events, |events|) == Replay(s, events)
  {
    assert events[..|events|] == events;
  }

  // One error-free execution makes the keys of every list an action works on the origin's,
  // whatever the origin repeats.
  lemma KeysConverge(ctx: Context, run: ActionRun, slot: Slot)
    requires ValidRun(ctx, run) && AllOk(run.events) && WorksOn(run.act, slot.list)
    ensures slot in run.s1.lists <==> Wants(run.o0, slot)
  {
    hide IsPlan, Executes, Replay, OriginAfter, SafeThroughout, CoversKeys, Typed, Filed, Wants, At, KeysBetween;
    NamesAreTheSame(run.o0);
    ActionIsSafe(ctx, run.o0, run);
    ErrorFree(ctx, run);
    if (slot in run.s0.lists) != Wants(run.o0, slot) {
      PlanCoversKeys(run.act, ctx, run.o0, run.s0, run.plan, slot.list);
      var i := CoveredAt(run.o0, run.s0.lists, run.plan, AfterTheRead(run), slot);
      TouchedStaysRight(run.o0, run.s0, run.events, Reads(run.act, run.o0) + i, slot);
    } else {
      SafeRun(run.o0, run.s0, run.events, |run.events|);
      WholeIsAt(run.s0, run.events);
      BetweenEqual(run.o0, run.s0, run.s1, slot);
    }
  }

  lemma CoveredAt(o: Origin, lists: map<Slot, Item>, plan: seq<Step>, events: seq<Event>, slot: Slot) returns (i: nat)
    requires CoversKeys(slot.list, o, lists, plan) && Executes(plan, events, false) && (slot in lists) != Wants(o, slot)
    ensures i < |events| && Touches(events[i].call, slot)
  {
    i :| 0 <= i < |plan| && Touches(plan[i].call, slot);
  }

  lemma BetweenEqual(o: Origin, initial: Instance, s: Instance, slot: Slot)
    requires KeysBetween(o, initial, s) && (slot in initial.lists <==> Wants(o, slot))
    ensures slot in s.lists <==> Wants(o, slot)
  {}

  lemma {:induction false} FailedTouchesKeep(s: Instance, events: seq<Event>, slot: Slot)
    requires forall k | 0 <= k < |events| && Touches(events[k].call, slot) :: !events[k].Ok()
    ensures SameAt(Replay(s, events).lists, s.lists, slot)
  {
    if events != [] { FailedTouchesKeep(s, events[..|events| - 1], slot); }
  }

  // Whatever fails, and whatever the origin repeats: a slot ends up filled exactly if it is
  // wanted, if and only if it was so before or one call that touches it succeeded.
  lemma KeysAgreeExactly(ctx: Context, run: ActionRun, slot: Slot)
    requires ValidRun(ctx, run)
    ensures (slot in run.s1.lists <==> Wants(run.o0, slot)) <==>
            (slot in run.s0.lists <==> Wants(run.o0, slot))
            || exists k :: 0 <= k < |run.events| && Touches(run.events[k].call, slot) && run.events[k].Ok()
  {
    NamesAreTheSame(run.o0);
    ActionIsSafe(ctx, run.o0, run);
    assert run.s1 == Replay(run.s0, run.events);
    hide ValidRun, Replay, SafeThroughout, Wants, At, KeysBetween;
    if k :| 0 <= k < |run.events| && Touches(run.events[k].call, slot) && run.events[k].Ok() {
      TouchedStaysRight(run.o0, run.s0, run.events, k, slot);
    } else {
      FailedTouchesKeep(run.s0, run.events, slot);
    }
  }

  // Leases compare by MAC only, so this is agreement on them.
  lemma LeasesAgreeExactly(ctx: Context, run: ActionRun)
    requires ValidRun(ctx, run) && run.act.LeasesAction?
    ensures ListAgrees(Leases, run.o0, run.s1.lists) <==>
            forall slot: Slot | slot.list == Leases && (slot in run.s0.lists) != Wants(run.o0, slot) ::
              exists k :: 0 <= k < |run.events| && Touches(run.events[k].call, slot) && run.events[k].Ok()
  {
    RunKeepsFiled(ctx, run);
    forall slot: Slot | slot.list == Leases
      ensures Differs(run.o0, run.s1.lists, slot) <==> (slot in run.s1.lists) != Wants(run.o0, slot)
    {
      if Wants(run.o0, slot) { WantBelongs(run.o0, slot); }
    }
    forall slot: Slot | slot.list == Leases
      ensures !Differs(run.o0, run.s1.lists, slot) <==>
              ((slot in run.s0.lists) != Wants(run.o0, slot) ==>
                exists k :: 0 <= k < |run.events| && Touches(run.events[k].call, slot) && run.events[k].Ok())
    {
      KeysAgreeExactly(ctx, run, slot);
    }
    hide ValidRun, Differs, Wants;
  }

  // Leases compare by MAC only: one error-free execution makes them agree.
  lemma LeasesConverge(ctx: Context, run: ActionRun)
    requires ValidRun(ctx, run) && run.act.LeasesAction? && AllOk(run.events)
    ensures ListAgrees(Leases, run.o0, run.s1.lists)
  {
    RunKeepsFiled(ctx, run);
    forall slot: Slot | slot.list == Leases ensures !Differs(run.o0, run.s1.lists, slot) {
      KeysConverge(ctx, run, slot);
      if Wants(run.o0, slot) { WantBelongs(run.o0, slot); }
    }
  }

  // ---- Stale calls ----

  // The adds of a list with a repeated key: one of a key that is there already, or two of
  // the same key.
  lemma RepeatedAdds(current: map<string, Item>, items: seq<Item>) returns (q: nat, p: nat)
    requires !DistinctKeys(items)
    ensures var adds := SliceAdds(current, items, |items|);
      && q <= p < |adds| && adds[q].Key() == adds[p].Key() && adds[p].Key() in ByKey(items)
      && (adds[p].Key() in current || q < p)
  {
    hide SliceAdds, Index, Item.Key;
    var i, j :| 0 <= i < j < |items| && items[i].Key() == items[j].Key();
    IndexHas(items, j, items[j].Key());
    IndexHas(items, |items|, items[j].Key());
    p := SliceAddsAt(current, items, j);
    q := p;
    if items[j].Key() !in current {
      q := SliceAddsAt(current, items, i);
      SliceAddsMonotone(current, items, i + 1, j);
    }
  }

  // The same in a plan that contains these steps.
  ghost predicate AddsTwice(o: Origin, lists: map<Slot, Item>, plan: seq<Step>, i: nat, j: nat)
  {
    && i <= j < |plan| && plan[i].call.ListChange? && plan[j].call.ListChange?
    && plan[i].call.change.Add? && plan[j].call.change.Add?
    && plan[i].call.change.slot == plan[j].call.change.slot && Wants(o, plan[j].call.change.slot)
    && (plan[j].call.change.slot in lists || i < j)
  }

  lemma ChangesAddTwice(list: ListId, o: Origin, lists: map<Slot, Item>, removes: seq<Item>, updates: seq<Item>)
    returns (i: nat, j: nat)
    requires !DistinctKeys(o.List(list))
    ensures var changes := Changes(list, removes, ListAdds(list, o.List(list), lists), updates);
            && i <= j < |changes| && changes[i].Add? && changes[j].Add? && changes[i].slot == changes[j].slot
            && Wants(o, changes[j].slot) && (changes[j].slot in lists || i < j)
  {
    hide SliceAdds, DistinctKeys, Changes, Wants, ByKey, Part, Item.Key, Origin.List;
    var adds := ListAdds(list, o.List(list), lists);
    var q, p := RepeatedAdds(Part(lists, list), o.List(list));
    i, j := |removes| + q, |removes| + p;
    ChangeAt(list, removes, adds, updates, i);
    ChangeAt(list, removes, adds, updates, j);
    RepeatedKeyIsWanted(list, o, lists, adds[p].Key());
  }

  lemma StepsAddTwice(list: ListId, o: Origin, lists: map<Slot, Item>, removes: seq<Item>, updates: seq<Item>,
                      tolerated: bool, before: seq<Step>, after: seq<Step>) returns (i: nat, j: nat)
    requires !DistinctKeys(o.List(list))
    ensures var changes := Changes(list, removes, ListAdds(list, o.List(list), lists), updates);
            AddsTwice(o, lists, before + Steps(changes, tolerated) + after, i, j)
  {
    var changes := Changes(list, removes, ListAdds(list, o.List(list), lists), updates);
    hide Changes, ListAdds, DistinctKeys, Wants, Steps;
    var q, p := ChangesAddTwice(list, o, lists, removes, updates);
    StepInside(before, changes, tolerated, after, q);
    StepInside(before, changes, tolerated, after, p);
    i, j := |before| + q, |before| + p;
  }

  lemma StepInside(before: seq<Step>, changes: seq<Change>, tolerated: bool, after: seq<Step>, i: nat)
    requires i < |changes|
    ensures (before + Steps(changes, tolerated) + after)[|before| + i] == Step(ListChange(changes[i]), tolerated)
  {}

  lemma RepeatedKeyIsWanted(list: ListId, o: Origin, lists: map<Slot, Item>, key: string)
    ensures Wants(o, Slot(list, key)) <==> key in ByKey(o.List(list))
    ensures Slot(list, key) in lists <==> key in Part(lists, list)
  {}

  lemma FilterPlanAddsTwice(list: ListId, o: Origin, lists: map<Slot, Item>, coe: bool, plan: seq<Step>,
                            before: seq<Step>, after: seq<Step>) returns (i: nat, j: nat)
    requires IsFilterPlan(list, o.List(list), lists, coe, plan) && !DistinctKeys(o.List(list))
    ensures AddsTwice(o, lists, before + plan + after, i, j)
  {
    hide Listing, Changes, SliceAdds, SliceUpdates, AddsTwice, Steps, DistinctKeys;
    var items := o.List(list);
    var removes :| IsFilterPlanWith(list, items, lists, coe, plan, removes);
    var adds, updates := ListAdds(list, items, lists), ListUpdates(list, items, lists);
    var changes := Steps(Changes(list, removes, adds, updates), coe);
    var refresh := OneStep(|adds| > 0 || |updates| > 0, RefreshFilters(list == AllowLists), false);
    i, j := StepsAddTwice(list, o, lists, removes, updates, coe, before, refresh + after);
    assert before + plan + after == before + changes + (refresh + after);
  }

  lemma FiltersPlanAddsTwice(ctx: Context, o: Origin, s: Instance, plan: seq<Step>) returns (i: nat, j: nat)
    requires IsFiltersPlan(ctx, o, s, plan) && !CleanFor(FiltersAction, o)
    ensures AddsTwice(o, s.lists, plan, i, j)
  {
    hide IsFilterPlan, AddsTwice, RuleSteps, DistinctKeys;
    var block, allow :|
      && IsFilterPlan(BlockLists, o.filters, s.lists, ctx.continueOnError, block)
      && IsFilterPlan(AllowLists, o.allowFilters, s.lists, ctx.continueOnError, allow)
      && plan == block + allow + RuleSteps(o.settings, s.settings);
    assert o.List(BlockLists) == o.filters && o.List(AllowLists) == o.allowFilters;
    var rules := RuleSteps(o.settings, s.settings);
    if !DistinctKeys(o.filters) {
      i, j := FilterPlanAddsTwice(BlockLists, o, s.lists, ctx.continueOnError, block, [], allow + rules);
      assert [] + block + (allow + rules) == plan;
    } else {
      i, j := FilterPlanAddsTwice(AllowLists, o, s.lists, ctx.continueOnError, allow, block, rules);
    }
  }

  lemma LeasesPlanAddsTwice(ctx: Context, o: Origin, s: Instance, plan: seq<Step>) returns (i: nat, j: nat)
    requires IsLeasesPlan(ctx, o, s, plan) && !CleanFor(LeasesAction, o)
    ensures AddsTwice(o, s.lists, plan, i, j)
  {
    hide Changes, Listing, SliceAdds, SliceUpdates, AddsTwice, Steps, DistinctKeys;
    var removes :|
      && Listing(removes, Removed(Part(s.lists, Leases), Wanted(o, Leases)))
      && plan == Steps(Changes(Leases, removes, ListAdds(Leases, o.LeaseList(), s.lists), []), ctx.continueOnError);
    assert o.List(Leases) == o.LeaseList();
    i, j := StepsAddTwice(Leases, o, s.lists, removes, [], ctx.continueOnError, [], []);
    assert [] + plan + [] == plan;
  }

  // The later of two such adds does not fit any more.
  lemma SecondAddIsStale(o: Origin, s: Instance, events: seq<Event>, i: nat, j: nat)
    requires SafeThroughout(o, s, events) && AllOk(events) && i <= j < |events|
    requires events[j].call.ListChange? && events[j].call.change.Add? && Wants(o, events[j].call.change.slot)
    requires Touches(events[i].call, events[j].call.change.slot)
    requires events[j].call.change.slot in s.lists || i < j
    ensures !FitsCall(o, At(s, events, j), events[j].call)
  {
    var slot := events[j].call.change.slot;
    hide Wants, SafeThroughout, Replay;
    if slot in s.lists {
      SafeRun(o, s, events, j);
      assert KeysBetween(o, s, At(s, events, j));
    } else {
      PrefixIsSafe(o, s, events, j);
      assert events[..j][i] == events[i];
      TouchedStaysRight(o, s, events[..j], i, slot);
    }
    assert slot in At(s, events, j).lists;
  }

  lemma PrefixIsSafe(o: Origin, s: Instance, events: seq<Event>, j: nat)
    requires SafeThroughout(o, s, events) && j <= |events|
    ensures SafeThroughout(o, s, events[..j])
  {
    forall k | 0 <= k < j ensures At(s, events[..j], k) == At(s, events, k) {
      assert events[..j][..k] == events[..k];
    }
    hide SafeCall, Replay;
  }

  // In an error-free execution every call fits the state in which it is made if and only
  // if the origin repeats no key in the lists the action merges in slice order.
  lemma StaleExactlyWithRepeats(ctx: Context, run: ActionRun)
    requires ValidRun(ctx, run) && AllOk(run.events)
    ensures FitsThroughout(run.o0, run.s0, run.events) <==> CleanFor(run.act, run.o0)
  {
    hide IsPlan, Executes, OriginAfter, SafeThroughout, Typed, Filed, Wants, At, FitsCall, IsFiltersPlan, IsLeasesPlan,
         ValidRun, AllOk, CleanFor, SameNames;
    if CleanFor(run.act, run.o0) {
      NoCallIsStale(ctx, run);
    } else {
      NamesAreTheSame(run.o0);
      ActionIsSafe(ctx, run.o0, run);
      ErrorFree(ctx, run);
      var i, j := PlanAddsTwice(run.act, ctx, run.o0, run.s0, run.plan);
      var n, events := Reads(run.act, run.o0), AfterTheRead(run);
      SameCalls(run.plan, events);
      assert run.events[n + i] == events[i] && run.events[n + j] == events[j];
      SecondAddIsStale(run.o0, run.s0, run.events, n + i, n + j);
    }
  }

  lemma SameCalls(plan: seq<Step>, events: seq<Event>)
    requires Executes(plan, events, false)
    ensures |events| == |plan| && forall i | 0 <= i < |plan| :: events[i].call == plan[i].call
  {}

  lemma PlanAddsTwice(act: Action, ctx: Context, o: Origin, s: Instance, plan: seq<Step>) returns (i: nat, j: nat)
    requires IsPlan(act, ctx, o, s, plan) && !CleanFor(act, o)
    ensures AddsTwice(o, s.lists, plan, i, j)
  {
    hide AddsTwice, IsFiltersPlan, IsLeasesPlan;
    if act.FiltersAction? {
      i, j := FiltersPlanAddsTwice(ctx, o, s, plan);
    } else {
      i, j := LeasesPlanAddsTwice(ctx, o, s, plan);
    }
  }
}
