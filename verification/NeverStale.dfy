// A plan is computed once, from one reading of the replica, and executed call by call
// while calls fail. No call of it is ever stale: each still fits the difference between
// the origin and the replica in the very state in which it is made.

module NeverStale {
  import opened Values
  import opened Server
  import opened Merging
  import opened Plans

  // The lists merged in slice order must not repeat a key.
  ghost predicate CleanFor(act: Action, o: Origin)
  {
    && (act.FiltersAction? ==> DistinctKeys(o.filters) && DistinctKeys(o.allowFilters))
    && (act.LeasesAction? ==> DistinctKeys(o.LeaseList()))
  }

  ghost predicate SoundChanges(list: ListId, o: Origin, lists: map<Slot, Item>, changes: seq<Change>)
  {
    && (forall i, j | 0 <= i < j < |changes| :: changes[i].slot != changes[j].slot)
    && (forall i | 0 <= i < |changes| :: changes[i].slot.list == list && Fits(o, lists, changes[i]))
  }

  ghost predicate CompleteChanges(list: ListId, o: Origin, lists: map<Slot, Item>, changes: seq<Change>)
  {
    forall slot: Slot | slot.list == list && Differs(o, lists, slot) ::
      exists i :: 0 <= i < |changes| && changes[i].slot == slot
  }

  lemma ChangeAt(list: ListId, removes: seq<Item>, adds: seq<Item>, updates: seq<Item>, i: nat)
    requires i < |Changes(list, removes, adds, updates)|
    ensures Changes(list, removes, adds, updates)[i] ==
            if i < |removes| then Remove(Slot(list, removes[i].Key()), removes[i])
            else if i < |removes| + |adds| then Add(Slot(list, adds[i - |removes|].Key()), adds[i - |removes|])
            else Update(Slot(list, updates[i - |removes| - |adds|].Key()), updates[i - |removes| - |adds|])
  {}

  lemma DiffSound(list: ListId, o: Origin, lists: map<Slot, Item>, removes: seq<Item>, adds: seq<Item>,
                  updates: seq<Item>)
    requires IsDiff(Part(lists, list), Wanted(o, list), removes, adds, updates)
    ensures SoundChanges(list, o, lists, Changes(list, removes, adds, updates))
  {
    var changes := Changes(list, removes, adds, updates);
    forall i | 0 <= i < |changes| ensures changes[i].slot.list == list && Fits(o, lists, changes[i]) {
      ChangeAt(list, removes, adds, updates, i);
    }
    forall i, j | 0 <= i < j < |changes| ensures changes[i].slot != changes[j].slot {
      ChangeAt(list, removes, adds, updates, i);
      ChangeAt(list, removes, adds, updates, j);
    }
  }

  lemma DiffComplete(list: ListId, o: Origin, lists: map<Slot, Item>, removes: seq<Item>, adds: seq<Item>,
                     updates: seq<Item>)
    requires IsDiff(Part(lists, list), Wanted(o, list), removes, adds, updates)
    ensures CompleteChanges(list, o, lists, Changes(list, removes, adds, updates))
  {
    var changes := Changes(list, removes, adds, updates);
    forall slot: Slot | slot.list == list && Differs(o, lists, slot)
      ensures exists i :: 0 <= i < |changes| && changes[i].slot == slot
    {
      var i := DifferenceIsChanged(list, o, lists, removes, adds, updates, slot.key);
      assert changes[i].slot == slot;
    }
  }

  lemma DifferenceIsChanged(list: ListId, o: Origin, lists: map<Slot, Item>, removes: seq<Item>, adds: seq<Item>,
                            updates: seq<Item>, k: string) returns (i: nat)
    requires IsDiff(Part(lists, list), Wanted(o, list), removes, adds, updates)
    requires Differs(o, lists, Slot(list, k))
    ensures i < |Changes(list, removes, adds, updates)|
    ensures Changes(list, removes, adds, updates)[i].slot == Slot(list, k)
  {
    var cur, exp := Part(lists, list), Wanted(o, list);
    i := ListedSomewhere(removes, adds, updates, Removed(cur, exp), Added(cur, exp), Updated(cur, exp), k);
    hide Listing, Removed, Added, Updated, Changes;
    ChangeAt(list, removes, adds, updates, i);
  }

  lemma ListedSomewhere(removes: seq<Item>, adds: seq<Item>, updates: seq<Item>, removed: map<string, Item>,
                        added: map<string, Item>, updated: map<string, Item>, k: string) returns (i: nat)
    requires Listing(removes, removed) && Listing(adds, added) && Listing(updates, updated)
    requires k in removed || k in added || k in updated
    ensures i < |removes| + |adds| + |updates|
    ensures (if i < |removes| then removes[i] else if i < |removes| + |adds| then adds[i - |removes|]
             else updates[i - |removes| - |adds|]).Key() == k
  {
    if k in removed {
      i :| 0 <= i < |removes| && removes[i].Key() == k;
    } else if k in added {
      var j :| 0 <= j < |adds| && adds[j].Key() == k;
      i := |removes| + j;
    } else {
      var j :| 0 <= j < |updates| && updates[j].Key() == k;
      i := |removes| + |adds| + j;
    }
  }

  // ---- Plans ----

  ghost predicate SoundPlan(o: Origin, lists: map<Slot, Item>, plan: seq<Step>)
  {
    && (forall i, j | 0 <= i < j < |plan| && plan[i].call.ListChange? && plan[j].call.ListChange? ::
          plan[i].call.change.slot != plan[j].call.change.slot)
    && (forall i | 0 <= i < |plan| && plan[i].call.ListChange? :: Fits(o, lists, plan[i].call.change))
  }

  ghost predicate CompletePlan(list: ListId, o: Origin, lists: map<Slot, Item>, plan: seq<Step>)
  {
    forall slot: Slot | slot.list == list && Differs(o, lists, slot) ::
      exists i :: 0 <= i < |plan| && Touches(plan[i].call, slot)
  }

  ghost predicate OnlyList(list: ListId, plan: seq<Step>)
  {
    forall i | 0 <= i < |plan| && plan[i].call.ListChange? :: plan[i].call.change.slot.list == list
  }

  ghost predicate NoLists(plan: seq<Step>)
  {
    forall i | 0 <= i < |plan| :: !plan[i].call.ListChange?
  }

  lemma StepsSound(list: ListId, o: Origin, lists: map<Slot, Item>, changes: seq<Change>, tolerated: bool)
    requires SoundChanges(list, o, lists, changes)
    ensures SoundPlan(o, lists, Steps(changes, tolerated)) && OnlyList(list, Steps(changes, tolerated))
    ensures CompleteChanges(list, o, lists, changes) ==> CompletePlan(list, o, lists, Steps(changes, tolerated))
  {
    var plan := Steps(changes, tolerated);
    if CompleteChanges(list, o, lists, changes) {
      forall slot: Slot | slot.list == list && Differs(o, lists, slot)
        ensures exists i :: 0 <= i < |plan| && Touches(plan[i].call, slot)
      {
        var i :| 0 <= i < |changes| && changes[i].slot == slot;
        assert Touches(plan[i].call, slot);
      }
    }
  }

  lemma AppendOther(list: ListId, o: Origin, lists: map<Slot, Item>, plan: seq<Step>, other: seq<Step>)
    requires SoundPlan(o, lists, plan) && NoLists(other)
    ensures SoundPlan(o, lists, plan + other)
    ensures OnlyList(list, plan) ==> OnlyList(list, plan + other)
    ensures CompletePlan(list, o, lists, plan) ==> CompletePlan(list, o, lists, plan + other)
  {
    CompleteInside(list, o, lists, [], plan, other);
    assert [] + plan + other == plan + other;
  }

  lemma CompleteInside(list: ListId, o: Origin, lists: map<Slot, Item>, a: seq<Step>, b: seq<Step>, c: seq<Step>)
    ensures CompletePlan(list, o, lists, b) ==> CompletePlan(list, o, lists, a + b + c)
  {
    if CompletePlan(list, o, lists, b) {
      forall slot: Slot | slot.list == list && Differs(o, lists, slot)
        ensures exists i :: 0 <= i < |a + b + c| && Touches((a + b + c)[i].call, slot)
      {
        var i :| 0 <= i < |b| && Touches(b[i].call, slot);
        assert (a + b + c)[|a| + i] == b[i];
      }
    }
  }

  lemma AppendLists(o: Origin, lists: map<Slot, Item>, a: seq<Step>, b: seq<Step>, l1: ListId, l2: ListId)
    requires SoundPlan(o, lists, a) && SoundPlan(o, lists, b)
    requires OnlyList(l1, a) && OnlyList(l2, b) && l1 != l2
    ensures SoundPlan(o, lists, a + b)
  {}

  lemma FilterPlanSound(list: ListId, o: Origin, lists: map<Slot, Item>, coe: bool, plan: seq<Step>)
    requires list == BlockLists || list == AllowLists
    requires AllBelong(list, o.List(list)) && DistinctKeys(o.List(list))
    requires IsFilterPlan(list, o.List(list), lists, coe, plan)
    ensures SoundPlan(o, lists, plan) && OnlyList(list, plan) && CompletePlan(list, o, lists, plan)
  {
    var items := o.List(list);
    var removes :| IsFilterPlanWith(list, items, lists, coe, plan, removes);
    var adds, updates := ListAdds(list, items, lists), ListUpdates(list, items, lists);
    DistinctSliceAdds(Part(lists, list), items, |items|);
    DistinctSliceUpdates(Part(lists, list), items, |items|);
    DiffSound(list, o, lists, removes, adds, updates);
    DiffComplete(list, o, lists, removes, adds, updates);
    var changes := Changes(list, removes, adds, updates);
    StepsSound(list, o, lists, changes, coe);
    AppendOther(list, o, lists, Steps(changes, coe),
                OneStep(|adds| > 0 || |updates| > 0, RefreshFilters(list == AllowLists), false));
  }

  lemma LeasesNeverUpdated(o: Origin, s: Instance)
    requires Typed(o) && Filed(s)
    ensures Listing([], Updated(Part(s.lists, Leases), Wanted(o, Leases)))
  {
    forall k | k in Wanted(o, Leases) && k in Part(s.lists, Leases)
      ensures Same(Part(s.lists, Leases)[k], Wanted(o, Leases)[k])
    {
      IndexHas(o.LeaseList(), |o.LeaseList()|, k);
      assert AllBelong(Leases, o.List(Leases));
    }
  }

  // A plan changes each slot at most once, only as the difference demands, and misses
  // no difference in the lists the action works on.
  ghost predicate SoundFor(act: Action, o: Origin, lists: map<Slot, Item>, plan: seq<Step>)
  {
    && SoundPlan(o, lists, plan)
    && (forall list | WorksOn(act, list) :: CompletePlan(list, o, lists, plan))
    && (forall i | 0 <= i < |plan| && plan[i].call.ListChange? :: WorksOn(act, plan[i].call.change.slot.list))
  }

  lemma DiffPlanSound(act: Action, list: ListId, o: Origin, lists: map<Slot, Item>, tolerated: bool, removes: seq<Item>,
                      adds: seq<Item>, updates: seq<Item>)
    requires IsDiff(Part(lists, list), Wanted(o, list), removes, adds, updates)
    requires forall l :: WorksOn(act, l) <==> l == list
    ensures SoundFor(act, o, lists, Steps(Changes(list, removes, adds, updates), tolerated))
  {
    DiffSound(list, o, lists, removes, adds, updates);
    DiffComplete(list, o, lists, removes, adds, updates);
    StepsSound(list, o, lists, Changes(list, removes, adds, updates), tolerated);
  }

  lemma LeaseDiff(o: Origin, s: Instance, removes: seq<Item>)
    requires Typed(o) && Filed(s) && DistinctKeys(o.LeaseList())
    requires Listing(removes, Removed(Part(s.lists, Leases), Wanted(o, Leases)))
    ensures IsDiff(Part(s.lists, Leases), Wanted(o, Leases), removes, ListAdds(Leases, o.LeaseList(), s.lists), [])
  {
    LeasesNeverUpdated(o, s);
    hide Typed, Filed, DistinctKeys, Listing, SliceAdds, Added, Removed, Updated, Part, Index, Same;
    assert o.List(Leases) == o.LeaseList();
    DistinctSliceAdds(Part(s.lists, Leases), o.LeaseList(), |o.LeaseList()|);
  }

  lemma FiltersPlanSound(ctx: Context, o: Origin, s: Instance, plan: seq<Step>)
    requires Typed(o) && CleanFor(FiltersAction, o) && IsFiltersPlan(ctx, o, s, plan)
    ensures SoundFor(FiltersAction, o, s.lists, plan)
  {
    hide IsFilterPlan, SoundFor;
    var block, allow :|
      && IsFilterPlan(BlockLists, o.filters, s.lists, ctx.continueOnError, block)
      && IsFilterPlan(AllowLists, o.allowFilters, s.lists, ctx.continueOnError, allow)
      && plan == block + allow + RuleSteps(o.settings, s.settings);
    assert o.List(BlockLists) == o.filters && o.List(AllowLists) == o.allowFilters;
    assert AllBelong(BlockLists, o.List(BlockLists)) && AllBelong(AllowLists, o.List(AllowLists));
    FilterPlanSound(BlockLists, o, s.lists, ctx.continueOnError, block);
    FilterPlanSound(AllowLists, o, s.lists, ctx.continueOnError, allow);
    FilterBlocksSound(o, s.lists, block, allow, RuleSteps(o.settings, s.settings));
  }

  lemma ClientsPlanSound(ctx: Context, o: Origin, s: Instance, plan: seq<Step>)
    requires IsClientsPlan(ctx, o, s, plan)
    ensures SoundFor(ClientsAction, o, s.lists, plan)
  {
    hide IsDiff, SoundFor, Changes;
    var removes, adds, updates :|
      && IsDiff(Part(s.lists, Clients), Wanted(o, Clients), removes, adds, updates)
      && plan == Steps(Changes(Clients, removes, adds, updates), ctx.continueOnError);
    DiffPlanSound(ClientsAction, Clients, o, s.lists, ctx.continueOnError, removes, adds, updates);
  }

  lemma LeasesPlanSound(ctx: Context, o: Origin, s: Instance, plan: seq<Step>)
    requires Typed(o) && Filed(s) && CleanFor(LeasesAction, o) && IsLeasesPlan(ctx, o, s, plan)
    ensures SoundFor(LeasesAction, o, s.lists, plan)
  {
    hide IsDiff, SoundFor, Listing, ListAdds, Changes;
    var removes :|
      && Listing(removes, Removed(Part(s.lists, Leases), Wanted(o, Leases)))
      && plan == Steps(Changes(Leases, removes, ListAdds(Leases, o.LeaseList(), s.lists), []), ctx.continueOnError);
    LeaseDiff(o, s, removes);
    DiffPlanSound(LeasesAction, Leases, o, s.lists, ctx.continueOnError, removes,
                  ListAdds(Leases, o.LeaseList(), s.lists), []);
  }

  lemma FilterBlocksSound(o: Origin, lists: map<Slot, Item>, block: seq<Step>, allow: seq<Step>, rules: seq<Step>)
    requires SoundPlan(o, lists, block) && OnlyList(BlockLists, block) && CompletePlan(BlockLists, o, lists, block)
    requires SoundPlan(o, lists, allow) && OnlyList(AllowLists, allow) && CompletePlan(AllowLists, o, lists, allow)
    requires NoLists(rules)
    ensures SoundFor(FiltersAction, o, lists, block + allow + rules)
  {
    assert forall i | 0 <= i < |block + allow + rules| && (block + allow + rules)[i].call.ListChange? ::
        WorksOn(FiltersAction, (block + allow + rules)[i].call.change.slot.list);
    assert [] + block + (allow + rules) == block + allow + rules;
    hide SoundPlan, CompletePlan;
    AppendLists(o, lists, block, allow, BlockLists, AllowLists);
    AppendOther(BlockLists, o, lists, block + allow, rules);
    CompleteInside(BlockLists, o, lists, [], block, allow + rules);
    CompleteInside(AllowLists, o, lists, block, allow, rules);
  }

  lemma PlanSound(act: Action, ctx: Context, o: Origin, s: Instance, plan: seq<Step>)
    requires Typed(o) && Filed(s) && CleanFor(act, o) && IsPlan(act, ctx, o, s, plan)
    ensures SoundFor(act, o, s.lists, plan)
  {
    hide IsFilterPlan, IsDiff, Listing, IsRewriteDiff, IsClientsPlan, IsLeasesPlan, IsFiltersPlan, IsRewritesPlan;
    hide Typed, Filed, CleanFor;
    if act.FiltersAction? {
      FiltersPlanSound(ctx, o, s, plan);
    } else if act.ClientsAction? {
      ClientsPlanSound(ctx, o, s, plan);
    } else if act.LeasesAction? {
      LeasesPlanSound(ctx, o, s, plan);
    } else {
      PlanOwned(act, ctx, o, s, plan);
      hide IsPlan;
      NoListSteps(act, o, s.lists, plan);
    }
  }

  lemma NoListSteps(act: Action, o: Origin, lists: map<Slot, Item>, plan: seq<Step>)
    requires AllOwned(act, plan) && !act.FiltersAction? && !act.ClientsAction? && !act.LeasesAction?
    ensures SoundFor(act, o, lists, plan)
  {
    forall i | 0 <= i < |plan| ensures !plan[i].call.ListChange? { assert Owns(act, plan[i].call); }
  }

  // ---- No call is stale ----

  // A call that fits the difference between the origin and this state of the replica.
  ghost predicate FitsCall(o: Origin, s: Instance, call: Call)
  {
    match call
    case ListChange(c) => Fits(o, s.lists, c)
    case DeleteRewrite(e) =>
      e in s.rewrites && KeyBag(s.rewrites)[e.Key()] > KeyOnce(o.rewrites)[e.Key()]
    case AddRewrite(e) => KeyBag(s.rewrites)[e.Key()] < KeyOnce(o.rewrites)[e.Key()]
    case _ => true
  }

  // The state in which the k-th call of a run is made.
  function At(s: Instance, events: seq<Event>, k: nat): Instance
    requires k <= |events|
  {
    Replay(s, events[..k])
  }

  ghost predicate FitsThroughout(o: Origin, s: Instance, events: seq<Event>)
  {
    forall k | 0 <= k < |events| :: FitsCall(o, At(s, events, k), events[k].call)
  }

  lemma FitsLocally(o: Origin, a: map<Slot, Item>, b: map<Slot, Item>, c: Change)
    requires Fits(o, a, c) && SameAt(a, b, c.slot)
    ensures Fits(o, b, c)
  {}

  lemma ListCallsFit(o: Origin, s: Instance, plan: seq<Step>, events: seq<Event>, err: bool, k: nat)
    requires SoundPlan(o, s.lists, plan) && Executes(plan, events, err) && k < |events|
    requires events[k].call.ListChange?
    ensures Fits(o, At(s, events, k).lists, events[k].call.change)
  {
    ExecutesCalls(plan, events, err);
    var slot := events[k].call.change.slot;
    forall i | 0 <= i < k ensures !Touches(events[..k][i].call, slot) {
      assert events[..k][i] == events[i];
    }
    UntouchedSlot(s, events[..k], slot);
    FitsLocally(o, s.lists, At(s, events, k).lists, events[k].call.change);
  }

  // ---- Rewrites: deletes, then adds, stopping at the first failure ----

  lemma PrefixOfBag(x: seq<RewriteEntry>, n: nat)
    requires n < |x|
    ensures KeyBag(x[..n + 1]) == KeyBag(x[..n]) + multiset{x[n].Key()}
    ensures multiset(x[..n + 1]) == multiset(x[..n]) + multiset{x[n]}
    ensures KeyBag(x[..n + 1]) <= KeyBag(x) && multiset(x[..n + 1]) <= multiset(x)
  {
    hide KeyBag, RewriteEntry.Key;
    assert x[..n + 1] == x[..n] + [x[n]] && x == x[..n + 1] + x[n + 1..];
    KeyBagOne(x[..n], x[n]);
    KeyBagConcat(x[..n + 1], x[n + 1..]);
    assert multiset(x) == multiset(x[..n + 1]) + multiset(x[n + 1..]);
  }

  lemma RewriteStepAt(removes: seq<RewriteEntry>, adds: seq<RewriteEntry>, i: nat)
    requires i < |removes| + |adds|
    ensures RewriteSteps(removes, adds)[i] ==
            Step(if i < |removes| then DeleteRewrite(removes[i]) else AddRewrite(adds[i - |removes|]), false)
  {}

  // The replica's rewrites after the first k successful calls of a plan.
  ghost predicate RewritesAfter(s: seq<RewriteEntry>, now: seq<RewriteEntry>, removes: seq<RewriteEntry>,
                                adds: seq<RewriteEntry>, k: nat)
    requires k <= |removes| + |adds|
  {
    if k <= |removes| then
      multiset(now) == multiset(s) - multiset(removes[..k]) && KeyBag(now) == KeyBag(s) - KeyBag(removes[..k])
    else
      KeyBag(now) == KeyBag(s) - KeyBag(removes) + KeyBag(adds[..k - |removes|])
  }

  lemma DeleteKeepsTrack(s: seq<RewriteEntry>, now: seq<RewriteEntry>, removes: seq<RewriteEntry>,
                         adds: seq<RewriteEntry>, k: nat)
    requires multiset(removes) <= multiset(s) && k < |removes| && RewritesAfter(s, now, removes, adds, k)
    ensures removes[k] in now && RewritesAfter(s, RemoveOne(now, removes[k]), removes, adds, k + 1)
  {
    hide KeyBag, RewriteEntry.Key, RemoveOne;
    var e, taken := removes[k], removes[..k];
    PrefixOfBag(removes, k);
    TakeOneMore(multiset(s), multiset(taken), e);
    assert e in now;
    RemoveOneCopy(now, e);
    TakeOneMoreAway(KeyBag(s), KeyBag(taken), e.Key());
  }

  lemma TakeOneMore<T>(s: multiset<T>, taken: multiset<T>, e: T)
    requires taken + multiset{e} <= s
    ensures e in s - taken && s - taken - multiset{e} == s - (taken + multiset{e})
  {
    assert (taken + multiset{e})[e] <= s[e];
    TakeOneMoreAway(s, taken, e);
  }

  lemma TakeOneMoreAway<T>(s: multiset<T>, taken: multiset<T>, e: T)
    ensures s - taken - multiset{e} == s - (taken + multiset{e})
  {}

  lemma AddKeepsTrack(s: seq<RewriteEntry>, now: seq<RewriteEntry>, removes: seq<RewriteEntry>, adds: seq<RewriteEntry>,
                      k: nat)
    requires |removes| <= k < |removes| + |adds| && RewritesAfter(s, now, removes, adds, k)
    ensures RewritesAfter(s, now + [adds[k - |removes|]], removes, adds, k + 1)
  {
    hide KeyBag, RewriteEntry.Key;
    KeyBagEmpty();
    var j := k - |removes|;
    assert removes[..|removes|] == removes && adds[..0] == [];
    assert KeyBag(now) == KeyBag(s) - KeyBag(removes) + KeyBag(adds[..j]);
    PrefixOfBag(adds, j);
    KeyBagOne(now, adds[j]);
  }

  lemma NoRewriteYet(s: seq<RewriteEntry>, removes: seq<RewriteEntry>, adds: seq<RewriteEntry>)
    ensures RewritesAfter(s, s, removes, adds, 0)
  {
    KeyBagEmpty();
  }

  lemma {:induction false} RewritesTracked(s: Instance, removes: seq<RewriteEntry>, adds: seq<RewriteEntry>,
                                           events: seq<Event>)
    requires multiset(removes) <= multiset(s.rewrites)
    requires Underway(RewriteSteps(removes, adds), events)
    ensures RewritesAfter(s.rewrites, Replay(s, events).rewrites, removes, adds, |events|)
  {
    hide RewritesAfter, RewriteSteps, KeyBag, RewriteEntry.Key, RemoveOne, Configured, Changed;
    if events == [] {
      NoRewriteYet(s.rewrites, removes, adds);
    } else {
      var k := |events| - 1;
      assert forall i | 0 <= i < k :: events[..k][i] == events[i];
      RewriteStepAt(removes, adds, k);
      RewritesTracked(s, removes, adds, events[..k]);
      if k < |removes| {
        DeleteKeepsTrack(s.rewrites, Replay(s, events[..k]).rewrites, removes, adds, k);
      } else {
        AddKeepsTrack(s.rewrites, Replay(s, events[..k]).rewrites, removes, adds, k);
      }
    }
  }

  lemma RewriteCallsFit(o: Origin, s: Instance, removes: seq<RewriteEntry>, adds: seq<RewriteEntry>, events: seq<Event>,
                        err: bool, k: nat)
    requires IsRewriteDiff(s.rewrites, o.rewrites, removes, adds)
    requires Executes(RewriteSteps(removes, adds), events, err) && k < |events|
    ensures FitsCall(o, At(s, events, k), events[k].call)
  {
    var plan := RewriteSteps(removes, adds);
    ExecutesCalls(plan, events, err);
    assert Underway(plan, events[..k]);
    RewritesTracked(s, removes, adds, events[..k]);
    RewriteStepAt(removes, adds, k);
    RewriteFits(o, s.rewrites, At(s, events, k).rewrites, removes, adds, k);
  }

  lemma RewriteFits(o: Origin, s: seq<RewriteEntry>, now: seq<RewriteEntry>, removes: seq<RewriteEntry>,
                    adds: seq<RewriteEntry>, k: nat)
    requires IsRewriteDiff(s, o.rewrites, removes, adds)
    requires k < |removes| + |adds| && RewritesAfter(s, now, removes, adds, k)
    ensures k < |removes| ==>
              removes[k] in now && KeyBag(now)[removes[k].Key()] > KeyOnce(o.rewrites)[removes[k].Key()]
    ensures k >= |removes| ==>
              KeyBag(now)[adds[k - |removes|].Key()] < KeyOnce(o.rewrites)[adds[k - |removes|].Key()]
  {
    hide KeyBag, KeyOnce, RewriteEntry.Key, RewritesAfter;
    if k < |removes| {
      DeleteFits(o, s, now, removes, adds, k);
    } else {
      AddFits(o, s, now, removes, adds, k);
    }
  }

  lemma DeleteFits(o: Origin, s: seq<RewriteEntry>, now: seq<RewriteEntry>, removes: seq<RewriteEntry>,
                   adds: seq<RewriteEntry>, k: nat)
    requires IsRewriteDiff(s, o.rewrites, removes, adds) && k < |removes| && RewritesAfter(s, now, removes, adds, k)
    ensures removes[k] in now && KeyBag(now)[removes[k].Key()] > KeyOnce(o.rewrites)[removes[k].Key()]
  {
    hide KeyBag, KeyOnce, RewriteEntry.Key;
    PrefixOfBag(removes, k);
    DeleteKeepsTrack(s, now, removes, adds, k);
    var key := removes[k].Key();
    assert KeyBag(removes[..k])[key] + 1 <= KeyBag(removes)[key];
  }

  lemma AddFits(o: Origin, s: seq<RewriteEntry>, now: seq<RewriteEntry>, removes: seq<RewriteEntry>,
                adds: seq<RewriteEntry>, k: nat)
    requires IsRewriteDiff(s, o.rewrites, removes, adds) && |removes| <= k < |removes| + |adds|
    requires RewritesAfter(s, now, removes, adds, k)
    ensures KeyBag(now)[adds[k - |removes|].Key()] < KeyOnce(o.rewrites)[adds[k - |removes|].Key()]
  {
    KeyBagEmpty();
    assert removes[..|removes|] == removes && adds[..0] == [];
    hide KeyBag, KeyOnce, RewriteEntry.Key;
    var j := k - |removes|;
    PrefixOfBag(adds, j);
    var key := adds[j].Key();
    assert KeyBag(adds[..j])[key] + 1 <= KeyBag(adds)[key];
    assert KeyBag(now)[key] == KeyBag(s)[key] - KeyBag(removes)[key] + KeyBag(adds[..j])[key];
  }

  // ---- The theorem ----

  // Every call of every action, whichever calls before it failed, still fits.
  lemma NoCallIsStale(ctx: Context, run: ActionRun)
    requires ValidRun(ctx, run) && CleanFor(run.act, run.o0)
    ensures FitsThroughout(run.o0, run.s0, run.events)
  {
    forall k | 0 <= k < |run.events|
      ensures FitsCall(run.o0, At(run.s0, run.events, k), run.events[k].call)
    {
      CallIsFresh(ctx, run, k);
    }
  }

  lemma AfterRead(s: Instance, events: seq<Event>, n: nat, k: nat)
    requires n <= k <= |events|
    requires n <= 1 && (n == 1 ==> events[0].call.Get?)
    ensures At(s, events, k) == At(s, events[n..], k - n)
  {
    assert events[..k] == events[..n] + events[n..][..k - n];
    ReplayConcat(s, events[..n], events[n..][..k - n]);
    if n == 1 { ReplayStep(s, events, 0); }
  }

  lemma PlannedCallFits(ctx: Context, act: Action, o: Origin, s: Instance, plan: seq<Step>, events: seq<Event>,
                        err: bool, k: nat)
    requires Typed(o) && Filed(s) && CleanFor(act, o) && IsPlan(act, ctx, o, s, plan)
    requires Executes(plan, events, err) && k < |events|
    ensures FitsCall(o, At(s, events, k), events[k].call)
  {
    if act.RewritesAction? {
      var removes, adds := RewritesPlanIsDiff(o, s, plan);
      hide IsRewriteDiff, FitsCall, At, Executes;
      RewriteCallsFit(o, s, removes, adds, events, err, k);
    } else {
      PlanOwned(act, ctx, o, s, plan);
      PlanSound(act, ctx, o, s, plan);
      ExecutesCalls(plan, events, err);
      hide IsPlan, Executes, SoundPlan, At;
      if events[k].call.ListChange? {
        ListCallsFit(o, s, plan, events, err, k);
      }
    }
  }

  lemma CallIsFresh(ctx: Context, run: ActionRun, k: nat)
    requires ValidRun(ctx, run) && CleanFor(run.act, run.o0) && k < |run.events|
    ensures FitsCall(run.o0, At(run.s0, run.events, k), run.events[k].call)
  {
    hide IsPlan, FitsCall, Executes, At;
    var n := Reads(run.act, run.o0);
    if k >= n {
      AfterRead(run.s0, run.events, n, k);
      assert run.events[k] == run.events[n..][k - n];
      PlannedCallFits(ctx, run.act, run.o0, run.s0, run.plan, run.events[n..], run.err, k - n);
    } else {
      ReadFits(run.o0, At(run.s0, run.events, k), run.events[k].call);
    }
  }

  lemma ReadFits(o: Origin, s: Instance, call: Call)
    requires call.Get?
    ensures FitsCall(o, s, call)
  {}
}
