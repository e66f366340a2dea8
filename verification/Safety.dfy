// Safety in every intermediate state, whichever calls fail.

module Safety {
  import opened Values
  import opened Server
  import opened Merging
  import opened Plans
  import opened NeverStale
  import opened Evolution
  import Ownership

  // The keys of a replica stay between what origin and initial replica share and what
  // either of them has.
  ghost predicate KeysBetween(o: Origin, initial: Instance, s: Instance)
  {
    ListKeysBetween(o, initial.lists, s.lists) && RewriteKeysBetween(o, initial.rewrites, s.rewrites)
  }

  ghost predicate ListKeysBetween(o: Origin, initial: map<Slot, Item>, lists: map<Slot, Item>)
  {
    && (forall slot | slot in lists :: slot in initial || Wants(o, slot))
    && (forall slot | slot in initial && Wants(o, slot) :: slot in lists)
  }

  ghost predicate RewriteKeysBetween(o: Origin, initial: seq<RewriteEntry>, rewrites: seq<RewriteEntry>)
  {
    && (forall k | k in KeyBag(rewrites) :: k in KeyBag(initial) || k in KeyBag(o.rewrites))
    && (forall k | k in KeyBag(initial) && k in KeyBag(o.rewrites) :: k in KeyBag(rewrites))
  }

  // A call that, if it succeeds, takes away nothing the origin wants and adds nothing
  // it does not.
  ghost predicate SafeCall(o: Origin, s: Instance, call: Call)
  {
    match call
    case ListChange(c) =>
      (match c
       case Remove(slot, _) => !Wants(o, slot)
       case Add(slot, _) => Wants(o, slot)
       case Update(slot, _) => Wants(o, slot))
    case DeleteRewrite(e) => e in s.rewrites && KeyBag(s.rewrites)[e.Key()] > KeyOnce(o.rewrites)[e.Key()]
    case AddRewrite(e) => e.Key() in KeyBag(o.rewrites)
    case _ => true
  }

  ghost predicate SafeThroughout(o: Origin, s: Instance, events: seq<Event>)
  {
    forall k | 0 <= k < |events| :: SafeCall(o, At(s, events, k), events[k].call)
  }

  lemma SafeStep(o: Origin, initial: Instance, s: Instance, e: Event)
    requires KeysBetween(o, initial, s) && SafeCall(o, s, e.call)
    ensures KeysBetween(o, initial, After(s, e))
  {
    hide KeyBag, RewriteKeysBetween, ListKeysBetween, Configured;
    if e.Ok() {
      if e.call.DeleteRewrite? || e.call.AddRewrite? {
        hide SafeCall;
        SafeRewrite(o, initial.rewrites, s, e.call);
      } else if e.call.ListChange? {
        SafeChange(o, initial.lists, s, e.call.change, e.given);
      }
    }
  }

  lemma SafeChange(o: Origin, initial: map<Slot, Item>, s: Instance, c: Change, given: bool)
    requires ListKeysBetween(o, initial, s.lists) && SafeCall(o, s, ListChange(c))
    ensures ListKeysBetween(o, initial, Changed(s.lists, c, given))
  {}

  lemma SafeRewrite(o: Origin, initial: seq<RewriteEntry>, s: Instance, call: Call)
    requires RewriteKeysBetween(o, initial, s.rewrites) && SafeCall(o, s, call)
    requires call.DeleteRewrite? || call.AddRewrite?
    ensures RewriteKeysBetween(o, initial, Rewritten(s.rewrites, call))
  {
    hide KeyBag, RewriteEntry.Key, RemoveOne;
    if call.DeleteRewrite? {
      RemoveOneCopy(s.rewrites, call.entry);
    } else {
      KeyBagOne(s.rewrites, call.entry);
    }
  }

  lemma {:induction false} SafeRun(o: Origin, s: Instance, events: seq<Event>, k: nat)
    requires SafeThroughout(o, s, events) && k <= |events|
    ensures KeysBetween(o, s, At(s, events, k))
  {
    if k == 0 {
      assert events[..0] == [];
    } else {
      SafeRun(o, s, events, k - 1);
      ReplayStep(s, events, k - 1);
      SafeStep(o, s, At(s, events, k - 1), events[k - 1]);
    }
  }

  // A plan that removes only what the origin does not want, and adds and updates only
  // what it does. This needs no distinct keys: a repeated entry is wanted all the same.
  ghost predicate KeepsWanted(o: Origin, plan: seq<Step>)
  {
    forall i | 0 <= i < |plan| && plan[i].call.ListChange? :: KeepsWantedSlot(o, plan[i].call.change)
  }

  ghost predicate KeepsWantedSlot(o: Origin, c: Change)
  {
    if c.Remove? then !Wants(o, c.slot) else Wants(o, c.slot)
  }

  lemma {:induction false} SliceIsWanted(current: map<string, Item>, items: seq<Item>, n: nat)
    requires n <= |items|
    ensures forall x | x in SliceAdds(current, items, n) || x in SliceUpdates(current, items, n) ::
              x.Key() in ByKey(items)
  {
    if n > 0 {
      SliceIsWanted(current, items, n - 1);
      IndexHas(items, |items|, items[n - 1].Key());
    }
  }

  lemma StepsKeepWanted(list: ListId, o: Origin, removes: seq<Item>, adds: seq<Item>, updates: seq<Item>,
                        tolerated: bool)
    requires forall x | x in removes :: !Wants(o, Slot(list, x.Key()))
    requires forall x | x in adds || x in updates :: Wants(o, Slot(list, x.Key()))
    ensures KeepsWanted(o, Steps(Changes(list, removes, adds, updates), tolerated))
  {
    var changes := Changes(list, removes, adds, updates);
    forall i | 0 <= i < |changes| ensures KeepsWantedSlot(o, changes[i]) {
      ChangeAt(list, removes, adds, updates, i);
    }
  }

  lemma RemovedIsUnwanted(list: ListId, o: Origin, lists: map<Slot, Item>, removes: seq<Item>)
    requires Listing(removes, Removed(Part(lists, list), Wanted(o, list)))
    ensures forall x | x in removes :: !Wants(o, Slot(list, x.Key()))
  {}

  lemma FilterPlanKeepsWanted(list: ListId, o: Origin, lists: map<Slot, Item>, coe: bool, plan: seq<Step>)
    requires IsFilterPlan(list, o.List(list), lists, coe, plan)
    ensures KeepsWanted(o, plan)
  {
    hide Changes, Listing, SliceAdds, SliceUpdates, KeepsWantedSlot;
    var items := o.List(list);
    var removes :| IsFilterPlanWith(list, items, lists, coe, plan, removes);
    RemovedIsUnwanted(list, o, lists, removes);
    SliceIsWanted(Part(lists, list), items, |items|);
    StepsKeepWanted(list, o, removes, ListAdds(list, items, lists), ListUpdates(list, items, lists), coe);
  }

  lemma FiltersPlanKeepsWanted(ctx: Context, o: Origin, s: Instance, plan: seq<Step>)
    requires IsFiltersPlan(ctx, o, s, plan)
    ensures KeepsWanted(o, plan)
  {
    hide IsFilterPlan, KeepsWantedSlot;
    var block, allow :|
      && IsFilterPlan(BlockLists, o.filters, s.lists, ctx.continueOnError, block)
      && IsFilterPlan(AllowLists, o.allowFilters, s.lists, ctx.continueOnError, allow)
      && plan == block + allow + RuleSteps(o.settings, s.settings);
    assert o.List(BlockLists) == o.filters && o.List(AllowLists) == o.allowFilters;
    FilterPlanKeepsWanted(BlockLists, o, s.lists, ctx.continueOnError, block);
    FilterPlanKeepsWanted(AllowLists, o, s.lists, ctx.continueOnError, allow);
  }

  lemma LeasesPlanKeepsWanted(ctx: Context, o: Origin, s: Instance, plan: seq<Step>)
    requires IsLeasesPlan(ctx, o, s, plan)
    ensures KeepsWanted(o, plan)
  {
    hide Changes, Listing, SliceAdds, SliceUpdates, KeepsWanted;
    var removes :|
      && Listing(removes, Removed(Part(s.lists, Leases), Wanted(o, Leases)))
      && plan == Steps(Changes(Leases, removes, ListAdds(Leases, o.LeaseList(), s.lists), []), ctx.continueOnError);
    RemovedIsUnwanted(Leases, o, s.lists, removes);
    SliceIsWanted(Part(s.lists, Leases), o.LeaseList(), |o.LeaseList()|);
    StepsKeepWanted(Leases, o, removes, ListAdds(Leases, o.LeaseList(), s.lists), [], ctx.continueOnError);
  }

  lemma FitsIsSafe(o: Origin, inMemory: Origin, s: Instance, call: Call)
    requires SameNames(o, inMemory) && FitsCall(inMemory, s, call)
    ensures SafeCall(o, s, call)
  {
    SameNamesWant(o, inMemory);
  }

  lemma KeptIsSafe(o: Origin, inMemory: Origin, s: Instance, call: Call)
    requires SameNames(o, inMemory) && !call.DeleteRewrite? && !call.AddRewrite?
    requires call.ListChange? ==> KeepsWantedSlot(inMemory, call.change)
    ensures SafeCall(o, s, call)
  {
    SameNamesWant(o, inMemory);
  }

  // The lists merged in slice order: safe although an entry that the origin repeats makes
  // calls that are stale.
  lemma SliceActionIsSafe(ctx: Context, o: Origin, run: ActionRun, k: nat)
    requires ValidRun(ctx, run) && SameNames(o, run.o0) && k < |run.events|
    requires run.act.FiltersAction? || run.act.LeasesAction?
    ensures SafeCall(o, At(run.s0, run.events, k), run.events[k].call)
  {
    hide IsFiltersPlan, IsLeasesPlan, SameNames, SafeCall, At, Executes, KeepsWantedSlot;
    var n := Reads(run.act, run.o0);
    Ownership.RunOwnsItsCalls(ctx, run);
    if k >= n {
      ExecutesCalls(run.plan, run.events[n..], run.err);
      assert run.events[k] == run.events[n..][k - n];
      if run.act.FiltersAction? {
        FiltersPlanKeepsWanted(ctx, run.o0, run.s0, run.plan);
      } else {
        LeasesPlanKeepsWanted(ctx, run.o0, run.s0, run.plan);
      }
    }
    KeptIsSafe(o, run.o0, At(run.s0, run.events, k), run.events[k].call);
  }

  // Each action is safe with respect to the origin as it was read, even after earlier
  // actions or replicas have altered its configuration in memory.
  lemma ActionIsSafe(ctx: Context, o: Origin, run: ActionRun)
    requires ValidRun(ctx, run) && SameNames(o, run.o0)
    ensures SafeThroughout(o, run.s0, run.events)
    ensures SameNames(o, run.o1)
  {
    RunKeepsNames(ctx, run);
    SameNamesTransitive(o, run.o0, run.o1);
    hide ValidRun, SameNames, FitsCall, SafeCall, At;
    if run.act.FiltersAction? || run.act.LeasesAction? {
      forall k | 0 <= k < |run.events| ensures SafeCall(o, At(run.s0, run.events, k), run.events[k].call) {
        SliceActionIsSafe(ctx, o, run, k);
      }
    } else {
      NoCallIsStale(ctx, run);
      forall k | 0 <= k < |run.events| ensures SafeCall(o, At(run.s0, run.events, k), run.events[k].call) {
        FitsIsSafe(o, run.o0, At(run.s0, run.events, k), run.events[k].call);
      }
    }
  }

  lemma RunKeepsNames(ctx: Context, run: ActionRun)
    requires ValidRun(ctx, run)
    ensures SameNames(run.o0, run.o1) && Typed(run.o1)
  {
    NamesStay(run.act, run.o0, run.s0, !ReadFailed(run));
  }

  lemma AtConcat(s: Instance, a: seq<Event>, b: seq<Event>, k: nat)
    requires k <= |a| + |b|
    ensures At(s, a + b, k) == if k <= |a| then At(s, a, k) else At(Replay(s, a), b, k - |a|)
  {
    if k <= |a| {
      assert (a + b)[..k] == a[..k];
    } else {
      assert (a + b)[..k] == a + b[..k - |a|];
      ReplayConcat(s, a, b[..k - |a|]);
    }
  }

  lemma SafeConcat(o: Origin, s: Instance, a: seq<Event>, b: seq<Event>)
    requires SafeThroughout(o, s, a) && SafeThroughout(o, Replay(s, a), b)
    ensures SafeThroughout(o, s, a + b)
  {
    forall k | 0 <= k < |a + b| ensures SafeCall(o, At(s, a + b, k), (a + b)[k].call) {
      AtConcat(s, a, b, k);
      if k >= |a| {
        assert At(Replay(s, a), b, k - |a|) == At(s, a + b, k) by {
          if k == |a| { assert a[..|a|] == a && b[..0] == []; }
        }
      }
    }
  }
}
