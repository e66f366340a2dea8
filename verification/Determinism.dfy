// What an error-free execution of an action leaves behind is determined: the order in which
// maps are ranged over shows in the order of the calls only.

module Determinism {
  import opened Values
  import opened Server
  import opened Plans
  import opened Convergence
  import opened Ownership
  import opened MapOrder
  import opened ReplicaOrder
  import opened Rewrites

  // Two error-free executions of the same action, from the same origin and the same replica,
  // with the same flags given to added filters. A DHCP configuration is left out: whether it
  // is sent depends on the order in which the replica reports its leases.
  ghost predicate Repeated(ctx: Context, a: ActionRun, b: ActionRun, flags: Slot -> bool)
  {
    && ValidRun(ctx, a) && AllOk(a.events) && GivenBy(flags, a.events)
    && ValidRun(ctx, b) && AllOk(b.events) && GivenBy(flags, b.events)
    && a.act == b.act && a.o0 == b.o0 && a.s0 == b.s0 && !a.act.DhcpConfigAction?
  }

  predicate ListAction(act: Action)
  {
    act.FiltersAction? || act.ClientsAction? || act.LeasesAction? || act.RewritesAction?
  }

  // ---- Lists ----

  lemma SlotDetermined(ctx: Context, a: ActionRun, b: ActionRun, flags: Slot -> bool, slot: Slot)
    requires Repeated(ctx, a, b, flags)
    ensures SameAt(a.s1.lists, b.s1.lists, slot)
  {
    hide ValidRun, AllOk, GivenBy;
    if !WorksOn(a.act, slot.list) {
      ListsNotWorkedOn(ctx, a, slot);
      ListsNotWorkedOn(ctx, b, slot);
    } else if a.act.ClientsAction? {
      ClientListsAgree(ctx, a, b, slot);
    } else {
      SliceListsAgree(ctx, a, b, flags, slot);
    }
  }

  lemma ListsDetermined(ctx: Context, a: ActionRun, b: ActionRun, flags: Slot -> bool)
    requires Repeated(ctx, a, b, flags)
    ensures a.s1.lists == b.s1.lists
  {
    hide Repeated;
    forall slot ensures SameAt(a.s1.lists, b.s1.lists, slot) { SlotDetermined(ctx, a, b, flags, slot); }
    SameEverywhere(a.s1.lists, b.s1.lists);
  }

  lemma SameEverywhere(m: map<Slot, Item>, n: map<Slot, Item>)
    requires forall slot :: SameAt(m, n, slot)
    ensures m == n
  {
    forall slot ensures slot in m <==> slot in n { assert SameAt(m, n, slot); }
    forall slot | slot in m ensures m[slot] == n[slot] { assert SameAt(m, n, slot); }
  }

  // ---- Settings ----

  lemma ListActionSettings(ctx: Context, run: ActionRun)
    requires ValidRun(ctx, run) && AllOk(run.events) && ListAction(run.act)
    ensures run.s1.settings ==
            if run.act.FiltersAction? then RulesApplied(run.o0.settings, run.s0.settings) else run.s0.settings
  {
    hide ValidRun, AllOk, RulesApplied;
    if run.act.FiltersAction? { RulesRound(ctx, run); } else { SettingsOfListActions(ctx, run); }
  }

  // ---- Actions of one call ----

  lemma PlanDetermined(act: Action, ctx: Context, o: Origin, s: Instance, p: seq<Step>, q: seq<Step>)
    requires IsPlan(act, ctx, o, s, p) && IsPlan(act, ctx, o, s, q) && !ListAction(act) && !act.DhcpConfigAction?
    ensures p == q && |p| <= 1 && forall i | 0 <= i < |p| :: !p[i].call.ListChange?
  {}

  lemma OneCallDetermined(s: Instance, plan: seq<Step>, a: seq<Event>, b: seq<Event>)
    requires |plan| <= 1 && forall i | 0 <= i < |plan| :: !plan[i].call.ListChange?
    requires Executes(plan, a, false) && AllOk(a) && Executes(plan, b, false) && AllOk(b)
    ensures Replay(s, a) == Replay(s, b)
  {
    if |plan| == 1 {
      assert a == [] + [a[0]] && b == [] + [b[0]];
      ReplayOne(s, [], a[0]);
      ReplayOne(s, [], b[0]);
    }
  }

  lemma SmallDetermined(ctx: Context, a: ActionRun, b: ActionRun, flags: Slot -> bool)
    requires Repeated(ctx, a, b, flags) && !ListAction(a.act)
    ensures a.s1 == b.s1
  {
    ErrorFree(ctx, a);
    ErrorFree(ctx, b);
    hide ValidRun, IsPlan, Executes, Replay, GivenBy;
    PlanDetermined(a.act, ctx, a.o0, a.s0, a.plan, b.plan);
    OneCallDetermined(a.s0, a.plan, AfterTheRead(a), AfterTheRead(b));
  }

  // ---- The replica ----

  lemma OthersKeepRewrites(ctx: Context, run: ActionRun)
    requires ValidRun(ctx, run) && !run.act.RewritesAction?
    ensures run.s1.rewrites == run.s0.rewrites
  {
    OnlyTheOwnerChanges(ctx, run, RewritesAction);
  }

  // In whatever order maps are ranged over, the replica is left exactly the same, and so
  // is the origin in memory.
  lemma MapOrderIsInvisible(ctx: Context, a: ActionRun, b: ActionRun, flags: Slot -> bool)
    requires Repeated(ctx, a, b, flags)
    ensures a.s1 == b.s1 && a.o1 == b.o1
  {
    MemoryDetermined(ctx, a, b, flags);
    if ListAction(a.act) {
      ListsDetermined(ctx, a, b, flags);
      hide ValidRun, AllOk, GivenBy, ListAction;
      VersionStays(ctx, a);
      VersionStays(ctx, b);
      ListActionSettings(ctx, a);
      ListActionSettings(ctx, b);
      if a.act.RewritesAction? {
        RewritesDetermined(ctx, a, b);
      } else {
        OthersKeepRewrites(ctx, a);
        OthersKeepRewrites(ctx, b);
      }
    } else {
      SmallDetermined(ctx, a, b, flags);
    }
  }

  lemma MemoryDetermined(ctx: Context, a: ActionRun, b: ActionRun, flags: Slot -> bool)
    requires Repeated(ctx, a, b, flags)
    ensures a.o1 == b.o1
  {
    ErrorFree(ctx, a);
    ErrorFree(ctx, b);
    hide IsPlan, Executes, Replay, OriginAfter, GivenBy, AllOk, Typed, Filed;
  }
}
