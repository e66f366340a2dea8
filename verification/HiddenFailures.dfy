// Exactly what an execution without an error has achieved: what ContinueOnError hides, and
// what one round of the filter action leaves to the server.

module HiddenFailures {
  import opened Values
  import opened Server
  import opened Merging
  import opened Plans
  import opened NeverStale
  import opened Evolution
  import opened Convergence
  import opened Ownership
  import opened Repeats
  import opened Agreement
  import opened Syncing
  import opened Success
  import opened ReplicaOrder
  import opened Existence
  import opened Outcomes

  // ---- One round of the filter action ----

  // Every filter that is missing wants the flag the server gives it.
  ghost predicate FlagsFit(o: Origin, lists: map<Slot, Item>, flags: Slot -> bool)
  {
    forall slot: Slot | (slot.list == BlockLists || slot.list == AllowLists) && Wants(o, slot) && slot !in lists ::
      FlagFits(Want(o, slot), flags(slot))
  }

  predicate FlagFits(it: Item, given: bool)
  {
    it.Filter? && it.enabled == given
  }

  // One write is enough for the rules and for enabled and interval.
  ghost predicate OneRuleWrite(o: Settings, s: Settings)
  {
    Render(o.userRules) == Render(s.userRules) || o.filtering == s.filtering
  }

  lemma FilterSlotExactly(ctx: Context, run: ActionRun, flags: Slot -> bool, slot: Slot)
    requires ValidRun(ctx, run) && run.act.FiltersAction? && AllOk(run.events) && CleanFor(FiltersAction, run.o0)
    requires GivenBy(flags, run.events) && (slot.list == BlockLists || slot.list == AllowLists)
    ensures !Differs(run.o0, run.s1.lists, slot) <==>
            (Wants(run.o0, slot) && slot !in run.s0.lists ==> FlagFits(Want(run.o0, slot), flags(slot)))
  {
    var given := ListRound(ctx, run, slot);
    if Wants(run.o0, slot) { WantBelongs(run.o0, slot); }
    if slot in run.s0.lists { FilterRound(ctx, run, slot); }
    hide ValidRun, Wants, Want, GivenBy, AllOk;
  }

  // One error-free round brings everything the action looks at into agreement if and only
  // if the server gives every missing filter the flag it is to have, and the rules or else
  // enabled and interval agreed before.
  lemma FiltersAfterOneRound(ctx: Context, run: ActionRun, flags: Slot -> bool)
    requires ValidRun(ctx, run) && run.act.FiltersAction? && AllOk(run.events) && CleanFor(FiltersAction, run.o0)
    requires GivenBy(flags, run.events)
    ensures FiltersAgree(run.o0, run.s1) <==>
            FlagsFit(run.o0, run.s0.lists, flags) && OneRuleWrite(run.o0.settings, run.s0.settings)
  {
    hide Wants, Want, Differs, Render, FlagFits, AllOk, GivenBy, CleanFor;
    forall slot: Slot | slot.list == BlockLists || slot.list == AllowLists
      ensures !Differs(run.o0, run.s1.lists, slot) <==>
              (Wants(run.o0, slot) && slot !in run.s0.lists ==> FlagFits(Want(run.o0, slot), flags(slot)))
    {
      FilterSlotExactly(ctx, run, flags, slot);
    }
    RulesRound(ctx, run);
    hide ValidRun;
    AgreeSlotBySlot(run.o0, run.s0.lists, run.s1.lists, flags);
  }

  lemma AgreeSlotBySlot(o: Origin, before: map<Slot, Item>, after: map<Slot, Item>, flags: Slot -> bool)
    requires forall slot: Slot | slot.list == BlockLists || slot.list == AllowLists ::
               !Differs(o, after, slot) <==>
               (Wants(o, slot) && slot !in before ==> FlagFits(Want(o, slot), flags(slot)))
    ensures ListAgrees(BlockLists, o, after) && ListAgrees(AllowLists, o, after) <==> FlagsFit(o, before, flags)
  {
    hide Wants, Want, Differs, FlagFits;
    if FlagsFit(o, before, flags) {
      forall slot: Slot | slot.list == BlockLists || slot.list == AllowLists ensures !Differs(o, after, slot) {}
    } else {
      var slot: Slot :| (slot.list == BlockLists || slot.list == AllowLists) && Wants(o, slot) && slot !in before
        && !FlagFits(Want(o, slot), flags(slot));
      assert Differs(o, after, slot);
    }
  }

  // ---- A failed change shows ----

  lemma FailedChangeShows(o: Origin, s: Instance, plan: seq<Step>, events: seq<Event>, k: nat)
    requires SoundPlan(o, s.lists, plan) && Executes(plan, events, false) && k < |events|
    requires events[k].call.ListChange? && !events[k].Ok()
    ensures var slot := events[k].call.change.slot;
            Differs(o, Replay(s, events).lists, slot) && !SlotSettled(o, s.lists, Replay(s, events).lists, slot)
  {
    var slot := events[k].call.change.slot;
    TouchedOnce(s, events, k);
    assert Fits(o, s.lists, events[k].call.change);
    hide Executes, SoundPlan, Replay;
  }

  // The lists an action works on are settled.
  ghost predicate ListsSettled(act: Action, o: Origin, was: map<Slot, Item>, lists: map<Slot, Item>)
  {
    forall slot: Slot | WorksOn(act, slot.list) ::
      if act.FiltersAction? then SlotSettled(o, was, lists, slot) else !Differs(o, lists, slot)
  }

  lemma AgreesMeansSettled(act: Action, ctx: Context, o: Origin, was: Instance, s: Instance)
    requires Agrees(act, ctx, o, was, s) && (act.FiltersAction? || act.ClientsAction? || act.LeasesAction?)
    ensures ListsSettled(act, o, was.lists, s.lists)
  {
    hide Differs, SlotSettled;
  }

  lemma FailureMeansUnsettled(ctx: Context, run: ActionRun, k: nat)
    requires ValidRun(ctx, run) && !run.err && CleanFor(run.act, run.o0)
    requires k < |run.events| && run.events[k].call.ListChange? && !run.events[k].Ok()
    ensures !ListsSettled(run.act, run.o0, run.s0.lists, run.s1.lists)
  {
    var n := Reads(run.act, run.o0);
    hide IsPlan, Differs, SlotSettled, Executes, CleanFor, Typed, Filed, OriginAfter, SoundPlan;
    assert !ReadFailed(run) && k >= n && Executes(run.plan, run.events[n..], false);
    PlanSound(run.act, ctx, run.o0, run.s0, run.plan);
    WithoutTheRead(run, n);
    RunOwnsItsCalls(ctx, run);
    hide ValidRun, Replay;
    assert run.events[k] == run.events[n..][k - n];
    FailedChangeShows(run.o0, run.s0, run.plan, run.events[n..], k - n);
    assert WorksOn(run.act, run.events[k].call.change.slot.list);
  }

  lemma WithoutTheRead(run: ActionRun, n: nat)
    requires n <= 1 && n <= |run.events| && (n == 1 ==> run.events[0].call.Get?) && run.s1 == Replay(run.s0, run.events)
    ensures run.s1 == Replay(run.s0, run.events[n..])
  {
    AfterRead(run.s0, run.events, n, |run.events|);
    WholeIsAt(run.s0, run.events);
    WholeIsAt(run.s0, run.events[n..]);
  }

  lemma TlsMakesOneCall(ctx: Context, run: ActionRun)
    requires ValidRun(ctx, run) && run.act.TlsAction? && !run.err
    ensures 1 <= |run.events| <= 2 && run.events[0].call.Get?
  {
    hide Replay, OriginAfter, Typed, Filed;
    assert |run.plan| <= 1;
  }

  lemma FailedTlsShows(ctx: Context, run: ActionRun, k: nat)
    requires ValidRun(ctx, run) && !run.err && k < |run.events| && run.events[k].call.SetTls? && !run.events[k].Ok()
    ensures !Agrees(TlsAction, ctx, run.o0, run.s0, run.s1)
  {
    assert run.s1 == Replay(run.s0, run.events);
    hide ValidRun, Replay;
    HiddenKind(ctx, run, k);
    TlsMakesOneCall(ctx, run);
    assert CleanFor(run.act, run.o0);
    HiddenIsDifference(ctx, run, k);
    HiddenChangesNothing(run.s0, run.events);
  }

  // An execution without an error has brought about its agreement if and only if every
  // call of it succeeded.
  lemma ActionAgreesExactly(ctx: Context, run: ActionRun)
    requires ValidRun(ctx, run) && !run.err
    requires Attainable(run.act, ctx, run.o0, run.s0) && CleanFor(run.act, run.o0)
    ensures Agrees(run.act, ctx, run.o0, run.s0, run.s1) <==> AllOk(run.events)
  {
    hide ValidRun, Agrees, Attainable, ListsSettled, CleanFor;
    if AllOk(run.events) {
      ActionAgrees(ctx, run);
    } else {
      var k :| 0 <= k < |run.events| && !run.events[k].Ok();
      NoErrorMeans(ctx, run);
      FailureShows(ctx, run, k);
    }
  }

  // Only the three list actions and the TLS action make calls whose failure can be hidden.
  lemma HiddenKind(ctx: Context, run: ActionRun, j: nat)
    requires ValidRun(ctx, run) && j < |run.events| && Hidden(run.events[j].call)
    ensures if run.events[j].call.SetTls? then run.act.TlsAction?
            else run.act.FiltersAction? || run.act.ClientsAction? || run.act.LeasesAction?
  {
    hide ValidRun;
    RunOwnsItsCalls(ctx, run);
  }

  lemma FailureShows(ctx: Context, run: ActionRun, k: nat)
    requires ValidRun(ctx, run) && !run.err && CleanFor(run.act, run.o0)
    requires k < |run.events| && Hidden(run.events[k].call) && !run.events[k].Ok()
    ensures !Agrees(run.act, ctx, run.o0, run.s0, run.s1)
  {
    hide ValidRun, Agrees, ListsSettled, CleanFor;
    if run.events[k].call.SetTls? {
      HiddenKind(ctx, run, k);
      FailedTlsShows(ctx, run, k);
    } else {
      HiddenKind(ctx, run, k);
      FailureMeansUnsettled(ctx, run, k);
      if Agrees(run.act, ctx, run.o0, run.s0, run.s1) { AgreesMeansSettled(run.act, ctx, run.o0, run.s0, run.s1); }
    }
  }

  // ---- A whole visit ----

  // A reported success means agreement on an enabled feature if and only if no failure of
  // its action was hidden.
  lemma SuccessIsAgreementExactly(cfg: Config, o: Origin, run: SyncRun, act: Action)
    requires ValidSync(cfg, run) && run.ok && Enabled(cfg.features, act)
    requires Suffices(cfg.features, act, o) && CleanFor(act, o) && AsRead(act, o, run.o0)
    ensures Agrees(act, ContextFor(cfg, run.inst, run.s0), o, run.s0, run.s1) <==> NothingHidden(run.runs, act)
  {
    hide ValidSync, Suffices, AsRead, Agrees, CleanFor, Hidden, Enabled;
    if NothingHidden(run.runs, act) {
      SuccessMeansAgreement(cfg, o, run, act);
    } else {
      var i, j :| 0 <= i < |run.runs| && run.runs[i].act == act && 0 <= j < |run.runs[i].events|
        && Hidden(run.runs[i].events[j].call) && !run.runs[i].events[j].Ok();
      HiddenFailureStays(cfg, o, run, act, i, j);
    }
  }

  lemma HiddenFailureStays(cfg: Config, o: Origin, run: SyncRun, act: Action, i: nat, j: nat)
    requires ValidSync(cfg, run) && run.ok && Enabled(cfg.features, act)
    requires Suffices(cfg.features, act, o) && CleanFor(act, o) && AsRead(act, o, run.o0)
    requires i < |run.runs| && run.runs[i].act == act && j < |run.runs[i].events|
    requires Hidden(run.runs[i].events[j].call) && !run.runs[i].events[j].Ok()
    ensures !Agrees(act, ContextFor(cfg, run.inst, run.s0), o, run.s0, run.s1)
  {
    var ctx := ContextFor(cfg, run.inst, run.s0);
    hide Suffices, AsRead, Agrees, CleanFor, Hidden, OwnedSame, Chained, ValidRun, Ordered, ActionList;
    var at := ExecutedAt(cfg, run, act);
    assert ValidSync(cfg, run);
    hide ValidSync;
    OnlyOnce(run.runs, at, i);
    MemoryAt(cfg, o, run, act, i);
    CleanAsRead(act, o, run.runs[i].o0);
    HiddenKind(ctx, run.runs[i], j);
    FailureShows(ctx, run.runs[i], j);
    if Agrees(act, ctx, o, run.s0, run.s1) {
      EndIsAfterAction(cfg, run, i);
      AgreementFrame(act, ctx, o, run.s0, run.s1, run.runs[i].s1);
      OwnedSameSymmetric(act, run.runs[i].s0, run.s0);
      AgreementBefore(act, ctx, o, run.s0, run.runs[i].s0, run.runs[i].s1);
      AsReadSymmetric(act, o, run.runs[i].o0);
      AgreesAsRead(act, ctx, run.runs[i].o0, o, run.runs[i].s0, run.runs[i].s1);
    }
  }

  lemma OnlyOnce(runs: seq<ActionRun>, i: nat, j: nat)
    requires Ordered(runs) && i < |runs| && j < |runs| && runs[i].act == runs[j].act
    ensures i == j
  {}

  lemma MemoryAt(cfg: Config, o: Origin, run: SyncRun, act: Action, i: nat)
    requires ValidSync(cfg, run) && run.ok && AsRead(act, o, run.o0) && Suffices(cfg.features, act, o) && i < |run.runs|
    ensures AsRead(act, o, run.runs[i].o0)
  {
    hide AsRead, Chained, ActionList, ValidRun;
    ChainLink(ContextFor(cfg, run.inst, run.s0), run.o0, run.s0, run.runs, i);
    StaysAsRead(ContextFor(cfg, run.inst, run.s0), act, o, run.o0, run.s0, run.runs, i);
  }

  lemma CleanAsRead(act: Action, o: Origin, o': Origin)
    requires CleanFor(act, o) && AsRead(act, o, o')
    ensures CleanFor(act, o')
  {}

  lemma AsReadSymmetric(act: Action, o: Origin, o': Origin)
    requires AsRead(act, o, o')
    ensures AsRead(act, o', o)
  {
    LooselySymmetric(o, o');
    if act.ClientsAction? { OriginLikeSymmetric(o, o'); }
    hide Loosely, OriginLike;
  }

  lemma EndIsAfterAction(cfg: Config, run: SyncRun, i: nat)
    requires ValidSync(cfg, run) && run.ok && i < |run.runs| && !run.runs[i].act.ProtectionAction?
    ensures OwnedSame(run.runs[i].act, run.s1, run.runs[i].s1)
  {
    SuccessfulVisit(cfg, run);
    RunsAreEnabled(cfg, run);
    hide ValidSync, OwnedSame, Chained, ActionList;
    assert Ordered(run.runs);
    OwnPartStays(ContextFor(cfg, run.inst, run.s0), run.o0, run.s0, run.runs, i, |run.runs|);
    OwnedSameSymmetric(run.runs[i].act, run.runs[i].s1, run.s1);
  }

  // ---- Before the call ----

  // The steps whose failure can be hidden are tolerated exactly under ContinueOnError.
  ghost predicate ToleratedWhenHidden(plan: seq<Step>, continueOnError: bool)
  {
    forall i | 0 <= i < |plan| && Hidden(plan[i].call) :: plan[i].tolerated == continueOnError
  }

  lemma FilterPlanTolerated(list: ListId, items: seq<Item>, lists: map<Slot, Item>, coe: bool, plan: seq<Step>)
    requires IsFilterPlan(list, items, lists, coe, plan)
    ensures ToleratedWhenHidden(plan, coe)
  {
    hide ListAdds, ListUpdates, Changes, Listing;
    var removes :| IsFilterPlanWith(list, items, lists, coe, plan, removes);
  }

  lemma FiltersPlanTolerated(ctx: Context, o: Origin, s: Instance, plan: seq<Step>)
    requires IsFiltersPlan(ctx, o, s, plan)
    ensures ToleratedWhenHidden(plan, ctx.continueOnError)
  {
    hide IsFilterPlan;
    var block, allow :|
      && IsFilterPlan(BlockLists, o.filters, s.lists, ctx.continueOnError, block)
      && IsFilterPlan(AllowLists, o.allowFilters, s.lists, ctx.continueOnError, allow)
      && plan == block + allow + RuleSteps(o.settings, s.settings);
    FilterPlanTolerated(BlockLists, o.filters, s.lists, ctx.continueOnError, block);
    FilterPlanTolerated(AllowLists, o.allowFilters, s.lists, ctx.continueOnError, allow);
  }

  lemma PlanTolerated(act: Action, ctx: Context, o: Origin, s: Instance, plan: seq<Step>)
    requires IsPlan(act, ctx, o, s, plan)
    ensures ToleratedWhenHidden(plan, ctx.continueOnError)
  {
    hide IsFiltersPlan, IsRewriteDiff, IsDiff, Listing, Changes, ListAdds;
    if act.FiltersAction? { FiltersPlanTolerated(ctx, o, s, plan); }
  }

  // Every tolerated call fails, every other succeeds.
  function Worst(plan: seq<Step>): (events: seq<Event>)
    ensures |events| == |plan|
    ensures forall i | 0 <= i < |plan| :: events[i].call == plan[i].call && (events[i].Ok() <==> !plan[i].tolerated)
  {
    seq(|plan|, i requires 0 <= i < |plan| =>
      Event(plan[i].call, if plan[i].tolerated then Failed(500) else Done, false))
  }

  // Under ContinueOnError every action has, from every origin and replica, an execution
  // without an error in which every change of a list entry and of TLS fails.
  lemma SuccessMayHideEverything(act: Action, ctx: Context, o: Origin, s: Instance) returns (run: ActionRun)
    requires Typed(o) && Filed(s) && ctx.continueOnError
    ensures ValidRun(ctx, run) && run.act == act && run.o0 == o && run.s0 == s && !run.err
    ensures forall k | 0 <= k < |run.events| && Hidden(run.events[k].call) :: !run.events[k].Ok()
    ensures run.s1.lists == s.lists && run.s1.settings.tls == s.settings.tls
  {
    hide Typed, Filed, IsPlan, Replay, OriginAfter, ReadOf, ValidRun, Hidden;
    var plan := SomePlan(act, ctx, o, s);
    PlanTolerated(act, ctx, o, s, plan);
    var events := Worst(plan);
    assert Executes(plan, events, false);
    var read: seq<Event>;
    if ReadOf(act, o).Some? {
      var e := Event(Get(ReadOf(act, o).value), Done, false);
      run := ReadAndDo(act, ctx, o, s, [], e, plan, events, false, OriginAfter(act, o, s, true));
      read := [e];
      assert [] + [e] + events == [e] + events;
    } else {
      run := JustDo(act, ctx, o, s, [], plan, events, false);
      read := [];
      assert [] + events == events;
    }
    OutcomeMeans(act, ctx, run, o, s, read + events);
    WorstHidesAll(plan, read, events, ctx.continueOnError);
    HiddenChangesNothing(s, run.events);
  }

  lemma OutcomeMeans(act: Action, ctx: Context, run: ActionRun, o: Origin, s: Instance, events: seq<Event>)
    requires Outcome(act, ctx, run, false, o, s, [], run.o1, run.s1, events)
    ensures ValidRun(ctx, run) && run.act == act && run.o0 == o && run.s0 == s && !run.err && run.events == events
    ensures run.s1 == Replay(s, events)
  {
    hide IsPlan, Typed, Filed, Replay, Executes;
    assert [] + run.events == run.events;
  }

  lemma WorstHidesAll(plan: seq<Step>, read: seq<Event>, events: seq<Event>, coe: bool)
    requires ToleratedWhenHidden(plan, coe) && coe && events == Worst(plan)
    requires forall i | 0 <= i < |read| :: read[i].call.Get?
    ensures forall k | 0 <= k < |read + events| && Hidden((read + events)[k].call) :: !(read + events)[k].Ok()
  {}

  lemma {:induction false} HiddenChangesNothing(s: Instance, events: seq<Event>)
    requires forall k | 0 <= k < |events| && Hidden(events[k].call) :: !events[k].Ok()
    ensures Replay(s, events).lists == s.lists && Replay(s, events).settings.tls == s.settings.tls
  {
    if events != [] { HiddenChangesNothing(s, events[..|events| - 1]); }
  }

  // Every execution without an error attains the agreement of its action.
  ghost predicate AlwaysAgrees(act: Action, ctx: Context, o: Origin, s: Instance)
  {
    forall run: ActionRun :: Unfailing(act, ctx, o, s, run) ==> Agrees(act, ctx, o, s, run.s1)
  }

  ghost predicate Unfailing(act: Action, ctx: Context, o: Origin, s: Instance, run: ActionRun)
  {
    ValidRun(ctx, run) && run.act == act && run.o0 == o && run.s0 == s && !run.err
  }

  // There is nothing to change whose failure could be hidden.
  ghost predicate NothingToHide(act: Action, o: Origin, s: Instance)
  {
    && (forall slot: Slot | WorksOn(act, slot.list) :: !Differs(o, s.lists, slot))
    && (act.TlsAction? ==> s.settings.tls == o.settings.tls)
  }

  lemma NothingToHideMeans(ctx: Context, run: ActionRun)
    requires ValidRun(ctx, run) && !run.err && CleanFor(run.act, run.o0) && NothingToHide(run.act, run.o0, run.s0)
    ensures AllOk(run.events)
  {
    NoErrorMeans(ctx, run);
    hide Differs;
    forall k | 0 <= k < |run.events| ensures run.events[k].Ok() {
      if !run.events[k].Ok() {
        HiddenIsDifference(ctx, run, k);
      }
    }
  }

  // A planned change of a list entry or of TLS is there because something differs.
  lemma PlannedIsDifference(act: Action, ctx: Context, o: Origin, s: Instance, plan: seq<Step>, i: nat)
    requires Typed(o) && Filed(s) && IsPlan(act, ctx, o, s, plan) && CleanFor(act, o)
    requires i < |plan| && plan[i].call.ListChange?
    ensures !NothingToHide(act, o, s)
  {
    PlanSound(act, ctx, o, s, plan);
    PlanOwned(act, ctx, o, s, plan);
    hide IsPlan, Typed, Filed, CleanFor;
    assert Fits(o, s.lists, plan[i].call.change) && Owns(act, plan[i].call);
    assert Differs(o, s.lists, plan[i].call.change.slot);
    hide Differs;
  }

  lemma PlannedTlsIsDifference(act: Action, ctx: Context, o: Origin, s: Instance, plan: seq<Step>, i: nat)
    requires IsPlan(act, ctx, o, s, plan) && i < |plan| && plan[i].call.SetTls?
    ensures act.TlsAction? && s.settings.tls != o.settings.tls
  {
    PlanOwned(act, ctx, o, s, plan);
    assert Owns(act, plan[i].call);
  }

  lemma HiddenIsDifference(ctx: Context, run: ActionRun, k: nat)
    requires ValidRun(ctx, run) && !run.err && CleanFor(run.act, run.o0)
    requires k < |run.events| && Hidden(run.events[k].call)
    ensures !NothingToHide(run.act, run.o0, run.s0)
  {
    var n := Reads(run.act, run.o0);
    hide IsPlan, Typed, Filed, CleanFor, Executes, NothingToHide, Replay, OriginAfter;
    assert !ReadFailed(run) && k >= n && run.events[k] == run.events[n..][k - n];
    ExecutesCalls(run.plan, run.events[n..], run.err);
    hide ValidRun;
    if run.events[k].call.SetTls? {
      PlannedTlsIsDifference(run.act, ctx, run.o0, run.s0, run.plan, k - n);
      TlsDifference(run.act, run.o0, run.s0);
    } else {
      PlannedIsDifference(run.act, ctx, run.o0, run.s0, run.plan, k - n);
    }
  }

  lemma TlsDifference(act: Action, o: Origin, s: Instance)
    requires act.TlsAction? && s.settings.tls != o.settings.tls
    ensures !NothingToHide(act, o, s)
  {}

  lemma SomethingHiddenShows(act: Action, ctx: Context, o: Origin, s: Instance, s': Instance)
    requires !NothingToHide(act, o, s) && s'.lists == s.lists && s'.settings.tls == s.settings.tls
    ensures !Agrees(act, ctx, o, s, s')
  {
    if act.TlsAction? && s.settings.tls != o.settings.tls {
    } else {
      var slot: Slot :| WorksOn(act, slot.list) && Differs(o, s.lists, slot);
      if act.FiltersAction? {
        assert !SlotSettled(o, s.lists, s'.lists, slot);
      }
      hide Differs, SlotSettled;
    }
  }

  // Seen before the call: every execution without an error attains its agreement if and
  // only if ContinueOnError is off or there is no such change to make.
  lemma AgreementGuaranteedExactly(act: Action, ctx: Context, o: Origin, s: Instance)
    requires Typed(o) && Filed(s) && Attainable(act, ctx, o, s) && CleanFor(act, o)
    ensures AlwaysAgrees(act, ctx, o, s) <==> !ctx.continueOnError || NothingToHide(act, o, s)
  {
    hide Typed, Filed, Attainable, CleanFor, Agrees, NothingToHide, ValidRun, AllOk, Unfailing;
    if !ctx.continueOnError || NothingToHide(act, o, s) {
      forall run: ActionRun | Unfailing(act, ctx, o, s, run) ensures Agrees(act, ctx, o, s, run.s1) {
        GuaranteedAgreement(act, ctx, o, s, run);
      }
    } else {
      var run := SuccessMayHideEverything(act, ctx, o, s);
      assert Unfailing(act, ctx, o, s, run) by { UnfailingIs(act, ctx, o, s, run); }
      SomethingHiddenShows(act, ctx, o, s, run.s1);
    }
  }

  lemma UnfailingIs(act: Action, ctx: Context, o: Origin, s: Instance, run: ActionRun)
    requires ValidRun(ctx, run) && run.act == act && run.o0 == o && run.s0 == s && !run.err
    ensures Unfailing(act, ctx, o, s, run)
  {}

  lemma GuaranteedAgreement(act: Action, ctx: Context, o: Origin, s: Instance, run: ActionRun)
    requires Unfailing(act, ctx, o, s, run) && Attainable(act, ctx, o, s) && CleanFor(act, o)
    requires !ctx.continueOnError || NothingToHide(act, o, s)
    ensures Agrees(act, ctx, o, s, run.s1)
  {
    hide ValidRun, Attainable, CleanFor, Agrees, NothingToHide;
    if !ctx.continueOnError { NoErrorMeans(ctx, run); } else { NothingToHideMeans(ctx, run); }
    ActionAgrees(ctx, run);
  }

  // For the filter action, everything it looks at: also no filter may be missing, since
  // the server picks its flag, and one write must do for the rules.
  ghost predicate AlwaysFullyAgrees(ctx: Context, o: Origin, s: Instance)
  {
    forall run: ActionRun :: Unfailing(FiltersAction, ctx, o, s, run) ==> FiltersAgree(o, run.s1)
  }

  ghost predicate NoFilterMissing(o: Origin, s: Instance)
  {
    forall slot: Slot | (slot.list == BlockLists || slot.list == AllowLists) && Wants(o, slot) :: slot in s.lists
  }

  lemma FullAgreementGuaranteedExactly(ctx: Context, o: Origin, s: Instance)
    requires Typed(o) && Filed(s) && CleanFor(FiltersAction, o)
    ensures AlwaysFullyAgrees(ctx, o, s) <==>
            OneRuleWrite(o.settings, s.settings) && NoFilterMissing(o, s)
            && (!ctx.continueOnError || NothingToHide(FiltersAction, o, s))
  {
    hide Typed, Filed, CleanFor, NothingToHide, ValidRun, AllOk, Unfailing, FiltersAgree, OneRuleWrite, NoFilterMissing;
    if OneRuleWrite(o.settings, s.settings) && NoFilterMissing(o, s)
       && (!ctx.continueOnError || NothingToHide(FiltersAction, o, s)) {
      forall run: ActionRun | Unfailing(FiltersAction, ctx, o, s, run) ensures FiltersAgree(o, run.s1) {
        GuaranteedFullAgreement(ctx, o, s, run);
      }
    } else {
      var run := DisagreeingRun(ctx, o, s);
    }
  }

  lemma GuaranteedFullAgreement(ctx: Context, o: Origin, s: Instance, run: ActionRun)
    requires Unfailing(FiltersAction, ctx, o, s, run) && CleanFor(FiltersAction, o)
    requires OneRuleWrite(o.settings, s.settings) && NoFilterMissing(o, s)
    requires !ctx.continueOnError || NothingToHide(FiltersAction, o, s)
    ensures FiltersAgree(o, run.s1)
  {
    hide ValidRun, NothingToHide, CleanFor, OneRuleWrite;
    if !ctx.continueOnError { NoErrorMeans(ctx, run); } else { NothingToHideMeans(ctx, run); }
    PresentAgree(ctx, run);
  }

  lemma PresentAgree(ctx: Context, run: ActionRun)
    requires ValidRun(ctx, run) && run.act.FiltersAction? && AllOk(run.events) && CleanFor(FiltersAction, run.o0)
    requires OneRuleWrite(run.o0.settings, run.s0.settings) && NoFilterMissing(run.o0, run.s0)
    ensures FiltersAgree(run.o0, run.s1)
  {
    forall slot: Slot | slot.list == BlockLists || slot.list == AllowLists
      ensures !Differs(run.o0, run.s1.lists, slot)
    {
      FilterRound(ctx, run, slot);
    }
    RulesRound(ctx, run);
    hide ValidRun, Differs, Render;
  }

  // An execution without an error that leaves a difference.
  lemma DisagreeingRun(ctx: Context, o: Origin, s: Instance) returns (run: ActionRun)
    requires Typed(o) && Filed(s) && CleanFor(FiltersAction, o)
    requires !(OneRuleWrite(o.settings, s.settings) && NoFilterMissing(o, s)
               && (!ctx.continueOnError || NothingToHide(FiltersAction, o, s)))
    ensures Unfailing(FiltersAction, ctx, o, s, run) && !FiltersAgree(o, run.s1)
  {
    hide Typed, Filed, CleanFor, ValidRun, AllOk, OneRuleWrite, Wants, Want;
    var t: seq<Event>;
    if !OneRuleWrite(o.settings, s.settings) {
      run, t := ErrorFreeRunExists(FiltersAction, ctx, o, s, [], false);
      RulesStillDiffer(ctx, run);
    } else if !NoFilterMissing(o, s) {
      var slot: Slot :| (slot.list == BlockLists || slot.list == AllowLists) && Wants(o, slot) && slot !in s.lists;
      WantBelongs(o, slot);
      var given := !Want(o, slot).enabled;
      run, t := ErrorFreeRunExists(FiltersAction, ctx, o, s, [], given);
      FilterSlotExactly(ctx, run, (slot: Slot) => given, slot);
      assert Differs(o, run.s1.lists, slot);
    } else {
      run := SuccessMayHideEverything(FiltersAction, ctx, o, s);
      var slot: Slot :| WorksOn(FiltersAction, slot.list) && Differs(o, s.lists, slot);
      assert Differs(o, run.s1.lists, slot);
    }
  }

  lemma RulesStillDiffer(ctx: Context, run: ActionRun)
    requires ValidRun(ctx, run) && run.act.FiltersAction? && AllOk(run.events)
    requires !OneRuleWrite(run.o0.settings, run.s0.settings)
    ensures !FiltersAgree(run.o0, run.s1)
  {
    RulesRound(ctx, run);
    hide ValidRun, Render, ListAgrees;
  }
}
