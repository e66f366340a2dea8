// What a reported success means for the replica, and what a run never touches.

module Success {
  import opened Sorting
  import opened Values
  import opened Server
  import opened Merging
  import opened Plans
  import opened NeverStale
  import opened Evolution
  import opened Convergence
  import opened Ownership
  import opened Agreement
  import opened Syncing
  import Progress

  // ---- Failures that do not show ----

  // The calls whose failure ContinueOnError hides: changes of list entries and of TLS.
  predicate Hidden(call: Call)
  {
    call.ListChange? || call.SetTls?
  }

  ghost predicate ToleranceOnlyFor(plan: seq<Step>, continueOnError: bool)
  {
    forall i | 0 <= i < |plan| && plan[i].tolerated :: continueOnError && Hidden(plan[i].call)
  }

  lemma FilterPlanTolerance(list: ListId, items: seq<Item>, lists: map<Slot, Item>, coe: bool, plan: seq<Step>)
    requires IsFilterPlan(list, items, lists, coe, plan)
    ensures ToleranceOnlyFor(plan, coe)
  {
    hide ListAdds, ListUpdates, Changes, Listing;
    var removes :| IsFilterPlanWith(list, items, lists, coe, plan, removes);
  }

  lemma ListPlanTolerance(ctx: Context, act: Action, o: Origin, s: Instance, plan: seq<Step>)
    requires IsPlan(act, ctx, o, s, plan) && (act.FiltersAction? || act.ClientsAction? || act.LeasesAction?)
    ensures ToleranceOnlyFor(plan, ctx.continueOnError)
  {
    hide IsFilterPlan, IsDiff, Listing, Changes, ListAdds;
    if act.FiltersAction? {
      assert IsFiltersPlan(ctx, o, s, plan);
      hide IsPlan;
      var block, allow :|
        && IsFilterPlan(BlockLists, o.filters, s.lists, ctx.continueOnError, block)
        && IsFilterPlan(AllowLists, o.allowFilters, s.lists, ctx.continueOnError, allow)
        && plan == block + allow + RuleSteps(o.settings, s.settings);
      FilterPlanTolerance(BlockLists, o.filters, s.lists, ctx.continueOnError, block);
      FilterPlanTolerance(AllowLists, o.allowFilters, s.lists, ctx.continueOnError, allow);
    }
  }

  lemma PlanTolerance(ctx: Context, act: Action, o: Origin, s: Instance, plan: seq<Step>)
    requires IsPlan(act, ctx, o, s, plan)
    ensures ToleranceOnlyFor(plan, ctx.continueOnError)
  {
    hide IsFiltersPlan, IsClientsPlan, IsLeasesPlan, IsRewriteDiff, Listing;
    if act.FiltersAction? || act.ClientsAction? || act.LeasesAction? {
      ListPlanTolerance(ctx, act, o, s, plan);
    }
  }

  // An action without an error made no failing call, except hidden ones under ContinueOnError.
  lemma NoErrorMeans(ctx: Context, run: ActionRun)
    requires ValidRun(ctx, run) && !run.err
    ensures forall i | 0 <= i < |run.events| && !run.events[i].Ok() :: ctx.continueOnError && Hidden(run.events[i].call)
    ensures !ctx.continueOnError ==> AllOk(run.events)
  {
    var n := Reads(run.act, run.o0);
    hide IsPlan, Replay, OriginAfter, Typed, Filed, Hidden, ReadOf;
    PlanTolerance(ctx, run.act, run.o0, run.s0, run.plan);
    assert !ReadFailed(run) && Executes(run.plan, run.events[n..], false);
    assert n == 1 ==> run.events[0].Ok();
    hide ValidRun;
    forall i | 0 <= i < |run.events| && !run.events[i].Ok()
      ensures ctx.continueOnError && Hidden(run.events[i].call)
    {
      assert run.events[i] == run.events[n..][i - n];
    }
  }

  // ---- Agreement, kept until the end of the run ----

  // The same configuration in memory but for the order of the access lists and the
  // blocked services, and for the bodies of clients.
  ghost predicate Loosely(a: Origin, b: Origin)
  {
    SettingsLike(a.settings, b.settings) && SameNames(a, b)
  }

  lemma LooselySymmetric(a: Origin, b: Origin)
    requires Loosely(a, b)
    ensures Loosely(b, a)
  {}

  lemma AgreesWithLoose(act: Action, ctx: Context, o: Origin, o': Origin, was: Instance, s: Instance)
    requires Loosely(o, o') && Agrees(act, ctx, o', was, s) && !act.ClientsAction?
    ensures Agrees(act, ctx, o, was, s)
  {
    if act.FiltersAction? || act.LeasesAction? {
      assert forall list | list != Clients :: o.List(list) == o'.List(list);
      forall slot: Slot | slot.list != Clients
        ensures Differs(o', s.lists, slot) == Differs(o, s.lists, slot)
        ensures NearlyAgrees(o', s.lists, slot) == NearlyAgrees(o, s.lists, slot)
        ensures SlotSettled(o', was.lists, s.lists, slot) == SlotSettled(o, was.lists, s.lists, slot)
      {
        assert Wanted(o, slot.list) == Wanted(o', slot.list);
      }
      hide Differs, NearlyAgrees, SlotSettled, Render;
    } else {
      hide KeyBag, KeyOnce, SortDns, SameKeys;
    }
  }

  lemma ClientsAgreeWithLike(ctx: Context, o: Origin, o': Origin, was: Instance, s: Instance)
    requires OriginLike(o, o') && Agrees(ClientsAction, ctx, o', was, s)
    ensures Agrees(ClientsAction, ctx, o, was, s)
  {
    LikeOriginsWant(o, o');
    hide Wants, Want;
    forall slot ensures Differs(o', s.lists, slot) == Differs(o, s.lists, slot) {
      if Wants(o, slot) {
        ResortedMeansSame(Want(o, slot), Want(o', slot));
        SameThroughLike(Want(o, slot), Want(o', slot));
      }
    }
  }

  lemma SameThroughLike(a: Item, b: Item)
    requires Same(a, b) && a.Key() == b.Key()
    ensures forall c :: Same(c, a) <==> Same(c, b)
  {}

  // Agreement depends on the action's own part of the replica only, now and before.
  lemma AgreementFrame(act: Action, ctx: Context, o: Origin, was: Instance, s: Instance, s': Instance)
    requires OwnedSame(act, s, s') && Agrees(act, ctx, o, was, s)
    requires act.DnsAction? ==> s.settings.protection == s'.settings.protection
    ensures Agrees(act, ctx, o, was, s')
  {
    if act.FiltersAction? || act.ClientsAction? || act.LeasesAction? {
      forall slot: Slot | WorksOn(act, slot.list)
        ensures Differs(o, s'.lists, slot) == Differs(o, s.lists, slot)
        ensures act.FiltersAction? && SlotSettled(o, was.lists, s.lists, slot) ==>
                  SlotSettled(o, was.lists, s'.lists, slot)
      {
        assert SameAt(s.lists, s'.lists, slot);
      }
    }
    hide KeyBag, KeyOnce, SortDns, Differs, SlotSettled, Render;
  }

  lemma AgreementBefore(act: Action, ctx: Context, o: Origin, was: Instance, was': Instance, s: Instance)
    requires OwnedSame(act, was, was') && Agrees(act, ctx, o, was, s)
    ensures Agrees(act, ctx, o, was', s)
  {
    if act.FiltersAction? {
      forall slot: Slot | WorksOn(act, slot.list)
        ensures SlotSettled(o, was.lists, s.lists, slot) ==> SlotSettled(o, was'.lists, s.lists, slot)
      {
        assert SameAt(was.lists, was'.lists, slot);
      }
    }
    hide KeyBag, KeyOnce, SortDns, Differs, SlotSettled, Render, ListAgrees;
  }

  // A consistent origin reports the same protection flag in its status and in its DNS
  // configuration.
  predicate ConsistentProtection(o: Origin)
  {
    o.settings.dns.protection == Some(o.settings.protection)
  }

  lemma DnsSetsProtection(ctx: Context, run: ActionRun, on: bool)
    requires ValidRun(ctx, run) && run.act.DnsAction?
    requires run.o0.settings.dns.protection == Some(on)
    ensures run.s1.settings.protection == run.s0.settings.protection || run.s1.settings.protection == on
    ensures AllOk(run.events) ==> run.s1.settings.protection == on
  {
    hide DnsEq, OriginAfter, Typed, Filed, Replay, Executes;
    if ReadFailed(run) {
      OneRead(run.s0, run.events);
    } else {
      var n := Reads(run.act, run.o0);
      AfterRead(run.s0, run.events, n, |run.events|);
      var events := run.events[n..];
      assert run.events[..|run.events|] == run.events && events[..|events|] == events;
      assert IsPlan(DnsAction, ctx, run.o0, run.s0, run.plan) && Executes(run.plan, events, run.err);
      hide ValidRun, IsPlan;
      DnsCallSetsProtection(ctx, run.o0, run.s0, run.plan, events, run.err, on);
    }
  }

  lemma DnsCallSetsProtection(ctx: Context, o: Origin, s: Instance, plan: seq<Step>, events: seq<Event>, err: bool,
                              on: bool)
    requires IsPlan(DnsAction, ctx, o, s, plan) && Executes(plan, events, err) && o.settings.dns.protection == Some(on)
    ensures var now := Replay(s, events).settings.protection;
            (now == s.settings.protection || now == on) && (AllOk(events) ==> now == on)
  {
    hide DnsEq, IsPlan, After, Instance.ReadDns;
    DnsPlanIs(ctx, o, s, plan);
    if DnsEq(s.ReadDns(), o.settings.dns) { EqualDnsMeansFlag(s, o.settings.dns, on); }
    ExecutesCalls(plan, events, err);
    if events != [] {
      assert events == [] + [events[0]];
      ReplayOne(s, [], events[0]);
      SetDnsSetsFlag(s, events[0], on);
    }
  }

  lemma EqualDnsMeansFlag(s: Instance, dns: Dns, on: bool)
    requires dns.protection == Some(on) && DnsEq(s.ReadDns(), dns)
    ensures s.settings.protection == on
  {
    DnsEqMeaning(s.ReadDns(), dns);
    hide DnsEq;
  }

  lemma SetDnsSetsFlag(s: Instance, e: Event, on: bool)
    requires e.call.SetDns? && e.call.dns.protection == Some(on)
    ensures After(s, e).settings.protection == if e.Ok() then on else s.settings.protection
  {}

  lemma DnsPlanIs(ctx: Context, o: Origin, s: Instance, plan: seq<Step>)
    requires IsPlan(DnsAction, ctx, o, s, plan)
    ensures plan == OneStep(!DnsEq(s.ReadDns(), o.settings.dns), SetDns(o.settings.dns), false)
  {
    hide DnsEq;
  }

  // Agreement reached by one action survives the actions after it.
  lemma AgreementKept(ctx: Context, o: Origin, was: Instance, run: ActionRun, act: Action)
    requires ValidRun(ctx, run) && act != run.act && Agrees(act, ctx, o, was, run.s0)
    requires act.DnsAction? ==> !run.act.ProtectionAction?
    requires act.ProtectionAction? && run.act.DnsAction? ==>
               run.o0.settings.dns.protection == Some(o.settings.protection)
    ensures Agrees(act, ctx, o, was, run.s1)
  {
    if act.ProtectionAction? && run.act.DnsAction? {
      DnsSetsProtection(ctx, run, o.settings.protection);
    } else {
      OnlyTheOwnerChanges(ctx, run, act);
      if act.DnsAction? { OnlyTheOwnerChanges(ctx, run, ProtectionAction); }
      hide ValidRun, Agrees;
      AgreementFrame(act, ctx, o, was, run.s0, run.s1);
    }
  }

  ghost predicate Ordered(runs: seq<ActionRun>)
  {
    forall i, j | 0 <= i < j < |runs| :: Rank(runs[i].act) < Rank(runs[j].act)
  }

  // Nothing before the protection action touches the flag.
  lemma {:induction false} ProtectionStillAsReported(ctx: Context, o0: Origin, s0: Instance, runs: seq<ActionRun>,
                                                     n: nat)
    requires Chained(ctx, o0, s0, runs) && Ordered(runs) && n < |runs| && runs[n].act.ProtectionAction?
    ensures forall i | 0 <= i <= n :: StateBefore(s0, runs, i).settings.protection == s0.settings.protection
  {
    forall i | 0 <= i <= n ensures StateBefore(s0, runs, i).settings.protection == s0.settings.protection {
      ProtectionUpTo(ctx, o0, s0, runs, n, i);
    }
  }

  lemma {:induction false} ProtectionUpTo(ctx: Context, o0: Origin, s0: Instance, runs: seq<ActionRun>, n: nat, i: nat)
    requires Chained(ctx, o0, s0, runs) && Ordered(runs) && i <= n < |runs| && runs[n].act.ProtectionAction?
    ensures StateBefore(s0, runs, i).settings.protection == s0.settings.protection
  {
    if i > 0 {
      ProtectionUpTo(ctx, o0, s0, runs, n, i - 1);
      ChainLink(ctx, o0, s0, runs, i - 1);
      assert Rank(runs[i - 1].act) < Rank(runs[n].act);
      hide ValidRun, Chained;
      OnlyTheOwnerChanges(ctx, runs[i - 1], ProtectionAction);
    }
  }

  lemma {:induction false} OriginStaysLike(ctx: Context, o: Origin, o0: Origin, s0: Instance, runs: seq<ActionRun>,
                                           n: nat)
    requires Chained(ctx, o0, s0, runs) && n <= |runs| && OriginLike(o, o0)
    requires forall i | 0 <= i < n && runs[i].act.ClientsAction? :: NonLossy(o)
    ensures OriginLike(o, OriginBefore(o0, runs, n))
  {
    hide OriginLike, NonLossy, Chained;
    if n > 0 {
      OriginStaysLike(ctx, o, o0, s0, runs, n - 1);
      ChainLink(ctx, o0, s0, runs, n - 1);
      hide ValidRun;
      NonLossyLike(o, runs[n - 1].o0);
      Progress.RunOnlyReorders(ctx, runs[n - 1]);
      OriginLikeTransitive(o, runs[n - 1].o0, runs[n - 1].o1);
    }
  }

  lemma RunStaysLoose(ctx: Context, o: Origin, run: ActionRun)
    requires ValidRun(ctx, run) && Loosely(o, run.o0)
    ensures Loosely(o, run.o1)
  {
    NamesStay(run.act, run.o0, run.s0, !ReadFailed(run));
    AccessTouchedEq(run.o0.settings.access, run.s0.settings.access);
    SortedServicesLike(run.o0.settings.services);
    SameNamesTransitive(o, run.o0, run.o1);
    hide IsPlan, Executes, SameNames, Typed, Filed;
  }

  lemma {:induction false} OriginStaysLoose(ctx: Context, o: Origin, o0: Origin, s0: Instance, runs: seq<ActionRun>,
                                            n: nat)
    requires Chained(ctx, o0, s0, runs) && n <= |runs| && Loosely(o, o0)
    ensures Loosely(o, OriginBefore(o0, runs, n))
  {
    hide Loosely, Chained;
    if n > 0 {
      OriginStaysLoose(ctx, o, o0, s0, runs, n - 1);
      ChainLink(ctx, o0, s0, runs, n - 1);
      hide ValidRun;
      RunStaysLoose(ctx, o, runs[n - 1]);
    }
  }

  // What the origin must be like for one error-free execution to reach and keep an
  // agreement: no repeated URL in a filter list; for clients, no schedule with both a day
  // and a time zone; for DNS, a reported protection flag; and the same
  // flag as in the status if the DNS configuration is written after it.
  ghost predicate Suffices(f: Features, act: Action, o: Origin)
  {
    && (act.FiltersAction? ==> CleanFor(act, o))
    && (act.ClientsAction? ==> NonLossy(o))
    && (act.DnsAction? ==> o.settings.dns.protection.Some?)
    && (act.ProtectionAction? && Enabled(f, DnsAction) ==> ConsistentProtection(o))
  }

  // In memory, the origin is as it was read up to what earlier replicas reordered.
  ghost predicate AsRead(act: Action, o: Origin, o': Origin)
  {
    Loosely(o, o') && (act.ClientsAction? ==> OriginLike(o, o'))
  }

  lemma {:induction false} StaysAsRead(ctx: Context, act: Action, o: Origin, o0: Origin, s0: Instance,
                                       runs: seq<ActionRun>, n: nat)
    requires Chained(ctx, o0, s0, runs) && n <= |runs| && AsRead(act, o, o0) && (act.ClientsAction? ==> NonLossy(o))
    ensures AsRead(act, o, OriginBefore(o0, runs, n))
  {
    OriginStaysLoose(ctx, o, o0, s0, runs, n);
    if act.ClientsAction? { OriginStaysLike(ctx, o, o0, s0, runs, n); }
  }

  lemma SufficesAsRead(f: Features, act: Action, o: Origin, o': Origin)
    requires Suffices(f, act, o) && AsRead(act, o, o')
    ensures o'.settings.dns == o.settings.dns && o'.settings.protection == o.settings.protection
    ensures forall ctx: Context, s: Instance ::
        (act.ProtectionAction? ==> ctx.replicaProtection == s.settings.protection) ==> Attainable(act, ctx, o', s)
  {
    if act.ClientsAction? { NonLossyLike(o, o'); }
    hide NonLossy;
  }

  // Agreement with the origin in memory and with the origin as it was read.
  lemma AgreesAsRead(act: Action, ctx: Context, o: Origin, o': Origin, was: Instance, s: Instance)
    requires AsRead(act, o, o') && Agrees(act, ctx, o', was, s)
    ensures Agrees(act, ctx, o, was, s)
  {
    hide Agrees, Loosely, OriginLike;
    if act.ClientsAction? {
      ClientsAgreeWithLike(ctx, o, o', was, s);
    } else {
      AgreesWithLoose(act, ctx, o, o', was, s);
    }
  }

  lemma LastActionAgrees(ctx: Context, f: Features, o: Origin, run: ActionRun)
    requires ValidRun(ctx, run) && AllOk(run.events)
    requires Suffices(f, run.act, o) && AsRead(run.act, o, run.o0)
    requires run.act.ProtectionAction? ==> ctx.replicaProtection == run.s0.settings.protection
    ensures Agrees(run.act, ctx, o, run.s0, run.s1)
  {
    SufficesAsRead(f, run.act, o, run.o0);
    hide ValidRun, Suffices, Agrees, AsRead, AllOk;
    ActionAgrees(ctx, run);
    AgreesAsRead(run.act, ctx, o, run.o0, run.s0, run.s1);
  }

  // The agreement of the i-th executed action holds from its end to the end of the run.
  lemma {:induction false} AgreementAfter(ctx: Context, f: Features, o: Origin, o0: Origin, s0: Instance,
                                          runs: seq<ActionRun>, i: nat, n: nat)
    requires Chained(ctx, o0, s0, runs) && Ordered(runs) && i < n <= |runs|
    requires forall k | 0 <= k < |runs| :: Enabled(f, runs[k].act)
    requires Suffices(f, runs[i].act, o) && AsRead(runs[i].act, o, o0)
    requires ctx.replicaProtection == s0.settings.protection && AllOk(runs[i].events)
    ensures Agrees(runs[i].act, ctx, o, runs[i].s0, StateBefore(s0, runs, n))
  {
    hide Chained, Agrees, AllOk, CleanFor, NonLossy, AsRead, ValidRun;
    ChainLink(ctx, o0, s0, runs, n - 1);
    StaysAsRead(ctx, runs[i].act, o, o0, s0, runs, n - 1);
    if n - 1 == i {
      if runs[i].act.ProtectionAction? { ProtectionStillAsReported(ctx, o0, s0, runs, i); }
      LastActionAgrees(ctx, f, o, runs[i]);
    } else {
      AgreementAfter(ctx, f, o, o0, s0, runs, i, n - 1);
      DnsOfLoose(runs[i].act, o, runs[n - 1].o0);
      assert Rank(runs[i].act) < Rank(runs[n - 1].act);
      AgreementKept(ctx, o, runs[i].s0, runs[n - 1], runs[i].act);
    }
  }

  lemma DnsOfLoose(act: Action, o: Origin, o': Origin)
    requires AsRead(act, o, o')
    ensures o'.settings.dns == o.settings.dns
  {}

  lemma RunsAreOrdered(f: Features, acts: seq<Action>, runs: seq<ActionRun>)
    requires ActionList(f, acts) && |runs| <= |acts| && forall i | 0 <= i < |runs| :: runs[i].act == acts[i]
    ensures Ordered(runs) && forall i | 0 <= i < |runs| :: Enabled(f, runs[i].act)
  {
    forall i | 0 <= i < |runs| ensures Enabled(f, runs[i].act) { assert acts[i] in acts; }
  }

  // None of the calls failed whose failure ContinueOnError hides.
  ghost predicate NothingHidden(runs: seq<ActionRun>, act: Action)
  {
    forall i, j | 0 <= i < |runs| && runs[i].act == act && 0 <= j < |runs[i].events|
          && Hidden(runs[i].events[j].call) ::
      runs[i].events[j].Ok()
  }

  // A reported success means that replica and origin agree on what each enabled feature
  // covers; under ContinueOnError, if it hides no failure.
  lemma SuccessMeansAgreement(cfg: Config, o: Origin, run: SyncRun, act: Action)
    requires ValidSync(cfg, run) && run.ok && Enabled(cfg.features, act)
    requires cfg.continueOnError ==> NothingHidden(run.runs, act)
    requires Suffices(cfg.features, act, o) && AsRead(act, o, run.o0)
    ensures Agrees(act, ContextFor(cfg, run.inst, run.s0), o, run.s0, run.s1)
  {
    var ctx := ContextFor(cfg, run.inst, run.s0);
    var i := ExecutedAt(cfg, run, act);
    hide Chained, Suffices, AsRead, Agrees, Ordered, ActionList, ValidRun, Hidden, Typed, Filed, Greeting;
    NoErrorMeans(ctx, run.runs[i]);
    AgreementAfter(ctx, cfg.features, o, run.o0, run.s0, run.runs, i, |run.runs|);
    AgreementBefore(act, ctx, o, run.runs[i].s0, run.s0, run.s1);
  }

  // A successful run has executed every enabled action, on its own part of the replica as
  // it was at first, and without an error.
  lemma ExecutedAt(cfg: Config, run: SyncRun, act: Action) returns (i: nat)
    requires ValidSync(cfg, run) && run.ok && Enabled(cfg.features, act)
    ensures var ctx := ContextFor(cfg, run.inst, run.s0);
      && i < |run.runs| && run.runs[i].act == act && !run.runs[i].err && ValidRun(ctx, run.runs[i])
      && Chained(ctx, run.o0, run.s0, run.runs) && Ordered(run.runs)
      && (forall k | 0 <= k < |run.runs| :: Enabled(cfg.features, run.runs[k].act))
      && OwnedSame(act, run.runs[i].s0, run.s0)
  {
    var ctx := ContextFor(cfg, run.inst, run.s0);
    RunsAreOrdered(cfg.features, run.acts, run.runs);
    assert act in run.acts;
    i :| 0 <= i < |run.acts| && run.acts[i] == act;
    ChainLink(ctx, run.o0, run.s0, run.runs, i);
    hide Chained, ValidRun, OwnedSame, ActionList, Ordered, Typed, Filed, Greeting;
    OwnPartAsAtFirst(ctx, run.o0, run.s0, run.runs, i);
  }

  lemma OwnPartAsAtFirst(ctx: Context, o0: Origin, s0: Instance, runs: seq<ActionRun>, i: nat)
    requires Chained(ctx, o0, s0, runs) && Ordered(runs) && i < |runs|
    ensures OwnedSame(runs[i].act, runs[i].s0, s0)
  {
    var act := runs[i].act;
    ChainLink(ctx, o0, s0, runs, i);
    forall k | 0 <= k < i ensures runs[k].act != act && !(act.ProtectionAction? && runs[k].act.DnsAction?) {
      assert Rank(runs[k].act) < Rank(act);
    }
    hide Chained, ValidRun, OwnedSame, Ordered;
    NeverOwned(ctx, o0, s0, runs, act, i);
    OwnedSameSymmetric(act, s0, runs[i].s0);
  }

  lemma LaterIsOther(runs: seq<ActionRun>, i: nat, k: nat)
    requires Ordered(runs) && i < k < |runs|
    ensures runs[k].act != runs[i].act
  {
    assert Rank(runs[i].act) < Rank(runs[k].act);
  }

  // ... and no action after it touches its own part.
  lemma {:induction false} OwnPartStays(ctx: Context, o0: Origin, s0: Instance, runs: seq<ActionRun>, i: nat, n: nat)
    requires Chained(ctx, o0, s0, runs) && Ordered(runs) && i < n <= |runs| && !runs[i].act.ProtectionAction?
    ensures OwnedSame(runs[i].act, runs[i].s1, StateBefore(s0, runs, n))
  {
    hide Chained, OwnedSame, Ordered;
    if n == i + 1 {
      OwnedSameReflexive(runs[i].act, runs[i].s1);
    } else {
      OwnPartStays(ctx, o0, s0, runs, i, n - 1);
      ChainLink(ctx, o0, s0, runs, n - 1);
      LaterIsOther(runs, i, n - 1);
      hide ValidRun;
      OnlyTheOwnerChanges(ctx, runs[n - 1], runs[i].act);
      OwnedSameTransitive(runs[i].act, runs[i].s1, runs[n - 1].s0, runs[n - 1].s1);
    }
  }

  // ---- What belongs to a disabled feature ----

  lemma {:induction false} NeverOwned(ctx: Context, o0: Origin, s0: Instance, runs: seq<ActionRun>, act: Action, n: nat)
    requires Chained(ctx, o0, s0, runs) && n <= |runs|
    requires forall i | 0 <= i < n :: runs[i].act != act && !(act.ProtectionAction? && runs[i].act.DnsAction?)
    ensures OwnedSame(act, s0, StateBefore(s0, runs, n))
  {
    hide Chained, OwnedSame;
    if n == 0 {
      OwnedSameReflexive(act, s0);
    } else {
      NeverOwned(ctx, o0, s0, runs, act, n - 1);
      ChainLink(ctx, o0, s0, runs, n - 1);
      hide ValidRun;
      OnlyTheOwnerChanges(ctx, runs[n - 1], act);
      OwnedSameTransitive(act, s0, runs[n - 1].s0, runs[n - 1].s1);
    }
  }

  lemma OwnedSameReflexive(act: Action, s: Instance)
    ensures OwnedSame(act, s, s)
  {}

  // Whatever fails, the part of a disabled feature is unchanged; for the protection flag
  // the DNS server configuration must be disabled too.
  lemma DisabledIsUntouched(cfg: Config, run: SyncRun, act: Action)
    requires ValidSync(cfg, run) && !Enabled(cfg.features, act)
    requires act.ProtectionAction? ==> !Enabled(cfg.features, DnsAction)
    ensures OwnedSame(act, run.s0, run.s1)
  {
    OwnedSameReflexive(act, run.s0);
    if run.runs != [] {
      forall i | 0 <= i < |run.runs|
        ensures run.runs[i].act != act && !(act.ProtectionAction? && run.runs[i].act.DnsAction?)
      {
        assert run.acts[i] in run.acts;
      }
      hide Chained, OwnedSame;
      NeverOwned(ContextFor(cfg, run.inst, run.s0), run.o0, run.s0, run.runs, act, |run.runs|);
    }
  }

  // With the DNS server configuration enabled and the general settings disabled, a
  // successful run leaves the protection flag alone exactly when the origin's DNS
  // configuration carries the replica's own.
  lemma ProtectionFollowsDns(cfg: Config, run: SyncRun)
    requires ValidSync(cfg, run) && run.ok
    requires cfg.features.dnsServerConfig && !cfg.features.generalSettings
    requires run.o0.settings.dns.protection.Some?
    ensures run.s1.settings.protection == run.s0.settings.protection <==>
            run.o0.settings.dns.protection == Some(run.s0.settings.protection)
  {
    hide Chained, Agrees, AsRead, Suffices, NothingHidden, ActionList, Greeting;
    DnsHidesNothing(cfg, run);
    OwnOriginSuffices(cfg.features, run.o0);
    SuccessMeansAgreement(cfg, run.o0, run, DnsAction);
    DnsAgreementFixesFlag(ContextFor(cfg, run.inst, run.s0), run.o0, run.s0, run.s1);
  }

  lemma OwnOriginSuffices(f: Features, o: Origin)
    requires o.settings.dns.protection.Some?
    ensures Suffices(f, DnsAction, o) && AsRead(DnsAction, o, o)
  {}

  lemma DnsAgreementFixesFlag(ctx: Context, o: Origin, was: Instance, s: Instance)
    requires Agrees(DnsAction, ctx, o, was, s)
    ensures o.settings.dns.protection == Some(s.settings.protection)
  {
    DnsEqMeaning(s.ReadDns(), o.settings.dns);
  }

  lemma DnsRunHidesNothing(ctx: Context, run: ActionRun, j: nat)
    requires ValidRun(ctx, run) && run.act.DnsAction? && j < |run.events|
    ensures !Hidden(run.events[j].call)
  {
    RunOwnsItsCalls(ctx, run);
  }

  lemma DnsHidesNothing(cfg: Config, run: SyncRun)
    requires ValidSync(cfg, run)
    ensures NothingHidden(run.runs, DnsAction)
  {
    hide Hidden, ValidRun;
    var ctx := ContextFor(cfg, run.inst, run.s0);
    forall i, j | 0 <= i < |run.runs| && run.runs[i].act == DnsAction && 0 <= j < |run.runs[i].events|
      ensures !Hidden(run.runs[i].events[j].call)
    {
      DnsRunHidesNothing(ctx, run.runs[i], j);
    }
  }

  // ---- Profiles ----

  // One error-free profile action makes language (and theme, if it is synced) the
  // origin's exactly when they already were, or when the language differs and neither
  // of the needed values is empty. A difference in theme alone is never written.
  lemma ProfileReached(ctx: Context, run: ActionRun)
    requires ValidRun(ctx, run) && run.act.ProfileAction? && AllOk(run.events)
    ensures var o, p := run.o0.settings.profile, run.s0.settings.profile;
            ProfileEq(run.s1.settings.profile, o, ctx.theme) <==>
              || ProfileEq(p, o, ctx.theme)
              || (p.name != "" && o.language != "" && o.language != p.language
                  && (ctx.theme ==> o.theme != "" || p.theme == ""))
  {
    ErrorFree(ctx, run);
    OneCall(run.s0, run.plan, AfterTheRead(run));
    hide Replay, Executes, AllOk;
  }

  // The empty profile an origin that answers 401 leaves in memory causes no write.
  lemma EmptyProfileWritesNothing(ctx: Context, o: Origin, s: Instance, plan: seq<Step>)
    requires IsPlan(ProfileAction, ctx, o, s, plan) && o.settings.profile == Profile("", "", "")
    ensures plan == []
  {}
}
