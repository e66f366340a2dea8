// When a second run of an action against the same origin has nothing to do.

module Idempotence {
  import opened Sorting
  import opened Values
  import opened Server
  import opened Merging
  import opened Plans
  import opened NeverStale
  import opened Evolution
  import opened Convergence
  import opened Agreement
  import opened ReplicaOrder

  // Agreement under an action's own comparison, and nothing repeated in a list merged in
  // slice order, leaves the action nothing to plan. Filters, services and DHCP need more.
  lemma AgreementMeansEmptyPlan(act: Action, ctx: Context, o: Origin, was: Instance, s: Instance, plan: seq<Step>)
    requires Typed(o) && Filed(s) && CleanFor(act, o) && IsPlan(act, ctx, o, s, plan) && Agrees(act, ctx, o, was, s)
    requires !act.FiltersAction? && !act.ServicesAction? && !act.DhcpConfigAction?
    requires act.ProtectionAction? ==> ctx.replicaProtection == s.settings.protection
    ensures plan == []
  {
    hide Filed, Typed, ListAgrees, IsClientsPlan, IsLeasesPlan, IsRewritesPlan, IsFiltersPlan, IsDhcpPlan, DnsEq,
         SafeSearchEq, AccessEq, ShouldSyncFor, KeyBag, KeyOnce, AccessTouched;
    if act.ClientsAction? {
      ClientsQuiescent(ctx, o, s, plan);
    } else if act.LeasesAction? {
      LeasesQuiescent(ctx, o, s, plan);
    } else if act.RewritesAction? {
      RewritesQuiescent(o, s, plan);
    }
  }

  // After one error-free execution, an immediate second one writes nothing. For filters
  // see FiltersConverge: they need two.
  lemma SecondRunIsQuiet(ctx: Context, ctx': Context, run: ActionRun, again: ActionRun)
    requires ValidRun(ctx, run) && AllOk(run.events) && CleanFor(run.act, run.o0)
    requires Attainable(run.act, ctx, run.o0, run.s0)
    requires ValidRun(ctx', again) && again.act == run.act && again.o0 == run.o0 && again.s0 == run.s1
    requires ctx' == ctx.(replicaProtection := run.s1.settings.protection)
    requires !run.act.FiltersAction? && !run.act.ServicesAction? && !run.act.DhcpConfigAction?
    ensures again.plan == [] && again.s1 == again.s0
    ensures forall i | 0 <= i < |again.events| :: !IsWrite(again.events[i].call)
  {
    ActionAgrees(ctx, run);
    SameAgreement(run.act, ctx, ctx', run.o0, run.s0, run.s1);
    hide Agrees, Attainable, CleanFor;
    if !ReadFailed(again) {
      AgreementMeansEmptyPlan(again.act, ctx', again.o0, run.s0, again.s0, again.plan);
    }
    NothingPlanned(ctx', again);
  }

  lemma SameAgreement(act: Action, ctx: Context, ctx': Context, o: Origin, was: Instance, s: Instance)
    requires Agrees(act, ctx, o, was, s) && ctx' == ctx.(replicaProtection := ctx'.replicaProtection)
    ensures Agrees(act, ctx', o, was, s)
  {
    hide KeyBag, KeyOnce, ListAgrees, FiltersSettled, DnsEq, SafeSearchEq, AccessEq, ServicesLike;
  }

  lemma NothingPlanned(ctx: Context, run: ActionRun)
    requires ValidRun(ctx, run) && run.plan == []
    ensures run.s1 == run.s0
    ensures forall i | 0 <= i < |run.events| :: !IsWrite(run.events[i].call)
  {
    hide IsPlan, Typed, Filed, Replay, OriginAfter, ReadOf, Executes, IsWrite;
    var n := Reads(run.act, run.o0);
    if !ReadFailed(run) { EmptyExecution(run.events[n..], run.err); }
    assert |run.events| == n || |run.events| == 1;
    ReadsAreNoWrites(run.events);
    AtMostARead(run.s0, run.events);
  }

  lemma EmptyExecution(events: seq<Event>, err: bool)
    requires Executes([], events, err)
    ensures events == []
  {}

  lemma ReadsAreNoWrites(events: seq<Event>)
    ensures forall i | 0 <= i < |events| && events[i].call.Get? :: !IsWrite(events[i].call)
  {}

  lemma AtMostARead(s: Instance, events: seq<Event>)
    requires |events| <= 1 && (events != [] ==> events[0].call.Get?)
    ensures Replay(s, events) == s
  {
    if events != [] { OneRead(s, events); }
  }

  // The blocked services are compared in order, but written sorted: the second run has
  // nothing to do exactly when the first had not, or the origin's ids are sorted already.
  lemma ServicesSecondRun(ctx: Context, run: ActionRun, again: ActionRun)
    requires ValidRun(ctx, run) && AllOk(run.events) && run.act.ServicesAction?
    requires ValidRun(ctx, again) && AllOk(again.events) && again.act.ServicesAction? && again.o0 == run.o0
    requires again.s0 == run.s1
    ensures again.plan == [] <==>
            || run.s0.settings.services == run.o0.settings.services
            || SortOpt(run.o0.settings.services.ids) == run.o0.settings.services.ids
  {
    ErrorFree(ctx, run);
    ErrorFree(ctx, again);
    hide ValidRun, Sort, AllOk, Executes, Replay;
    ServicesRound(ctx, run.o0, run.s0, run.plan, AfterTheRead(run));
  }

  lemma ServicesRound(ctx: Context, o: Origin, s: Instance, plan: seq<Step>, events: seq<Event>)
    requires IsPlan(ServicesAction, ctx, o, s, plan) && Executes(plan, events, false) && AllOk(events)
    ensures Replay(s, events).settings.services ==
            if o.settings.services == s.settings.services then s.settings.services
            else LoggedServices(o.settings.services)
  {
    OneCall(s, plan, events);
    hide Replay, Executes, AllOk, LoggedServices;
  }

  // The DHCP configurations are compared with their dynamic and static leases, but neither is
  // written: after one error-free execution a later one, on a configuration that is still as
  // that left it, has nothing to do exactly when the origin has no valid section, or the
  // replica's dynamic leases were the origin's and it reports the origin's list of static ones.
  lemma DhcpSecondRun(ctx: Context, ctx': Context, run: ActionRun, again: ActionRun)
    returns (reported: Option<seq<Item>>)
    requires ValidRun(ctx, run) && AllOk(run.events) && run.act.DhcpConfigAction?
    requires ValidRun(ctx', again) && AllOk(again.events) && again.act.DhcpConfigAction?
    requires ctx' == ctx.(replicaProtection := ctx'.replicaProtection)
    requires again.o0.settings.dhcp == run.o0.settings.dhcp && again.s0.settings.dhcp == run.s1.settings.dhcp
    ensures again.o0.settings.dhcp.HasConfig() ==> Listing(OrEmpty(reported), Part(again.s0.lists, Leases))
    ensures again.plan == [] <==>
            || !run.o0.settings.dhcp.HasConfig()
            || (run.s0.settings.dhcp.leases == run.o0.settings.dhcp.leases && reported == again.o0.staticLeases)
  {
    hide ValidRun, AllOk, Listing, OneCallMade, Dhcp.HasConfig;
    var o := run.o0.settings.dhcp;
    OneCallRun(ctx, run);
    DhcpResult(ctx, run);
    ErrorFree(ctx', again);
    assert IsDhcpPlan(again.o0, again.s0, ctx', again.plan);
    hide IsPlan;
    CleanedLeases(ctx, ctx', o, run.s0.settings.dhcp);
    if o.HasConfig() {
      reported := DhcpReported(ctx', again.o0, again.s0, again.plan);
    } else {
      reported := None;
    }
  }

  lemma DhcpReported(ctx: Context, o: Origin, s: Instance, plan: seq<Step>) returns (reported: Option<seq<Item>>)
    requires IsDhcpPlan(o, s, ctx, plan) && o.settings.dhcp.HasConfig()
    ensures Listing(OrEmpty(reported), Part(s.lists, Leases))
    ensures plan == [] <==>
            s.settings.dhcp.Cleaned() == DhcpFor(o.settings.dhcp, ctx).Cleaned() && reported == o.staticLeases
  {
    hide Listing, DhcpFor, Dhcp.Cleaned, Dhcp.HasConfig;
    var target := DhcpFor(o.settings.dhcp, ctx).Cleaned();
    reported :| Listing(OrEmpty(reported), Part(s.lists, Leases)) &&
      plan == OneStep(s.settings.dhcp.Cleaned() != target || reported != o.staticLeases, SetDhcp(target), false);
  }

  lemma CleanedLeases(ctx: Context, ctx': Context, o: Dhcp, s: Dhcp)
    requires ctx' == ctx.(replicaProtection := ctx'.replicaProtection)
    ensures DhcpFor(o, ctx') == DhcpFor(o, ctx)
    ensures DhcpFor(o, ctx).Cleaned().(leases := s.leases) == DhcpFor(o, ctx).Cleaned() <==> s.leases == o.leases
  {}
}
