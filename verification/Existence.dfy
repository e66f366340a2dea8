// Nothing above is about the empty set: from every origin and every replica there are
// executions in which no call fails, of every action and of a replica's whole part.

module Existence {
  import opened Sorting
  import opened Values
  import opened Server
  import opened Merging
  import opened Plans
  import opened Agreement
  import opened Syncing
  import opened Outcomes
  import opened Chaining
  import opened Api
  import opened ListActions

  // The entries of a map in some order.
  lemma {:induction false} SomeEntries(m: map<string, RewriteEntry>) returns (entries: seq<RewriteEntry>)
    requires KeyedByKey(m)
    ensures EntryListing(entries, m)
    decreases |m|
  {
    hide RewriteEntry.Key;
    if m == map[] {
      entries := [];
    } else {
      var k :| k in m;
      assert (m - {k}).Keys == m.Keys - {k};
      var rest := SomeEntries(m - {k});
      ListOneMore(rest, m - {k}, m[k]);
      assert (m - {k})[k := m[k]] == m;
      entries := rest + [m[k]];
    }
  }

  lemma SomeRewritesPlan(o: Origin, s: Instance) returns (plan: seq<Step>)
    ensures IsRewritesPlan(o, s, plan)
  {
    FirstsAreKept(s.rewrites, |s.rewrites|);
    hide FirstCopies, FurtherCopies, NewFirsts, EntriesKept, KeysKept, EntryListing, RewriteSteps;
    var unmatched := SomeEntries(UnmatchedFirsts(s.rewrites, o.rewrites));
    var removes := FurtherCopies(s.rewrites, |s.rewrites|) + unmatched;
    var adds := NewFirsts(FirstCopies(s.rewrites, |s.rewrites|).Keys, o.rewrites, |o.rewrites|);
    assert IsRewriteMerge(s.rewrites, o.rewrites, removes, adds);
    plan := RewriteSteps(removes, adds);
  }

  lemma SomeFiltersPlan(ctx: Context, o: Origin, s: Instance) returns (plan: seq<Step>)
    requires Filed(s)
    ensures IsFiltersPlan(ctx, o, s, plan)
  {
    hide IsFilterPlan, Filed, Part;
    PartIsFiled(s, BlockLists);
    PartIsFiled(s, AllowLists);
    var block := AnyFilterPlan(BlockLists, o.filters, s.lists, ctx.continueOnError);
    var allow := AnyFilterPlan(AllowLists, o.allowFilters, s.lists, ctx.continueOnError);
    plan := block + allow + RuleSteps(o.settings, s.settings);
  }

  lemma SomeClientsPlan(ctx: Context, o: Origin, s: Instance) returns (plan: seq<Step>)
    requires Filed(s)
    ensures IsClientsPlan(ctx, o, s, plan)
  {
    hide Filed, Listing, Changes, Steps;
    PartIsFiled(s, ListId.Clients);
    var cur, exp := Part(s.lists, ListId.Clients), Wanted(o, ListId.Clients);
    var removes := SomeListing(Removed(cur, exp));
    var adds := SomeListing(Added(cur, exp));
    var updates := SomeListing(Updated(cur, exp));
    plan := Steps(Changes(ListId.Clients, removes, adds, updates), ctx.continueOnError);
  }

  lemma SomeLeasesPlan(ctx: Context, o: Origin, s: Instance) returns (plan: seq<Step>)
    requires Filed(s)
    ensures IsLeasesPlan(ctx, o, s, plan)
  {
    hide Filed, Listing, Changes, Steps, SliceAdds;
    PartIsFiled(s, Leases);
    var removes := SomeListing(Removed(Part(s.lists, Leases), ByKey(o.LeaseList())));
    LeasesPlanOf(ctx, o, s, removes);
    plan := Steps(Changes(Leases, removes, SliceAdds(Part(s.lists, Leases), o.LeaseList(), |o.LeaseList()|), []),
                  ctx.continueOnError);
  }

  lemma SomeDhcpPlan(ctx: Context, o: Origin, s: Instance) returns (plan: seq<Step>)
    requires Filed(s)
    ensures IsDhcpPlan(o, s, ctx, plan)
  {
    hide Filed, Listing, Dhcp.Cleaned;
    PartIsFiled(s, Leases);
    var reported := SomeListing(Part(s.lists, Leases));
    assert Listing(OrEmpty(Some(reported)), Part(s.lists, Leases));
    var target := DhcpFor(o.settings.dhcp, ctx).Cleaned();
    plan := if !o.settings.dhcp.HasConfig() then []
            else OneStep(s.settings.dhcp.Cleaned() != target || Some(reported) != o.staticLeases, SetDhcp(target),
                         false);
  }

  lemma SomeSmallPlan(act: Action, ctx: Context, o: Origin, s: Instance) returns (plan: seq<Step>)
    requires General(act) || Configuring(act) || Reordering(act)
    ensures IsPlan(act, ctx, o, s, plan)
  {
    hide DnsEq, SafeSearchEq, AccessEq, ShouldSyncFor, AccessTouched, LoggedServices;
    var a, b := o.settings, s.settings;
    var merged := ShouldSyncFor(b.profile, a.profile, ctx.theme);
    plan := match act
      case ProfileAction => (if merged.Some? then [Step(SetProfile(merged.value), false)] else [])
      case ProtectionAction => OneStep(a.protection != ctx.replicaProtection, ToggleProtection(a.protection), false)
      case ParentalAction => OneStep(a.parental != b.parental, ToggleParental(a.parental), false)
      case SafeSearchAction => OneStep(!SafeSearchEq(a.safeSearch, b.safeSearch), SetSafeSearch(a.safeSearch), false)
      case SafeBrowsingAction => OneStep(a.safeBrowsing != b.safeBrowsing, ToggleSafeBrowsing(a.safeBrowsing), false)
      case DnsAction => OneStep(!DnsEq(s.ReadDns(), a.dns), SetDns(a.dns), false)
      case QueryLogAction => OneStep(a.queryLog != b.queryLog, SetQueryLog(a.queryLog), false)
      case StatsAction => OneStep(b.stats != a.stats, SetStats(a.stats), false)
      case ServicesAction => OneStep(a.services != b.services, SetServices(LoggedServices(a.services)), false)
      case AccessAction => OneStep(!AccessEq(b.access, a.access), SetAccess(AccessTouched(a.access, b.access)), false)
      case _ => OneStep(b.tls != a.tls, SetTls(a.tls), ctx.continueOnError);
  }

  lemma SomePlan(act: Action, ctx: Context, o: Origin, s: Instance) returns (plan: seq<Step>)
    requires Filed(s)
    ensures IsPlan(act, ctx, o, s, plan)
  {
    hide Filed, IsFiltersPlan, IsClientsPlan, IsLeasesPlan, IsRewritesPlan, IsDhcpPlan, DnsEq, SafeSearchEq, AccessEq,
         ShouldSyncFor, AccessTouched, LoggedServices;
    if act.RewritesAction? {
      plan := SomeRewritesPlan(o, s);
    } else if act.FiltersAction? {
      plan := SomeFiltersPlan(ctx, o, s);
    } else if act.ClientsAction? {
      plan := SomeClientsPlan(ctx, o, s);
    } else if act.LeasesAction? {
      plan := SomeLeasesPlan(ctx, o, s);
    } else if act.DhcpConfigAction? {
      plan := SomeDhcpPlan(ctx, o, s);
    } else {
      plan := SomeSmallPlan(act, ctx, o, s);
    }
  }

  // The calls of a plan, all answered with success.
  function Successes(plan: seq<Step>, given: bool): (events: seq<Event>)
    ensures |events| == |plan| && AllOk(events)
    ensures forall i | 0 <= i < |plan| :: events[i].call == plan[i].call
    ensures forall i | 0 <= i < |plan| :: events[i].given == given
  {
    seq(|plan|, i requires 0 <= i < |plan| => Event(plan[i].call, Done, given))
  }

  // From every origin and every replica, each action has an execution without a failure.
  lemma ErrorFreeRunExists(act: Action, ctx: Context, o: Origin, s: Instance, t: seq<Event>, given: bool)
    returns (run: ActionRun, t': seq<Event>)
    requires Typed(o) && Filed(s)
    ensures Outcome(act, ctx, run, false, o, s, t, run.o1, run.s1, t') && AllOk(run.events)
    ensures forall i | 0 <= i < |run.events| :: run.events[i].given == given
  {
    hide Typed, Filed, IsPlan, Replay, OriginAfter, ReadOf;
    var plan := SomePlan(act, ctx, o, s);
    var events := Successes(plan, given);
    assert Executes(plan, events, false);
    if ReadOf(act, o).Some? {
      var e := Event(Get(ReadOf(act, o).value), Done, given);
      run := ReadAndDo(act, ctx, o, s, t, e, plan, events, false, OriginAfter(act, o, s, true));
      t' := t + [e] + events;
      SameTail(t, run.events, [e] + events);
    } else {
      run := JustDo(act, ctx, o, s, t, plan, events, false);
      t' := t + events;
      SameTail(t, run.events, events);
    }
  }

  lemma SameTail(t: seq<Event>, a: seq<Event>, b: seq<Event>)
    ensures t + a == t + b <==> a == b
  {
    if t + a == t + b {
      assert a == (t + a)[|t|..] && b == (t + b)[|t|..];
    }
  }

  // The server gives every added filter the flag false.
  ghost predicate NeverGiven(events: seq<Event>)
  {
    forall i | 0 <= i < |events| :: !events[i].given
  }

  // So does the loop over the actions, after any number of them.
  lemma {:induction false} ErrorFreeLoopExists(ctx: Context, acts: seq<Action>, n: nat, o: Origin, s: Instance,
                                               t: seq<Event>)
    returns (runs: seq<ActionRun>, o': Origin, s': Instance, t': seq<Event>)
    requires Typed(o) && Filed(s) && n <= |acts|
    ensures SoFar(ctx, acts, n, o, s, t, runs, false, o', s', t') && Typed(o') && Filed(s')
    ensures forall i | 0 <= i < |runs| :: AllOk(runs[i].events) && NeverGiven(runs[i].events)
  {
    hide Typed, Filed, SoFar, Outcome, AllOk;
    if n == 0 {
      runs, o', s', t' := [], o, s, t;
      NoRuns(ctx, acts, o, s, t);
    } else {
      var before, o1, s1, t1 := ErrorFreeLoopExists(ctx, acts, n - 1, o, s, t);
      var run;
      run, t' := ErrorFreeRunExists(acts[n - 1], ctx, o1, s1, t1, false);
      o', s' := run.o1, run.s1;
      OutcomeKeeps(acts[n - 1], ctx, run, false, o1, s1, t1, o', s', t');
      NextRun(ctx, acts, n - 1, o, s, t, before, false, o1, s1, t1, run, false, o', s', t');
      runs := before + [run];
    }
  }

  // A replica's whole part of a run can succeed without a single failure, whatever the
  // origin and the replica hold, if the replica's version is new enough.
  lemma ErrorFreeSyncExists(cfg: Config, inst: Endpoint, acts: seq<Action>, o: Origin,
                            s: Instance) returns (run: SyncRun)
    requires Typed(o) && Filed(s) && ActionList(cfg.features, acts) && !cfg.tooOld(s.version)
    ensures ValidSync(cfg, run) && run.inst == inst && run.o0 == o && run.s0 == s && run.ok
    ensures forall i | 0 <= i < |run.runs| :: AllOk(run.runs[i].events) && NeverGiven(run.runs[i].events)
    ensures Typed(run.o1) && Filed(run.s1)
  {
    hide Typed, Filed, ActionList, AllOk, NeverGiven, SoFar;
    var hello := [Event(Get(Status), Done, false)];
    var ctx := ContextFor(cfg, inst, s);
    var runs, o1, s1, t1 := ErrorFreeLoopExists(ctx, acts, |acts|, o, s, []);
    AllRun(ctx, acts, o, s, [], runs, false, o1, s1, t1);
    hide Chained;
    run := SyncRun(inst, o, s, hello, true, acts, runs, true, o1, s1);
  }

  lemma SomeActionList(f: Features) returns (acts: seq<Action>)
    ensures ActionList(f, acts)
  {
    hide Grown, Enabled;
    GrowGeneral(f);
    var general := [ProfileAction, ProtectionAction, ParentalAction, SafeSearchAction, SafeBrowsingAction];
    acts := if f.generalSettings then general else [];
    acts := GrowAll(f, acts,
                    [DnsAction, QueryLogAction, StatsAction, RewritesAction, FiltersAction, ServicesAction,
                     ClientsAction, AccessAction, DhcpConfigAction, LeasesAction, TlsAction], 5);
    GrownUp(f, acts);
  }

  lemma {:induction false} GrowAll(f: Features, start: seq<Action>, rest: seq<Action>, rank: nat)
    returns (acts: seq<Action>)
    requires Grown(f, start, rank) && forall i | 0 <= i < |rest| :: Rank(rest[i]) == rank + i
    ensures Grown(f, acts, rank + |rest|)
    decreases |rest|
  {
    hide Grown, Enabled, Rank;
    if rest == [] {
      acts := start;
    } else {
      Grow(f, start, rest[0]);
      acts := GrowAll(f, if Enabled(f, rest[0]) then start + [rest[0]] else start, rest[1..], rank + 1);
    }
  }
}
