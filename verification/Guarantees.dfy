// What a whole run guarantees, from the reads of the origin to every replica.

module Guarantees {
  import opened Sorting
  import opened Values
  import opened Server
  import opened Merging
  import opened Plans
  import opened NeverStale
  import opened Evolution
  import opened Safety
  import opened Progress
  import opened Agreement
  import opened Syncing
  import opened Success
  import opened ReplicaOrder
  import opened Replicas
  import opened WholeRun
  import opened Reading
  import opened Origins
  import opened Meanings
  import Api
  import Convergence

  // A reading of a server is what the theorems about single runs ask of an origin: no
  // repeated key in any list, and one protection flag.
  lemma ReadingSuffices(f: Features, s: Instance, profileRead: bool, o: Origin, act: Action)
    requires IsReading(f, s, profileRead, o) && Filed(s) && (act.ClientsAction? ==> NonLossy(o))
    ensures Typed(o) && DistinctKeys(o.clients) && Success.Suffices(f, act, o) && RegularFor(act, o)
  {
    hide Filed, Listing, Part, NonLossy, DistinctKeys;
    ReadingIsTyped(f, s, profileRead, o);
    ListingBelongs(BlockLists, o.filters, s);
    ListingBelongs(AllowLists, o.allowFilters, s);
    ListingBelongs(ListId.Clients, o.clients, s);
    if NeedsDhcp(f) { ListingBelongs(Leases, o.LeaseList(), s); } else { NothingRepeats(); }
  }

  lemma NothingRepeats()
    ensures DistinctKeys([])
  {}

  // ---- The origin in memory, replica after replica ----

  lemma {:induction false} NamesForReplica(cfg: Syncing.Config, o: Origin, visits: seq<SyncRun>, i: nat)
    requires OneAfterAnother(cfg, o, visits) && i < |visits|
    ensures SameNames(o, visits[i].o0)
  {
    hide ValidSync, Trace;
    if i > 0 {
      NamesForReplica(cfg, o, visits, i - 1);
      SyncIsSafe(cfg, o, visits[i - 1], 0);
    }
  }

  lemma VisitStaysAsRead(cfg: Syncing.Config, act: Action, o: Origin, run: SyncRun)
    requires ValidSync(cfg, run) && AsRead(act, o, run.o0) && (act.ClientsAction? ==> NonLossy(o))
    ensures AsRead(act, o, run.o1)
  {
    hide AsRead, NonLossy, Chained, Greeting, ActionList, Disciplined, Typed, Filed;
    if run.runs != [] {
      StaysAsRead(ContextFor(cfg, run.inst, run.s0), act, o, run.o0, run.s0, run.runs, |run.runs|);
    }
  }

  lemma {:induction false} AsReadForReplica(cfg: Syncing.Config, act: Action, o: Origin, visits: seq<SyncRun>, i: nat)
    requires OneAfterAnother(cfg, o, visits) && i < |visits|
    requires AsRead(act, o, o) && (act.ClientsAction? ==> NonLossy(o))
    ensures AsRead(act, o, visits[i].o0)
  {
    hide AsRead, NonLossy, ValidSync;
    if i > 0 {
      AsReadForReplica(cfg, act, o, visits, i - 1);
      VisitStaysAsRead(cfg, act, o, visits[i - 1]);
    }
  }

  // ---- Every state of every replica ----

  // Whatever fails, at the origin's other replicas or at this one, however often the
  // configuration in memory was touched, and whatever the origin repeats: a replica's keys
  // stay between.
  lemma RunIsSafe(cfg: Syncing.Config, o: Origin, visits: seq<SyncRun>, i: nat, k: nat)
    requires OneAfterAnother(cfg, o, visits) && i < |visits| && k <= |Trace(visits[i])|
    ensures KeysBetween(o, visits[i].s0, At(visits[i].s0, Trace(visits[i]), k))
  {
    hide KeysBetween, At, Trace, SameNames, ValidSync;
    NamesForReplica(cfg, o, visits, i);
    SyncIsSafe(cfg, o, visits[i], k);
  }

  // ---- Success ----

  // A replica reported as successful agrees with what was read from the origin on every
  // enabled feature; under ContinueOnError, if no failure was hidden; for clients, if no
  // schedule has both a day and a time zone. Nothing else is asked of the origin.
  lemma RunAgrees(cfg: Syncing.Config, s: Instance, profileRead: bool, o: Origin, visits: seq<SyncRun>, i: nat,
                  act: Action)
    requires IsReading(cfg.features, s, profileRead, o) && Filed(s) && OneAfterAnother(cfg, o, visits) && i < |visits|
    requires visits[i].ok && Enabled(cfg.features, act)
    requires cfg.continueOnError ==> NothingHidden(visits[i].runs, act)
    requires act.ClientsAction? ==> NonLossy(o)
    ensures Agrees(act, ContextFor(cfg, visits[i].inst, visits[i].s0), o, visits[i].s0, visits[i].s1)
  {
    hide IsReading, Filed, ValidSync, Success.Suffices, Agrees, NothingHidden, NonLossy, OriginLike, Loosely, Enabled;
    ReadingSuffices(cfg.features, s, profileRead, o, act);
    LikeItself(o);
    AsReadForReplica(cfg, act, o, visits, i);
    SuccessMeansAgreement(cfg, o, visits[i], act);
  }

  lemma LikeItself(o: Origin)
    ensures Loosely(o, o) && OriginLike(o, o)
  {}

  lemma ReadingIsRegular(f: Features, s: Instance, profileRead: bool, o: Origin)
    requires IsReading(f, s, profileRead, o) && Filed(s) && Unspoilable(f, o)
    ensures Regular(f, o)
  {
    hide IsReading, Filed, NonLossy, RegularFor;
    forall act | Enabled(f, act) ensures RegularFor(act, o) {
      ReadingSuffices(f, s, profileRead, o, act);
    }
  }

  // Each pass over a replica pays for its successful list writes.
  lemma RunMakesProgress(cfg: Syncing.Config, s: Instance, profileRead: bool, o: Origin, visits: seq<SyncRun>, i: nat)
    requires IsReading(cfg.features, s, profileRead, o) && Filed(s) && OneAfterAnother(cfg, o, visits) && i < |visits|
    requires Unspoilable(cfg.features, o)
    ensures Writes(Trace(visits[i])) + Gap(o, visits[i].s1) <= Gap(o, visits[i].s0)
  {
    hide IsReading, Filed, ValidSync, Unspoilable, OriginLike, Gap, Writes, Trace, Regular;
    ReadingIsRegular(cfg.features, s, profileRead, o);
    OriginForReplica(cfg, o, visits, i);
    RoundIsPaidFor(cfg, o, visits[i]);
  }

  // ---- Several runs ----

  lemma ReadingWants(s: Instance, o: Origin, list: ListId)
    requires Filed(s) && Listing(o.List(list), Part(s.lists, list))
    ensures Wanted(o, list) == Part(s.lists, list)
  {
    Api.PartIsFiled(s, list);
    hide Filed, Listing;
    Api.ListingIsIndex(o.List(list), Part(s.lists, list));
  }

  // Two readings of servers with the same lists have the same entries.
  lemma ReadingsHaveSameEntries(f: Features, s: Instance, s': Instance, read: bool, read': bool, o: Origin, o': Origin)
    requires IsReading(f, s, read, o) && IsReading(f, s', read', o') && Filed(s) && Filed(s')
    requires s.lists == s'.lists && s.rewrites == s'.rewrites
    ensures SameEntries(o, o')
  {
    hide Filed, Listing, Part, SettingsOf, Wanted;
    forall list ensures Wanted(o, list) == Wanted(o', list) {
      if list != Leases || NeedsDhcp(f) {
        ReadingWants(s, o, list);
        ReadingWants(s', o', list);
      } else {
        assert o.List(list) == o'.List(list) == [];
        SameListSameWants(o, o', list);
      }
    }
  }

  lemma SameListSameWants(o: Origin, o': Origin, list: ListId)
    requires o.List(list) == o'.List(list)
    ensures Wanted(o, list) == Wanted(o', list)
  {}

  lemma UnspoilableToo(f: Features, o: Origin, o': Origin)
    requires Unspoilable(f, o) && SameEntries(o, o')
    ensures Unspoilable(f, o')
  {
    assert Wanted(o, ListId.Clients) == Wanted(o', ListId.Clients);
  }

  // A run as one replica sees it: the server that is read, the reading, all visits, and
  // which of them is to this replica.
  datatype Pass = Pass(server: Instance, profileRead: bool, reading: Origin, visits: seq<SyncRun>, at: nat)

  ghost predicate ValidPass(cfg: Syncing.Config, p: Pass)
  {
    && Filed(p.server) && IsReading(cfg.features, p.server, p.profileRead, p.reading)
    && OneAfterAnother(cfg, p.reading, p.visits) && p.at < |p.visits|
  }

  // Runs one after another on the same replica, while the lists and rewrites of the server
  // that is read stay the same; its settings may change.
  ghost predicate RunsOnReplica(cfg: Syncing.Config, passes: seq<Pass>)
  {
    && (forall i | 0 <= i < |passes| :: ValidPass(cfg, passes[i]))
    && (forall i | 0 < i < |passes| ::
          && passes[i].server.lists == passes[0].server.lists && passes[i].server.rewrites == passes[0].server.rewrites
          && passes[i].visits[passes[i].at].s0 == passes[i - 1].visits[passes[i - 1].at].s1)
  }

  // What the runs did to the replica, and what they had read.
  function VisitsOf(passes: seq<Pass>): (rounds: seq<SyncRun>)
    requires forall i | 0 <= i < |passes| :: passes[i].at < |passes[i].visits|
    ensures |rounds| == |passes| && forall i | 0 <= i < |rounds| :: rounds[i] == passes[i].visits[passes[i].at]
  {
    seq(|passes|, i requires 0 <= i < |passes| && passes[i].at < |passes[i].visits| => passes[i].visits[passes[i].at])
  }

  function ReadingsOf(passes: seq<Pass>): (os: seq<Origin>)
    ensures |os| == |passes| && forall i | 0 <= i < |os| :: os[i] == passes[i].reading
  {
    seq(|passes|, i requires 0 <= i < |passes| => passes[i].reading)
  }

  lemma PassIsRound(cfg: Syncing.Config, first: Pass, p: Pass)
    requires ValidPass(cfg, first) && ValidPass(cfg, p) && Unspoilable(cfg.features, first.reading)
    requires p.server.lists == first.server.lists && p.server.rewrites == first.server.rewrites
    ensures SameEntries(first.reading, p.reading) && Regular(cfg.features, p.reading)
    ensures ValidSync(cfg, p.visits[p.at]) && OriginLike(p.reading, p.visits[p.at].o0)
  {
    hide IsReading, Filed, ValidSync, Unspoilable, OriginLike, Regular, SameEntries;
    ReadingsHaveSameEntries(cfg.features, first.server, p.server, first.profileRead, p.profileRead, first.reading,
                            p.reading);
    UnspoilableToo(cfg.features, first.reading, p.reading);
    ReadingIsRegular(cfg.features, p.server, p.profileRead, p.reading);
    OriginForReplica(cfg, p.reading, p.visits, p.at);
  }

  // However many runs, each with its own reading in whatever order, whatever fails in them
  // and whatever happens to the other replicas: all successful list writes to a replica
  // together are bounded by its gap before the first run.
  lemma RunsMakeProgress(cfg: Syncing.Config, passes: seq<Pass>)
    requires RunsOnReplica(cfg, passes) && passes != [] && Unspoilable(cfg.features, passes[0].reading)
    ensures var rounds, o, n := VisitsOf(passes), passes[0].reading, |passes|;
            WritesIn(rounds, n) + Gap(o, rounds[n - 1].s1) <= Gap(o, rounds[0].s0)
  {
    hide ValidPass, Gap, OriginLike, Regular, SameEntries, ValidSync, Unspoilable;
    forall i | 0 <= i < |passes| ensures passes[i].at < |passes[i].visits| { AtAVisit(cfg, passes[i]); }
    var rounds, os := VisitsOf(passes), ReadingsOf(passes);
    forall i | 0 <= i < |passes|
      ensures ValidSync(cfg, rounds[i]) && OriginLike(os[i], rounds[i].o0) && Regular(cfg.features, os[i])
      ensures SameEntries(os[0], os[i])
    {
      PassIsRound(cfg, passes[0], passes[i]);
    }
    ProgressOverRounds(cfg, os, rounds, |rounds|);
  }

  lemma AtAVisit(cfg: Syncing.Config, p: Pass)
    requires ValidPass(cfg, p)
    ensures p.at < |p.visits|
  {}

  // ---- Reports ----

  lemma {:induction false} CreatableOnce(known: set<string>, order: seq<Endpoint>, n: nat)
    requires n <= |order| && forall i, j | 0 <= i < j < |order| :: Key(order[i]) != Key(order[j])
    ensures var c := Creatable(known, order, n);
      && (forall i, j | 0 <= i < j < |c| :: Key(c[i]) != Key(c[j]))
      && (forall i | 0 <= i < n && Key(order[i]) in known :: order[i] in c)
  {
    hide Key;
    if n > 0 {
      CreatableOnce(known, order, n - 1);
      var c := Creatable(known, order, n - 1);
      forall i | 0 <= i < |c| ensures Key(c[i]) != Key(order[n - 1]) {
        CreatableAmong(known, order, n - 1, c[i]);
      }
      var longer := Creatable(known, order, n);
      assert longer == if Key(order[n - 1]) in known then c + [order[n - 1]] else c;
      forall i, j | 0 <= i < j < |longer| ensures Key(longer[i]) != Key(longer[j]) {
        assert longer[i] == c[i];
      }
    }
  }

  lemma {:induction false} ReportAt(visits: seq<SyncRun>, n: nat)
    requires n <= |visits|
    ensures |ReportsOf(visits, n)| == n
    ensures forall i | 0 <= i < n :: ReportsOf(visits, n)[i] == Report(visits[i].inst, visits[i].ok)
  {
    if n > 0 { ReportAt(visits, n - 1); }
  }

  ghost predicate VisitsListed(known: set<string>, order: seq<Endpoint>, visits: seq<SyncRun>)
  {
    var c := Creatable(known, order, |order|);
    |visits| == |c| && forall i | 0 <= i < |visits| :: visits[i].inst == c[i]
  }

  lemma VisitedOnce(known: set<string>, order: seq<Endpoint>, visits: seq<SyncRun>)
    requires VisitsListed(known, order, visits) && forall i, j | 0 <= i < j < |order| :: Key(order[i]) != Key(order[j])
    ensures forall i, j | 0 <= i < j < |visits| :: Key(visits[i].inst) != Key(visits[j].inst)
    ensures forall i | 0 <= i < |visits| :: visits[i].inst in order && Key(visits[i].inst) in known
  {
    hide Key;
    CreatableOnce(known, order, |order|);
    var c := Creatable(known, order, |order|);
    forall i | 0 <= i < |visits| ensures visits[i].inst in order && Key(visits[i].inst) in known {
      CreatableAmong(known, order, |order|, c[i]);
    }
  }

  lemma KnownIsVisited(known: set<string>, order: seq<Endpoint>, visits: seq<SyncRun>, m: map<string, Endpoint>,
                       k: string)
    requires VisitsListed(known, order, visits) && Lists(order, m) && k in known && k in m
    ensures exists i :: 0 <= i < |visits| && visits[i].inst == m[k]
  {
    hide Key;
    CreatableOnce(known, order, |order|);
    var p :| 0 <= p < |order| && Key(order[p]) == k;
    var c := Creatable(known, order, |order|);
    assert order[p] in c;
    var i :| 0 <= i < |c| && c[i] == order[p];
    assert visits[i].inst == m[k];
  }

  // Whatever happens to the others, each configured replica with a URL for which a client
  // can be created is visited and reported exactly once, and no other.
  lemma EachReplicaReportedOnce(cfg: Syncing.Config, insts: seq<Endpoint>, o: Origin, order: seq<Endpoint>,
                                visits: seq<SyncRun>, servers0: map<string, Instance>, traces0: map<string, seq<Event>>,
      servers: map<string, Instance>, traces: map<string, seq<Event>>)
    requires Lists(order, Dedup(insts, |insts|))
    requires RoundSoFar(cfg, o, order, |order|, visits, servers0, traces0, servers, traces)
    ensures var reports := ReportsOf(visits, |visits|);
            |reports| == |visits| && forall i | 0 <= i < |visits| :: reports[i] == Report(visits[i].inst, visits[i].ok)
    ensures forall i, j | 0 <= i < j < |visits| :: Key(visits[i].inst) != Key(visits[j].inst)
    ensures forall i | 0 <= i < |visits| :: visits[i].inst in order && Key(visits[i].inst) in servers0
    ensures forall k | k in servers0 && k in Dedup(insts, |insts|) ::
              exists i :: 0 <= i < |visits| && visits[i].inst == Dedup(insts, |insts|)[k]
  {
    hide Key, OneAfterAnother, VisitsAre, Dedup, ReportsOf, Creatable;
    ReportAt(visits, |visits|);
    VisitedOnce(servers0.Keys, order, visits);
    forall k | k in servers0 && k in Dedup(insts, |insts|)
      ensures exists i :: 0 <= i < |visits| && visits[i].inst == Dedup(insts, |insts|)[k]
    {
      KnownIsVisited(servers0.Keys, order, visits, Dedup(insts, |insts|), k);
    }
  }

  // An instance that is not configured as a replica gets no call.
  lemma NobodyElseIsContacted(cfg: Syncing.Config, insts: seq<Endpoint>, o: Origin, order: seq<Endpoint>,
                              visits: seq<SyncRun>, servers0: map<string, Instance>, traces0: map<string, seq<Event>>,
      servers: map<string, Instance>, traces: map<string, seq<Event>>)
    requires Lists(order, Dedup(insts, |insts|))
    requires RoundSoFar(cfg, o, order, |order|, visits, servers0, traces0, servers, traces)
    ensures forall k | k in servers0 && k !in Dedup(insts, |insts|) ::
              servers[k] == servers0[k] && traces[k] == traces0[k]
  {
    hide Key, OneAfterAnother, VisitsAre, Dedup;
  }

  // ---- Gates ----

  // A replica whose version is too old, or whose status cannot be had, gets a status and
  // possibly a setup, stays as it is, and is reported as failed.
  lemma GatedReplicaIsLeftAlone(cfg: Syncing.Config, run: SyncRun)
    requires ValidSync(cfg, run) && (!run.connected || cfg.tooOld(run.s0.version))
    ensures forall i | 0 <= i < |Trace(run)| ::
              Trace(run)[i].call == Get(Status) || (Trace(run)[i].call == Setup && run.inst.autoSetup)
    ensures run.s1 == run.s0 && run.o1 == run.o0 && !run.ok
  {}

  // After the tolerated 401 no profile is written anywhere.
  lemma NoProfileAfter401(cfg: Syncing.Config, s: Instance, o: Origin, visits: seq<SyncRun>, i: nat, j: nat)
    requires IsReading(cfg.features, s, false, o) && OneAfterAnother(cfg, o, visits) && i < |visits|
    requires j < |visits[i].runs| && visits[i].runs[j].act.ProfileAction?
    ensures forall n | 0 <= n < |visits[i].runs[j].events| :: visits[i].runs[j].events[n].call == Get(ProfileInfo)
    ensures visits[i].runs[j].s1 == visits[i].runs[j].s0
  {
    var run, ctx := visits[i], ContextFor(cfg, visits[i].inst, visits[i].s0);
    LikeItself(o);
    ProfileStays(cfg, o, visits, i);
    hide IsReading, OneAfterAnother;
    assert ValidSync(cfg, run);
    ChainLink(ctx, run.o0, run.s0, run.runs, j);
    LooseUpTo(cfg, o, run, j);
    QuietProfile(ctx, run.runs[j]);
  }

  lemma ProfileStays(cfg: Syncing.Config, o: Origin, visits: seq<SyncRun>, i: nat)
    requires OneAfterAnother(cfg, o, visits) && i < |visits| && Loosely(o, o)
    ensures Loosely(o, visits[i].o0) && ValidSync(cfg, visits[i])
  {
    AsReadForReplica(cfg, ProfileAction, o, visits, i);
  }

  lemma LooseUpTo(cfg: Syncing.Config, o: Origin, run: SyncRun, j: nat)
    requires ValidSync(cfg, run) && Loosely(o, run.o0) && j < |run.runs|
    ensures Loosely(o, OriginBefore(run.o0, run.runs, j))
  {
    hide Loosely, Chained, Greeting, ActionList, Disciplined, Typed, Filed;
    OriginStaysLoose(ContextFor(cfg, run.inst, run.s0), o, run.o0, run.s0, run.runs, j);
  }

  lemma QuietProfile(ctx: Context, run: ActionRun)
    requires ValidRun(ctx, run) && run.act.ProfileAction? && run.o0.settings.profile == Profile("", "", "")
    ensures forall n | 0 <= n < |run.events| :: run.events[n].call == Get(ProfileInfo)
    ensures run.s1 == run.s0
  {
    if !ReadFailed(run) { EmptyProfileWritesNothing(ctx, run.o0, run.s0, run.plan); }
    assert |run.events| == 1;
    Convergence.OneRead(run.s0, run.events);
  }

  // ---- DHCP ----

  // A configuration fit for a replica: of the origin's two sections those that are usable,
  // at least one; and the replica's own interface and enabled flag where it has them.
  predicate FitFor(o: Dhcp, interfaceName: string, enabled: Option<bool>, d: Dhcp)
  {
    && (UsableV4(o.v4) || UsableV6(o.v6))
    && d.v4 == (if UsableV4(o.v4) then o.v4 else None) && d.v6 == (if UsableV6(o.v6) then o.v6 else None)
    && d.leases == o.leases
    && d.interfaceName == (if interfaceName != "" then Some(interfaceName) else o.interfaceName)
    && d.enabled == (if enabled.Some? then enabled else o.enabled)
  }

  lemma PlannedDhcpIsFit(ctx: Context, act: Action, o: Origin, s: Instance, plan: seq<Step>, j: nat)
    requires IsPlan(act, ctx, o, s, plan) && j < |plan| && plan[j].call.SetDhcp?
    ensures FitFor(o.settings.dhcp, ctx.interfaceName, ctx.dhcpEnabled, plan[j].call.dhcp)
  {
    OnlyTheDhcpAction(ctx, act, o, s, plan, j);
    hide IsDhcpPlan, FitFor;
    DhcpPlanIsFit(ctx, o, s, plan, j);
  }

  lemma OnlyTheDhcpAction(ctx: Context, act: Action, o: Origin, s: Instance, plan: seq<Step>, j: nat)
    requires IsPlan(act, ctx, o, s, plan) && j < |plan| && plan[j].call.SetDhcp?
    ensures act.DhcpConfigAction?
  {
    hide IsPlan;
    PlanOwned(act, ctx, o, s, plan);
    assert Owns(act, plan[j].call);
  }

  lemma DhcpPlanIsFit(ctx: Context, o: Origin, s: Instance, plan: seq<Step>, j: nat)
    requires IsDhcpPlan(o, s, ctx, plan) && j < |plan| && plan[j].call.SetDhcp?
    ensures FitFor(o.settings.dhcp, ctx.interfaceName, ctx.dhcpEnabled, plan[j].call.dhcp)
  {
    CleaningKeeps(o.settings.dhcp);
    CleaningKeeps(DhcpFor(o.settings.dhcp, ctx));
    hide Listing, Dhcp.Cleaned, Dhcp.HasConfig;
  }

  lemma SentDhcpIsFit(ctx: Context, run: ActionRun, j: nat)
    requires ValidRun(ctx, run) && j < |run.events| && run.events[j].call.SetDhcp?
    ensures FitFor(run.o0.settings.dhcp, ctx.interfaceName, ctx.dhcpEnabled, run.events[j].call.dhcp)
  {
    hide IsPlan, Executes, Replay, OriginAfter, FitFor;
    var n := Reads(run.act, run.o0);
    assert j >= n;
    ExecutesCalls(run.plan, run.events[n..], run.err);
    assert run.events[j] == run.events[n..][j - n];
    PlannedDhcpIsFit(ctx, run.act, run.o0, run.s0, run.plan, j - n);
  }

  // Overrides of one replica never reach another, nor the origin in memory: whatever
  // replicas came before, what a replica is sent is made from what was read.
  lemma DhcpNeverLeaks(cfg: Syncing.Config, o: Origin, visits: seq<SyncRun>, i: nat, j: nat, n: nat)
    requires OneAfterAnother(cfg, o, visits) && i < |visits| && j < |visits[i].runs| && n < |visits[i].runs[j].events|
    ensures visits[i].runs[j].o1.settings.dhcp == o.settings.dhcp
    ensures visits[i].runs[j].events[n].call.SetDhcp? ==>
              FitFor(o.settings.dhcp, visits[i].inst.interfaceName, visits[i].inst.dhcpServerEnabled,
                     visits[i].runs[j].events[n].call.dhcp)
  {
    var run, ctx := visits[i], ContextFor(cfg, visits[i].inst, visits[i].s0);
    LikeItself(o);
    ProfileStays(cfg, o, visits, i);
    hide OneAfterAnother, FitFor, Loosely;
    ChainLink(ctx, run.o0, run.s0, run.runs, j);
    LooseUpTo(cfg, o, run, j);
    DhcpOfLoose(o, run.runs[j].o0);
    RunStaysLoose(ctx, o, run.runs[j]);
    DhcpOfLoose(o, run.runs[j].o1);
    if run.runs[j].events[n].call.SetDhcp? { SentDhcpIsFit(ctx, run.runs[j], n); }
  }

  lemma DhcpOfLoose(a: Origin, b: Origin)
    requires Loosely(a, b)
    ensures a.settings.dhcp == b.settings.dhcp
  {}
}
