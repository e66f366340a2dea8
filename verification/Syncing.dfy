// One replica's part of a run (syncTo): greeting and version gate, then the actions of
// the enabled features in order, with the error policy and the reported outcome.

module Syncing {
  import opened Sorting
  import opened Values
  import opened Server
  import opened Plans
  import opened NeverStale
  import opened Evolution
  import opened Safety
  import opened Progress

  datatype Features = Features(
    dnsAccessLists: bool, dnsServerConfig: bool, dnsRewrites: bool, dhcpServerConfig: bool, dhcpStaticLeases: bool,
    generalSettings: bool, queryLogConfig: bool, statsConfig: bool, clientSettings: bool, services: bool,
    filters: bool, theme: bool, tlsConfig: bool)

  // The feature flag an action depends on.
  predicate Enabled(f: Features, act: Action)
  {
    match act
    case ProfileAction => f.generalSettings
    case ProtectionAction => f.generalSettings
    case ParentalAction => f.generalSettings
    case SafeSearchAction => f.generalSettings
    case SafeBrowsingAction => f.generalSettings
    case DnsAction => f.dnsServerConfig
    case QueryLogAction => f.queryLogConfig
    case StatsAction => f.statsConfig
    case RewritesAction => f.dnsRewrites
    case FiltersAction => f.filters
    case ServicesAction => f.services
    case ClientsAction => f.clientSettings
    case AccessAction => f.dnsAccessLists
    case DhcpConfigAction => f.dhcpServerConfig
    case LeasesAction => f.dhcpStaticLeases
    case TlsAction => f.tlsConfig
  }

  // The place of an action in the fixed order of a run.
  function Rank(act: Action): nat
  {
    match act
    case ProfileAction => 0
    case ProtectionAction => 1
    case ParentalAction => 2
    case SafeSearchAction => 3
    case SafeBrowsingAction => 4
    case DnsAction => 5
    case QueryLogAction => 6
    case StatsAction => 7
    case RewritesAction => 8
    case FiltersAction => 9
    case ServicesAction => 10
    case ClientsAction => 11
    case AccessAction => 12
    case DhcpConfigAction => 13
    case LeasesAction => 14
    case TlsAction => 15
  }

  // The enabled actions, each once, in the order of a run.
  ghost predicate ActionList(f: Features, acts: seq<Action>)
  {
    && (forall act :: act in acts <==> Enabled(f, act))
    && (forall i, j | 0 <= i < j < |acts| :: Rank(acts[i]) < Rank(acts[j]))
  }

  // The list is complete for the actions below a rank.
  ghost predicate Grown(f: Features, acts: seq<Action>, rank: nat)
  {
    && (forall act :: act in acts <==> Enabled(f, act) && Rank(act) < rank)
    && (forall i, j | 0 <= i < j < |acts| :: Rank(acts[i]) < Rank(acts[j]))
  }

  lemma Grow(f: Features, acts: seq<Action>, act: Action)
    requires Grown(f, acts, Rank(act))
    ensures Grown(f, if Enabled(f, act) then acts + [act] else acts, Rank(act) + 1)
  {
    forall other | Rank(other) == Rank(act) ensures other == act {}
    forall i | 0 <= i < |acts| ensures Rank(acts[i]) < Rank(act) { assert acts[i] in acts; }
    hide Rank, Enabled;
  }

  lemma GrowGeneral(f: Features)
    ensures var general := [ProfileAction, ProtectionAction, ParentalAction, SafeSearchAction, SafeBrowsingAction];
            Grown(f, if f.generalSettings then general else [], 5)
  {}

  // One conditional append.
  method AppendIf(flag: bool, ghost f: Features, acts: seq<Action>, act: Action) returns (longer: seq<Action>)
    requires flag == Enabled(f, act) && Grown(f, acts, Rank(act))
    ensures Grown(f, longer, Rank(act) + 1)
  {
    hide Grown;
    Grow(f, acts, act);
    longer := acts;
    if flag { longer := acts + [act]; }
  }

  // The first half of setupActions: general settings, DNS server, query log, statistics, rewrites.
  method FirstActions(f: Features) returns (acts: seq<Action>)
    ensures Grown(f, acts, 9)
  {
    hide Grown;
    acts := [];
    GrowGeneral(f);
    if f.generalSettings {
      acts := [ProfileAction, ProtectionAction, ParentalAction, SafeSearchAction, SafeBrowsingAction];
    }
    acts := AppendIf(f.dnsServerConfig, f, acts, DnsAction);
    acts := AppendIf(f.queryLogConfig, f, acts, QueryLogAction);
    acts := AppendIf(f.statsConfig, f, acts, StatsAction);
    acts := AppendIf(f.dnsRewrites, f, acts, RewritesAction);
  }

  // setupActions: the list grows by one group after another.
  method SetupActions(f: Features) returns (acts: seq<Action>)
    ensures ActionList(f, acts)
  {
    hide Grown;
    acts := FirstActions(f);
    acts := AppendIf(f.filters, f, acts, FiltersAction);
    acts := AppendIf(f.services, f, acts, ServicesAction);
    acts := AppendIf(f.clientSettings, f, acts, ClientsAction);
    acts := AppendIf(f.dnsAccessLists, f, acts, AccessAction);
    acts := AppendIf(f.dhcpServerConfig, f, acts, DhcpConfigAction);
    acts := AppendIf(f.dhcpStaticLeases, f, acts, LeasesAction);
    acts := AppendIf(f.tlsConfig, f, acts, TlsAction);
    GrownUp(f, acts);
  }

  lemma GrownUp(f: Features, acts: seq<Action>)
    requires Grown(f, acts, 16)
    ensures ActionList(f, acts)
  {}

  // A configured instance. "rest" is what only the connection needs.
  datatype Endpoint = Endpoint(
    url: string, apiPath: string, autoSetup: bool, interfaceName: string, dhcpServerEnabled: Option<bool>, rest: Json)

  // tooOld: is the version older than the minimum? The ordering of versions is precedence
  // in the sense of section 11 of Semantic Versioning 2.0.0; no property depends on it.
  datatype Config = Config(features: Features, continueOnError: bool, tooOld: string -> bool)

  function ContextFor(cfg: Config, inst: Endpoint, s: Instance): Context
  {
    Context(cfg.continueOnError, cfg.features.theme, inst.interfaceName, inst.dhcpServerEnabled, s.settings.protection)
  }

  // statusWithSetup: a status, and when that asks for setup and setup is allowed, the
  // setup and another status.
  ghost predicate Greeting(autoSetup: bool, hello: seq<Event>, connected: bool)
  {
    && 0 < |hello| && hello[0].call == Get(Status)
    && (if hello[0].Ok() then |hello| == 1 && connected
        else if !autoSetup || !hello[0].reply.SetupNeeded? then |hello| == 1 && !connected
        else
          && 1 < |hello| && hello[1].call == Setup
          && (if !hello[1].Ok() then |hello| == 2 && !connected
              else |hello| == 3 && hello[2].call == Get(Status) && (connected <==> hello[2].Ok())))
  }

  datatype SyncRun = SyncRun(
    inst: Endpoint, o0: Origin, s0: Instance, hello: seq<Event>, connected: bool, acts: seq<Action>,
    runs: seq<ActionRun>, ok: bool, o1: Origin, s1: Instance)

  function OriginBefore(o0: Origin, runs: seq<ActionRun>, n: nat): Origin
    requires n <= |runs|
  {
    if n == 0 then o0 else runs[n - 1].o1
  }

  function StateBefore(s0: Instance, runs: seq<ActionRun>, n: nat): Instance
    requires n <= |runs|
  {
    if n == 0 then s0 else runs[n - 1].s1
  }

  // The executed actions follow each other on the same replica and the same origin in memory.
  ghost predicate Chained(ctx: Context, o0: Origin, s0: Instance, runs: seq<ActionRun>)
  {
    forall i | 0 <= i < |runs| ::
      ValidRun(ctx, runs[i]) && runs[i].o0 == OriginBefore(o0, runs, i) && runs[i].s0 == StateBefore(s0, runs, i)
  }

  // Without ContinueOnError the executed actions are the prefix that ends at the first
  // failure; with it, all of them. Success means that none failed.
  ghost predicate Disciplined(continueOnError: bool, acts: seq<Action>, runs: seq<ActionRun>, ok: bool)
  {
    && |runs| <= |acts| && (forall i | 0 <= i < |runs| :: runs[i].act == acts[i])
    && (!continueOnError ==> forall i | 0 <= i < |runs| - 1 :: !runs[i].err)
    && (|runs| < |acts| ==> !continueOnError && 0 < |runs| && runs[|runs| - 1].err)
    && (ok <==> forall i | 0 <= i < |runs| :: !runs[i].err)
  }

  ghost predicate ValidSync(cfg: Config, run: SyncRun)
  {
    && Greeting(run.inst.autoSetup, run.hello, run.connected)
    && ActionList(cfg.features, run.acts)
    && Typed(run.o0) && Filed(run.s0)
    && run.o1 == OriginBefore(run.o0, run.runs, |run.runs|)
    && run.s1 == StateBefore(run.s0, run.runs, |run.runs|)
    && (if !run.connected || cfg.tooOld(run.s0.version) then run.runs == [] && !run.ok
        else
          && Chained(ContextFor(cfg, run.inst, run.s0), run.o0, run.s0, run.runs)
          && Disciplined(cfg.continueOnError, run.acts, run.runs, run.ok))
  }

  // ---- The calls of a run ----

  function EventsUpTo(runs: seq<ActionRun>, n: nat): seq<Event>
    requires n <= |runs|
  {
    if n == 0 then [] else EventsUpTo(runs, n - 1) + runs[n - 1].events
  }

  function Trace(run: SyncRun): seq<Event>
  {
    run.hello + EventsUpTo(run.runs, |run.runs|)
  }

  lemma HelloChangesNothing(autoSetup: bool, hello: seq<Event>, connected: bool, s: Instance, k: nat)
    requires Greeting(autoSetup, hello, connected) && k <= |hello|
    ensures At(s, hello, k) == s
  {
    forall i | 0 <= i < |hello| ensures hello[i].call.Get? || hello[i].call.Setup? {}
    QuietPrefix(s, hello, k);
  }

  lemma {:induction false} QuietPrefix(s: Instance, events: seq<Event>, k: nat)
    requires k <= |events| && forall i | 0 <= i < |events| :: events[i].call.Get? || events[i].call.Setup?
    ensures At(s, events, k) == s
  {
    if k == 0 { assert events[..0] == []; } else {
      QuietPrefix(s, events, k - 1);
      ReplayStep(s, events, k - 1);
    }
  }

  // ---- Whole runs ----

  lemma NothingReplays(o: Origin, s: Instance)
    ensures Replay(s, []) == s && SafeThroughout(o, s, []) && ProductiveThroughout(o, s, [])
  {}

  lemma ChainLink(ctx: Context, o0: Origin, s0: Instance, runs: seq<ActionRun>, i: nat)
    requires Chained(ctx, o0, s0, runs) && i < |runs|
    ensures ValidRun(ctx, runs[i]) && runs[i].o0 == OriginBefore(o0, runs, i) && runs[i].s0 == StateBefore(s0, runs, i)
    ensures runs[i].s1 == Replay(runs[i].s0, runs[i].events)
  {}

  // Each action starts where the last one stopped.
  lemma {:induction false} ChainReplays(ctx: Context, o0: Origin, s0: Instance, runs: seq<ActionRun>, n: nat)
    requires Chained(ctx, o0, s0, runs) && n <= |runs|
    ensures Replay(s0, EventsUpTo(runs, n)) == StateBefore(s0, runs, n)
  {
    NothingReplays(o0, s0);
    hide Replay, Chained;
    if n > 0 {
      ChainReplays(ctx, o0, s0, runs, n - 1);
      ChainLink(ctx, o0, s0, runs, n - 1);
      ReplayConcat(s0, EventsUpTo(runs, n - 1), runs[n - 1].events);
    }
  }

  lemma {:induction false} ChainIsSafe(ctx: Context, o: Origin, o0: Origin, s0: Instance, runs: seq<ActionRun>, n: nat)
    requires Chained(ctx, o0, s0, runs) && n <= |runs|
    requires SameNames(o, o0)
    ensures SafeThroughout(o, s0, EventsUpTo(runs, n))
    ensures SameNames(o, OriginBefore(o0, runs, n))
  {
    NothingReplays(o, s0);
    hide SameNames, SafeThroughout, Replay, Chained;
    if n > 0 {
      ChainIsSafe(ctx, o, o0, s0, runs, n - 1);
      ChainLink(ctx, o0, s0, runs, n - 1);
      ChainReplays(ctx, o0, s0, runs, n - 1);
      ActionIsSafe(ctx, o, runs[n - 1]);
      SafeConcat(o, s0, EventsUpTo(runs, n - 1), runs[n - 1].events);
    }
  }

  // The whole trace of a replica leads from its first state to its last.
  lemma SyncReplays(cfg: Config, run: SyncRun)
    requires ValidSync(cfg, run)
    ensures Replay(run.s0, run.hello) == run.s0
    ensures Replay(run.s0, Trace(run)) == run.s1
  {
    HelloChangesNothing(run.inst.autoSetup, run.hello, run.connected, run.s0, |run.hello|);
    assert run.hello[..|run.hello|] == run.hello;
    ReplayConcat(run.s0, run.hello, EventsUpTo(run.runs, |run.runs|));
    if run.runs != [] {
      ChainReplays(ContextFor(cfg, run.inst, run.s0), run.o0, run.s0, run.runs, |run.runs|);
    }
  }

  // In every intermediate state of a replica's part of a run, whichever calls fail and
  // under either error policy.
  lemma SyncIsSafe(cfg: Config, o: Origin, run: SyncRun, k: nat)
    requires ValidSync(cfg, run) && SameNames(o, run.o0) && k <= |Trace(run)|
    ensures KeysBetween(o, run.s0, At(run.s0, Trace(run), k))
    ensures SameNames(o, run.o1) && Replay(run.s0, Trace(run)) == run.s1
  {
    hide SafeThroughout, KeysBetween, At, Replay, Chained, SameNames, Greeting;
    SyncReplays(cfg, run);
    var events := EventsUpTo(run.runs, |run.runs|);
    NothingReplays(o, run.s0);
    if run.runs != [] {
      ChainIsSafe(ContextFor(cfg, run.inst, run.s0), o, run.o0, run.s0, run.runs, |run.runs|);
    }
    HelloIsHarmless(o, run.inst.autoSetup, run.hello, run.connected, run.s0);
    SafeConcat(o, run.s0, run.hello, events);
    SafeRun(o, run.s0, Trace(run), k);
  }

  lemma HelloIsHarmless(o: Origin, autoSetup: bool, hello: seq<Event>, connected: bool, s: Instance)
    requires Greeting(autoSetup, hello, connected)
    ensures SafeThroughout(o, s, hello) && ProductiveThroughout(o, s, hello)
  {}

  // ---- Progress over any number of rounds ----

  // What progress asks of the origin, feature by feature.
  ghost predicate Regular(f: Features, o: Origin)
  {
    forall act | Enabled(f, act) :: RegularFor(act, o)
  }

  lemma {:induction false} ChainIsProductive(ctx: Context, f: Features, o: Origin, o0: Origin, s0: Instance,
                                             runs: seq<ActionRun>, n: nat)
    requires Chained(ctx, o0, s0, runs) && n <= |runs| && forall i | 0 <= i < |runs| :: Enabled(f, runs[i].act)
    requires Regular(f, o) && OriginLike(o, o0)
    ensures ProductiveThroughout(o, s0, EventsUpTo(runs, n))
    ensures OriginLike(o, OriginBefore(o0, runs, n))
  {
    NothingReplays(o, s0);
    hide OriginLike, RegularFor, Enabled, ProductiveThroughout, Replay, Chained;
    if n > 0 {
      ChainIsProductive(ctx, f, o, o0, s0, runs, n - 1);
      ChainLink(ctx, o0, s0, runs, n - 1);
      ChainReplays(ctx, o0, s0, runs, n - 1);
      ActionIsProductive(ctx, o, runs[n - 1]);
      ProductiveConcat(o, s0, EventsUpTo(runs, n - 1), runs[n - 1].events);
    }
  }

  // The executed actions are enabled, and in the fixed order.
  lemma RunsAreEnabled(cfg: Config, run: SyncRun)
    requires ValidSync(cfg, run)
    ensures forall i | 0 <= i < |run.runs| :: Enabled(cfg.features, run.runs[i].act)
    ensures forall i, j | 0 <= i < j < |run.runs| :: Rank(run.runs[i].act) < Rank(run.runs[j].act)
  {
    forall i | 0 <= i < |run.runs| ensures Enabled(cfg.features, run.runs[i].act) { assert run.acts[i] in run.acts; }
  }

  // Whatever happens to a replica, the origin in memory is only reordered.
  lemma SyncIsProductive(cfg: Config, o: Origin, run: SyncRun)
    requires ValidSync(cfg, run) && Regular(cfg.features, o) && OriginLike(o, run.o0)
    ensures ProductiveThroughout(o, run.s0, Trace(run))
    ensures OriginLike(o, run.o1)
  {
    hide ProductiveThroughout, Replay, Chained, OriginLike, Regular, Greeting, ActionList;
    SyncReplays(cfg, run);
    RunsAreEnabled(cfg, run);
    var events := EventsUpTo(run.runs, |run.runs|);
    NothingReplays(o, run.s0);
    if run.runs != [] {
      ChainIsProductive(ContextFor(cfg, run.inst, run.s0), cfg.features, o, run.o0, run.s0, run.runs, |run.runs|);
    }
    HelloIsHarmless(o, run.inst.autoSetup, run.hello, run.connected, run.s0);
    ProductiveConcat(o, run.s0, run.hello, events);
  }

  // Rounds against one replica, each from where the last one left it. Every round has its
  // own reading of the origin, with the same entries in any order, and finds that in memory
  // as other replicas left it.
  ghost predicate Rounds(cfg: Config, os: seq<Origin>, rounds: seq<SyncRun>)
  {
    && |os| == |rounds|
    && (forall i | 0 <= i < |rounds| ::
          ValidSync(cfg, rounds[i]) && OriginLike(os[i], rounds[i].o0) && Regular(cfg.features, os[i]))
    && (forall i | 0 < i < |rounds| :: SameEntries(os[0], os[i]) && rounds[i].s0 == rounds[i - 1].s1)
  }

  function WritesIn(rounds: seq<SyncRun>, n: nat): nat
    requires n <= |rounds|
  {
    if n == 0 then 0 else WritesIn(rounds, n - 1) + Writes(Trace(rounds[n - 1]))
  }

  // However many rounds and however many failures: the gap never grows, and all
  // successful list writes together are bounded by the gap there was at first.
  lemma {:induction false} ProgressOverRounds(cfg: Config, os: seq<Origin>, rounds: seq<SyncRun>, n: nat)
    requires Rounds(cfg, os, rounds) && 0 < n <= |rounds|
    ensures WritesIn(rounds, n) + Gap(os[0], rounds[n - 1].s1) <= Gap(os[0], rounds[0].s0)
  {
    hide Gap, Trace, OriginLike, Regular, ValidSync, SameEntries;
    var last := rounds[n - 1];
    RoundIsPaidFor(cfg, os[n - 1], last);
    assert WritesIn(rounds, n) == WritesIn(rounds, n - 1) + Writes(Trace(last));
    if n > 1 {
      ProgressOverRounds(cfg, os, rounds, n - 1);
      GapOfSame(os[0], os[n - 1], last.s0);
      GapOfSame(os[0], os[n - 1], last.s1);
    }
  }

  lemma RoundIsPaidFor(cfg: Config, o: Origin, run: SyncRun)
    requires ValidSync(cfg, run) && OriginLike(o, run.o0) && Regular(cfg.features, o)
    ensures Writes(Trace(run)) + Gap(o, run.s1) <= Gap(o, run.s0)
  {
    hide Gap, ProductiveThroughout, OriginLike, Regular, ValidSync, Trace;
    SyncIsProductive(cfg, o, run);
    SyncReplays(cfg, run);
    var t := Trace(run);
    WritesArePaidFor(o, run.s0, t, |t|);
    assert t[..|t|] == t && At(run.s0, t, |t|) == run.s1;
  }
}
