// What a replica sees of a visit: the calls it gets, one by one, and what the outcome
// says about them.

module Visits {
  import opened Sorting
  import opened Values
  import opened Server
  import opened Plans
  import opened Ownership
  import opened Syncing
  import opened Success
  import opened Meanings
  import HiddenFailures
  import Guarantees

  // ---- The calls of the actions ----

  // The flag a call belongs to; status and setup belong to none.
  predicate Flagged(f: Features, call: Call)
  {
    match call
    case Get(Status) => true
    case Get(ProfileInfo) => f.generalSettings
    case Get(Parental) => f.generalSettings
    case Get(SafeSearchConfig) => f.generalSettings
    case Get(SafeBrowsing) => f.generalSettings
    case Get(RewriteList) => f.dnsRewrites
    case Get(BlockedServices) => f.services
    case Get(Filtering) => f.filters
    case Get(ClientList) => f.clientSettings
    case Get(QueryLogConfig) => f.queryLogConfig
    case Get(StatsConfig) => f.statsConfig
    case Get(AccessLists) => f.dnsAccessLists
    case Get(DnsConfig) => f.dnsServerConfig
    case Get(DhcpConfig) => f.dhcpServerConfig || f.dhcpStaticLeases
    case Get(TlsConfig) => f.tlsConfig
    case Setup => true
    case SetProfile(_) => f.generalSettings
    case ToggleProtection(_) => f.generalSettings
    case ToggleParental(_) => f.generalSettings
    case SetSafeSearch(_) => f.generalSettings
    case ToggleSafeBrowsing(_) => f.generalSettings
    case SetDns(_) => f.dnsServerConfig
    case SetQueryLog(_) => f.queryLogConfig
    case SetStats(_) => f.statsConfig
    case DeleteRewrite(_) => f.dnsRewrites
    case AddRewrite(_) => f.dnsRewrites
    case ListChange(c) =>
      (match c.slot.list
       case BlockLists => f.filters
       case AllowLists => f.filters
       case Clients => f.clientSettings
       case Leases => f.dhcpStaticLeases)
    case RefreshFilters(_) => f.filters
    case SetRules(_) => f.filters
    case ToggleFiltering(_) => f.filters
    case SetServices(_) => f.services
    case SetAccess(_) => f.dnsAccessLists
    case SetDhcp(_) => f.dhcpServerConfig
    case SetTls(_) => f.tlsConfig
  }

  predicate OfGreeting(call: Call)
  {
    call == Get(Status) || call == Setup
  }

  lemma OwnedIsFlagged(f: Features, act: Action, call: Call)
    requires Owns(act, call) && Enabled(f, act)
    ensures Flagged(f, call) && !OfGreeting(call)
  {}

  lemma ReadIsFlagged(f: Features, act: Action, o: Origin)
    requires Enabled(f, act) && ReadOf(act, o).Some?
    ensures Flagged(f, Get(ReadOf(act, o).value)) && !OfGreeting(Get(ReadOf(act, o).value))
  {
    hide Dhcp.HasConfig;
  }

  lemma RunIsFlagged(ctx: Context, f: Features, run: ActionRun, j: nat)
    requires ValidRun(ctx, run) && Enabled(f, run.act) && j < |run.events|
    ensures Flagged(f, run.events[j].call) && !OfGreeting(run.events[j].call)
  {
    hide IsPlan, Executes, Replay, OriginAfter, Owns, Flagged, OfGreeting, ReadOf, Enabled, Typed, Filed;
    if j == 0 && Reads(run.act, run.o0) == 1 {
      ReadIsFlagged(f, run.act, run.o0);
    } else {
      OnlyReadFirst(ctx, run, j);
      OwnedIsFlagged(f, run.act, run.events[j].call);
    }
  }

  lemma OnlyReadFirst(ctx: Context, run: ActionRun, j: nat)
    requires ValidRun(ctx, run) && Reads(run.act, run.o0) <= j < |run.events|
    ensures Owns(run.act, run.events[j].call)
  {
    hide IsPlan, Executes, Replay, OriginAfter, Owns, ReadOf, Typed, Filed, AllOwned;
    var n := Reads(run.act, run.o0);
    PlanOwned(run.act, ctx, run.o0, run.s0, run.plan);
    ExecutedCallsOwned(run.act, run.plan, run.events[n..], run.err);
    assert run.events[j] == run.events[n..][j - n];
  }

  // Every event of the actions is an event of one of them.
  lemma {:induction false} EventAt(runs: seq<ActionRun>, n: nat, k: nat) returns (i: nat, j: nat)
    requires n <= |runs| && k < |EventsUpTo(runs, n)|
    ensures i < n && j < |runs[i].events| && EventsUpTo(runs, n)[k] == runs[i].events[j]
    ensures i == n - 1 ==> k == |EventsUpTo(runs, n - 1)| + j
  {
    var before := |EventsUpTo(runs, n - 1)|;
    if k < before { i, j := EventAt(runs, n - 1, k); } else { i, j := n - 1, k - before; }
  }

  lemma {:induction false} EventOf(runs: seq<ActionRun>, n: nat, i: nat, j: nat) returns (k: nat)
    requires i < n <= |runs| && j < |runs[i].events|
    ensures k < |EventsUpTo(runs, n)| && EventsUpTo(runs, n)[k] == runs[i].events[j]
  {
    if i < n - 1 { k := EventOf(runs, n - 1, i, j); } else { k := |EventsUpTo(runs, n - 1)| + j; }
  }

  lemma RunOfVisit(cfg: Config, run: SyncRun, i: nat)
    requires ValidSync(cfg, run) && i < |run.runs|
    ensures Enabled(cfg.features, run.runs[i].act) && ValidRun(ContextFor(cfg, run.inst, run.s0), run.runs[i])
  {
    hide Chained, Greeting, ActionList, ValidRun, Enabled, Rank;
    RunsAreEnabled(cfg, run);
    ChainLink(ContextFor(cfg, run.inst, run.s0), run.o0, run.s0, run.runs, i);
  }

  lemma ActionEvent(cfg: Config, run: SyncRun, k: nat) returns (i: nat, j: nat)
    requires ValidSync(cfg, run) && |run.hello| <= k < |Trace(run)|
    ensures i < |run.runs| && j < |run.runs[i].events| && Trace(run)[k] == run.runs[i].events[j]
    ensures i == |run.runs| - 1 && j == |run.runs[i].events| - 1 ==> k == |Trace(run)| - 1
    ensures Enabled(cfg.features, run.runs[i].act) && ValidRun(ContextFor(cfg, run.inst, run.s0), run.runs[i])
  {
    hide ValidSync, ValidRun, Enabled;
    i, j := EventAt(run.runs, |run.runs|, k - |run.hello|);
    RunOfVisit(cfg, run, i);
  }

  // No call is made for a flag that is off, and no status or setup among the actions.
  lemma CallsAreFlagged(cfg: Config, run: SyncRun, k: nat)
    requires ValidSync(cfg, run) && k < |Trace(run)|
    ensures Flagged(cfg.features, Trace(run)[k].call)
    ensures k >= |run.hello| ==> !OfGreeting(Trace(run)[k].call)
  {
    if k < |run.hello| { GreetingCalls(cfg.features, run.inst.autoSetup, run.hello, run.connected, k); }
    hide ValidSync, ValidRun, Flagged, OfGreeting, Enabled;
    if k >= |run.hello| {
      var i, j := ActionEvent(cfg, run, k);
      RunIsFlagged(ContextFor(cfg, run.inst, run.s0), cfg.features, run.runs[i], j);
    }
  }

  lemma GreetingCalls(f: Features, autoSetup: bool, hello: seq<Event>, connected: bool, k: nat)
    requires Greeting(autoSetup, hello, connected) && k < |hello|
    ensures Flagged(f, hello[k].call) && OfGreeting(hello[k].call)
  {}

  // ---- The greeting ----

  // The status a visit goes by has been answered: at once, or after a setup that was asked
  // for, allowed and successful.
  predicate Answered(autoSetup: bool, t: seq<Event>)
  {
    && t != []
    && (t[0].Ok() || (autoSetup && t[0].reply == SetupNeeded && |t| > 2 && t[1].Ok() && t[2].Ok()))
  }

  // Where the calls of the actions start, if there are any.
  function Greeted(t: seq<Event>): nat
    requires t != []
  {
    if t[0].Ok() then 1 else 3
  }

  lemma GreetingOf(cfg: Config, run: SyncRun)
    requires ValidSync(cfg, run)
    ensures Trace(run) != [] && (run.connected <==> Answered(run.inst.autoSetup, Trace(run)))
    ensures run.connected ==> |run.hello| == Greeted(Trace(run))
    ensures !run.connected ==> Trace(run) == run.hello
  {
    hide Chained, ActionList, Disciplined;
    assert Trace(run)[..|run.hello|] == run.hello;
  }

  // A visit starts with a status. A status that asks for setup is answered with a setup if
  // that is allowed, and a successful setup by another status. A visit ends with the first
  // of these calls that fails.
  lemma VisitStarts(cfg: Config, run: SyncRun)
    requires ValidSync(cfg, run)
    ensures var t, setUp := Trace(run), run.inst.autoSetup;
      && |t| > 0 && t[0].call == Get(Status)
      && (!t[0].Ok() && !(setUp && t[0].reply == SetupNeeded) ==> |t| == 1)
      && (setUp && t[0].reply == SetupNeeded ==> |t| > 1 && t[1].call == Setup && (t[1].Ok() <==> |t| > 2))
      && (setUp && t[0].reply == SetupNeeded && |t| > 2 ==> t[2].call == Get(Status) && (!t[2].Ok() ==> |t| == 3))
  {
    GreetingOf(cfg, run);
  }

  // A setup is made only right after a first status that asks for it, and only if it is allowed.
  lemma SetupOnlyWhenAsked(cfg: Config, run: SyncRun, k: nat)
    requires ValidSync(cfg, run) && k < |Trace(run)| && Trace(run)[k].call == Setup
    ensures k == 1 && run.inst.autoSetup && Trace(run)[0].call == Get(Status) && Trace(run)[0].reply == SetupNeeded
  {
    CallsAreFlagged(cfg, run, k);
  }

  // Every other call comes after a status answered with success, the last one made.
  lemma NothingBeforeAStatus(cfg: Config, run: SyncRun, k: nat) returns (i: nat)
    requires ValidSync(cfg, run) && k < |Trace(run)| && !OfGreeting(Trace(run)[k].call)
    ensures i < k && Trace(run)[i].call == Get(Status) && Trace(run)[i].Ok()
    ensures forall j | i < j < |Trace(run)| :: !OfGreeting(Trace(run)[j].call)
    ensures !cfg.tooOld(run.s0.version)
  {
    GreetingOf(cfg, run);
    forall j | |run.hello| <= j < |Trace(run)| ensures !OfGreeting(Trace(run)[j].call) {
      CallsAreFlagged(cfg, run, j);
    }
    hide Chained, ActionList, Disciplined;
    i := |run.hello| - 1;
    assert k >= |run.hello| && run.connected;
    assert Trace(run)[i] == run.hello[i];
  }

  // ---- Failures and the outcome ----

  // Is the failure of this call passed over?
  predicate Excused(continueOnError: bool, call: Call)
  {
    continueOnError && (call.ListChange? || call.SetTls?)
  }

  lemma PlannedTolerance(ctx: Context, run: ActionRun, i: nat)
    requires ValidRun(ctx, run) && !ReadFailed(run) && i < |run.plan|
    ensures run.plan[i].tolerated <==> Excused(ctx.continueOnError, run.plan[i].call)
  {
    hide IsPlan, Executes, Replay, OriginAfter, Typed, Filed;
    PlanTolerance(ctx, run.act, run.o0, run.s0, run.plan);
    HiddenFailures.PlanTolerated(run.act, ctx, run.o0, run.s0, run.plan);
  }

  // In one action: only its last call can fail without being passed over, and it does
  // exactly if the action ends with an error.
  lemma FailsOnlyAtTheEnd(ctx: Context, run: ActionRun, j: nat)
    requires ValidRun(ctx, run) && j < |run.events|
    ensures run.events[j].Ok() || Excused(ctx.continueOnError, run.events[j].call)
            <==> !run.err || j < |run.events| - 1
  {
    hide IsPlan, Replay, OriginAfter, Typed, Filed, Excused;
    var n := Reads(run.act, run.o0);
    if ReadFailed(run) {
      assert j == 0 && !run.events[0].Ok();
      GetsArePassed(ctx.continueOnError, run.events[0].call);
    } else if j < n {
      assert run.events[0].Ok();
    } else {
      ExecutesCalls(run.plan, run.events[n..], run.err);
      PlannedTolerance(ctx, run, j - n);
      assert run.events[j] == run.events[n..][j - n];
    }
  }

  lemma GetsArePassed(coe: bool, call: Call)
    requires call.Get?
    ensures !Excused(coe, call)
  {}

  // A failure that counts.
  predicate Fatal(continueOnError: bool, e: Event)
  {
    !e.Ok() && !Excused(continueOnError, e.call)
  }

  // A visit is successful exactly when the status was answered, the version is not too old,
  // and no call of an action failed but those that are passed over.
  lemma OutcomeExactly(cfg: Config, run: SyncRun)
    requires ValidSync(cfg, run)
    ensures var t := Trace(run);
            run.ok <==>
            && Answered(run.inst.autoSetup, t) && !cfg.tooOld(run.s0.version)
            && forall k | Greeted(t) <= k < |t| :: !Fatal(cfg.continueOnError, t[k])
  {
    GreetingOf(cfg, run);
    hide Answered, Greeted, Fatal, Chained, ActionList, Greeting;
    if run.connected && !cfg.tooOld(run.s0.version) {
      if run.ok {
        forall k | |run.hello| <= k < |Trace(run)| ensures !Fatal(cfg.continueOnError, Trace(run)[k]) {
          NothingFatal(cfg, run, k);
        }
      } else {
        var k := SomethingFatal(cfg, run);
      }
    }
  }

  lemma NothingFatal(cfg: Config, run: SyncRun, k: nat)
    requires ValidSync(cfg, run) && run.ok && |run.hello| <= k < |Trace(run)|
    ensures !Fatal(cfg.continueOnError, Trace(run)[k])
  {
    hide Chained, ActionList, Greeting, ValidRun, Excused, Trace;
    var i, j := ActionEvent(cfg, run, k);
    FailsOnlyAtTheEnd(ContextFor(cfg, run.inst, run.s0), run.runs[i], j);
  }

  lemma SomethingFatal(cfg: Config, run: SyncRun) returns (k: nat)
    requires ValidSync(cfg, run) && !run.ok && run.connected && !cfg.tooOld(run.s0.version)
    ensures |run.hello| <= k < |Trace(run)| && Fatal(cfg.continueOnError, Trace(run)[k])
  {
    hide Chained, ActionList, Greeting, ValidRun, Excused;
    var i :| 0 <= i < |run.runs| && run.runs[i].err;
    ChainLink(ContextFor(cfg, run.inst, run.s0), run.o0, run.s0, run.runs, i);
    ErrorNeedsCall(ContextFor(cfg, run.inst, run.s0), run.runs[i]);
    var j := |run.runs[i].events| - 1;
    FailsOnlyAtTheEnd(ContextFor(cfg, run.inst, run.s0), run.runs[i], j);
    k := EventOf(run.runs, |run.runs|, i, j);
    k := k + |run.hello|;
  }

  lemma ErrorNeedsCall(ctx: Context, run: ActionRun)
    requires ValidRun(ctx, run) && run.err
    ensures run.events != []
  {
    hide IsPlan, Replay, OriginAfter, Typed, Filed, ReadOf;
  }

  // Without ContinueOnError no call is made after one that failed.
  lemma StopsAtFirstFailure(cfg: Config, run: SyncRun, k: nat)
    requires ValidSync(cfg, run) && !cfg.continueOnError && Greeted(Trace(run)) <= k < |Trace(run)| - 1
    ensures Trace(run)[k].Ok()
  {
    GreetingOf(cfg, run);
    hide Chained, ActionList, Greeting, ValidRun, Trace, Answered, Greeted;
    if run.connected {
      var i, j := ActionEvent(cfg, run, k);
      FailsOnlyAtTheEnd(ContextFor(cfg, run.inst, run.s0), run.runs[i], j);
    } else {
      UnansweredIsShort(run.inst.autoSetup, run.hello, run.connected);
    }
  }

  lemma UnansweredIsShort(autoSetup: bool, hello: seq<Event>, connected: bool)
    requires Greeting(autoSetup, hello, connected) && !connected
    ensures hello != [] && |hello| <= Greeted(hello)
  {}

  // ---- Every flag is served ----

  predicate Makes(t: seq<Event>, call: Call)
  {
    exists k :: 0 <= k < |t| && t[k].call == call
  }

  // The visit got past the greeting and gave up on nothing.
  predicate GoesThrough(cfg: Config, run: SyncRun)
  {
    run.connected && !cfg.tooOld(run.s0.version) && (cfg.continueOnError || run.ok)
  }

  lemma DhcpInMemory(cfg: Config, run: SyncRun, i: nat)
    requires ValidSync(cfg, run) && i < |run.runs|
    ensures run.runs[i].o0.settings.dhcp == run.o0.settings.dhcp
  {
    hide Chained, Greeting, ActionList, ValidRun, Loosely;
    var ctx := ContextFor(cfg, run.inst, run.s0);
    ChainLink(ctx, run.o0, run.s0, run.runs, i);
    Guarantees.LikeItself(run.o0);
    OriginStaysLoose(ctx, run.o0, run.o0, run.s0, run.runs, i);
    Guarantees.DhcpOfLoose(run.o0, run.runs[i].o0);
  }

  lemma ActionIsTried(cfg: Config, run: SyncRun, act: Action) returns (i: nat)
    requires ValidSync(cfg, run) && GoesThrough(cfg, run) && Enabled(cfg.features, act)
    ensures i < |run.runs| && run.runs[i].act == act && ValidRun(ContextFor(cfg, run.inst, run.s0), run.runs[i])
    ensures run.runs[i].o0.settings.dhcp == run.o0.settings.dhcp
  {
    hide Chained, Greeting, ValidRun, Rank, Enabled;
    assert act in run.acts;
    i :| 0 <= i < |run.acts| && run.acts[i] == act;
    RunOfVisit(cfg, run, i);
    DhcpInMemory(cfg, run, i);
  }

  lemma ReadIsMade(cfg: Config, run: SyncRun, act: Action, what: Resource)
    requires ValidSync(cfg, run) && GoesThrough(cfg, run) && Enabled(cfg.features, act)
    requires ReadOf(act, run.o0) == Some(what)
    ensures Makes(Trace(run), Get(what))
  {
    hide ValidSync, ValidRun, Enabled, GoesThrough, ReadOf;
    var i := ActionIsTried(cfg, run, act);
    SameRead(act, run.o0, run.runs[i].o0);
    ReadComesFirst(ContextFor(cfg, run.inst, run.s0), run.runs[i], what);
    var k := EventOf(run.runs, |run.runs|, i, 0);
    assert Trace(run)[|run.hello| + k].call == Get(what);
  }

  lemma SameRead(act: Action, o: Origin, o': Origin)
    requires o.settings.dhcp == o'.settings.dhcp
    ensures ReadOf(act, o) == ReadOf(act, o')
  {
    hide Dhcp.HasConfig;
  }

  lemma ReadComesFirst(ctx: Context, run: ActionRun, what: Resource)
    requires ValidRun(ctx, run) && ReadOf(run.act, run.o0) == Some(what)
    ensures run.events != [] && run.events[0].call == Get(what)
  {
    hide IsPlan, Executes, Replay, OriginAfter, Typed, Filed, ReadOf;
  }

  lemma GeneralIsServed(cfg: Config, run: SyncRun)
    requires ValidSync(cfg, run) && GoesThrough(cfg, run) && cfg.features.generalSettings
    ensures var t := Trace(run);
            Makes(t, Get(ProfileInfo)) && Makes(t, Get(Parental)) && Makes(t, Get(SafeSearchConfig))
            && Makes(t, Get(SafeBrowsing))
  {
    hide ValidSync, Makes, GoesThrough;
    ReadIsMade(cfg, run, ProfileAction, ProfileInfo);
    ReadIsMade(cfg, run, ParentalAction, Parental);
    ReadIsMade(cfg, run, SafeSearchAction, SafeSearchConfig);
    ReadIsMade(cfg, run, SafeBrowsingAction, SafeBrowsing);
  }

  lemma DnsAndLogIsServed(cfg: Config, run: SyncRun)
    requires ValidSync(cfg, run) && GoesThrough(cfg, run)
    ensures var f, t := cfg.features, Trace(run);
      && (f.dnsServerConfig ==> Makes(t, Get(DnsConfig))) && (f.queryLogConfig ==> Makes(t, Get(QueryLogConfig)))
      && (f.statsConfig ==> Makes(t, Get(StatsConfig))) && (f.dnsRewrites ==> Makes(t, Get(RewriteList)))
  {
    hide ValidSync, Makes, GoesThrough;
    if cfg.features.dnsServerConfig { ReadIsMade(cfg, run, DnsAction, DnsConfig); }
    if cfg.features.queryLogConfig { ReadIsMade(cfg, run, QueryLogAction, QueryLogConfig); }
    if cfg.features.statsConfig { ReadIsMade(cfg, run, StatsAction, StatsConfig); }
    if cfg.features.dnsRewrites { ReadIsMade(cfg, run, RewritesAction, RewriteList); }
  }

  lemma ListsAreServed(cfg: Config, run: SyncRun)
    requires ValidSync(cfg, run) && GoesThrough(cfg, run)
    ensures var f, t := cfg.features, Trace(run);
      && (f.filters ==> Makes(t, Get(Filtering))) && (f.services ==> Makes(t, Get(BlockedServices)))
      && (f.clientSettings ==> Makes(t, Get(ClientList))) && (f.dnsAccessLists ==> Makes(t, Get(AccessLists)))
  {
    hide ValidSync, Makes, GoesThrough;
    if cfg.features.filters { ReadIsMade(cfg, run, FiltersAction, Filtering); }
    if cfg.features.services { ReadIsMade(cfg, run, ServicesAction, BlockedServices); }
    if cfg.features.clientSettings { ReadIsMade(cfg, run, ClientsAction, ClientList); }
    if cfg.features.dnsAccessLists { ReadIsMade(cfg, run, AccessAction, AccessLists); }
  }

  lemma DhcpAndTlsIsServed(cfg: Config, run: SyncRun)
    requires ValidSync(cfg, run) && GoesThrough(cfg, run)
    ensures var f, t := cfg.features, Trace(run);
      && (f.dhcpServerConfig && (UsableV4(run.o0.settings.dhcp.v4) || UsableV6(run.o0.settings.dhcp.v6)) ==>
            Makes(t, Get(DhcpConfig)))
      && (f.dhcpStaticLeases ==> Makes(t, Get(DhcpConfig))) && (f.tlsConfig ==> Makes(t, Get(TlsConfig)))
  {
    CleaningKeeps(run.o0.settings.dhcp);
    hide ValidSync, Makes, GoesThrough, UsableV4, UsableV6, Dhcp.HasConfig;
    var f := cfg.features;
    if f.dhcpServerConfig && run.o0.settings.dhcp.HasConfig() { ReadIsMade(cfg, run, DhcpConfigAction, DhcpConfig); }
    if f.dhcpStaticLeases { ReadIsMade(cfg, run, LeasesAction, DhcpConfig); }
    if f.tlsConfig { ReadIsMade(cfg, run, TlsAction, TlsConfig); }
  }

  // A visit that goes through looks at what the replica has for each flag that is on; at its
  // DHCP configuration only if the origin has a usable one.
  lemma FlagsAreServed(cfg: Config, run: SyncRun)
    requires ValidSync(cfg, run) && GoesThrough(cfg, run)
    ensures var f, t := cfg.features, Trace(run);
      && (f.generalSettings ==>
            Makes(t, Get(ProfileInfo)) && Makes(t, Get(Parental)) && Makes(t, Get(SafeSearchConfig))
            && Makes(t, Get(SafeBrowsing)))
      && (f.dnsServerConfig ==> Makes(t, Get(DnsConfig)))
      && (f.queryLogConfig ==> Makes(t, Get(QueryLogConfig)))
      && (f.statsConfig ==> Makes(t, Get(StatsConfig)))
      && (f.dnsRewrites ==> Makes(t, Get(RewriteList)))
      && (f.filters ==> Makes(t, Get(Filtering)))
      && (f.services ==> Makes(t, Get(BlockedServices)))
      && (f.clientSettings ==> Makes(t, Get(ClientList)))
      && (f.dnsAccessLists ==> Makes(t, Get(AccessLists)))
      && (f.dhcpServerConfig && (UsableV4(run.o0.settings.dhcp.v4) || UsableV6(run.o0.settings.dhcp.v6)) ==>
            Makes(t, Get(DhcpConfig)))
      && (f.dhcpStaticLeases ==> Makes(t, Get(DhcpConfig)))
      && (f.tlsConfig ==> Makes(t, Get(TlsConfig)))
  {
    hide ValidSync, Makes, GoesThrough, UsableV4, UsableV6;
    if cfg.features.generalSettings { GeneralIsServed(cfg, run); }
    DnsAndLogIsServed(cfg, run);
    ListsAreServed(cfg, run);
    DhcpAndTlsIsServed(cfg, run);
  }

  predicate OfDhcpConfig(call: Call)
  {
    call == Get(DhcpConfig) || call.SetDhcp?
  }

  lemma NoDhcpRun(ctx: Context, run: ActionRun, j: nat)
    requires ValidRun(ctx, run) && j < |run.events| && !run.act.LeasesAction?
    requires !run.o0.settings.dhcp.HasConfig()
    ensures !OfDhcpConfig(run.events[j].call)
  {
    hide IsPlan, Executes, Replay, OriginAfter, Typed, Filed, Dhcp.HasConfig;
    if j >= Reads(run.act, run.o0) {
      OnlyReadFirst(ctx, run, j);
      if run.act.DhcpConfigAction? { NothingToSend(ctx, run); }
    }
  }

  lemma NothingToSend(ctx: Context, run: ActionRun)
    requires ValidRun(ctx, run) && run.act.DhcpConfigAction? && !run.o0.settings.dhcp.HasConfig()
    ensures run.events == []
  {
    hide Replay, OriginAfter, Typed, Filed, Dhcp.HasConfig;
    if run.events != [] { ExecutesCalls(run.plan, run.events, run.err); }
  }

  lemma NoDhcpGreeting(autoSetup: bool, hello: seq<Event>, connected: bool, k: nat)
    requires Greeting(autoSetup, hello, connected) && k < |hello|
    ensures !OfDhcpConfig(hello[k].call)
  {}

  lemma NoDhcpAction(cfg: Config, run: SyncRun, k: nat)
    requires ValidSync(cfg, run) && |run.hello| <= k < |Trace(run)| && !cfg.features.dhcpStaticLeases
    requires !run.o0.settings.dhcp.HasConfig()
    ensures !OfDhcpConfig(Trace(run)[k].call)
  {
    hide ValidSync, ValidRun, OfDhcpConfig, Dhcp.HasConfig, Trace;
    var i, j := ActionEvent(cfg, run, k);
    DhcpInMemory(cfg, run, i);
    NoDhcpRun(ContextFor(cfg, run.inst, run.s0), run.runs[i], j);
  }

  // An origin without a usable section leads to no DHCP configuration being read or written
  // anywhere; leases are another matter.
  lemma NoSectionNoDhcp(cfg: Config, run: SyncRun, k: nat)
    requires ValidSync(cfg, run) && k < |Trace(run)| && !cfg.features.dhcpStaticLeases
    requires !UsableV4(run.o0.settings.dhcp.v4) && !UsableV6(run.o0.settings.dhcp.v6)
    ensures !OfDhcpConfig(Trace(run)[k].call)
  {
    CleaningKeeps(run.o0.settings.dhcp);
    hide Chained, Disciplined, ActionList, Greeting, OfDhcpConfig, UsableV4, UsableV6, Dhcp.HasConfig;
    if k < |run.hello| {
      NoDhcpGreeting(run.inst.autoSetup, run.hello, run.connected, k);
    } else {
      NoDhcpAction(cfg, run, k);
    }
  }
}
