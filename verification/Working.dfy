// The worker: one replica's part of a run, and a whole run.

module Working {
  import opened Sorting
  import opened Values
  import opened Server
  import opened Plans
  import opened Configs
  import opened Api
  import opened Memory
  import opened Outcomes
  import opened Syncing
  import opened Chaining
  import opened Perform
  import opened Replicas
  import opened WholeRun
  import opened Origins
  import ReplicaOrder

  // What the greeting calls read and change of an instance: nothing.
  lemma GreetingStep(s: Instance, e: Event)
    requires e.call.Get? || e.call.Setup?
    ensures After(s, e) == s
  {}

  // A status; when that asks for setup and setup is allowed, the setup and another status.
  method StatusWithSetup(client: ApiClient, inst: Endpoint)
    returns (connected: bool, s: Instance, ghost hello: seq<Event>)
    modifies client
    ensures Greeting(inst.autoSetup, hello, connected)
    ensures client.server == old(client.server) && client.trace == old(client.trace) + hello
    ensures connected ==> s == client.server
  {
    var reply;
    ghost var e;
    reply, s, e := client.Read(Status);
    hello := [e];
    connected := reply.Done?;
    if !connected && inst.autoSetup && reply.SetupNeeded? {
      var setup;
      ghost var t := client.trace;
      setup, e := client.Do(Setup);
      GreetingStep(old(client.server), e);
      hello := hello + [e];
      if setup.Done? {
        reply, s, e := client.Read(Status);
        hello := hello + [e];
        connected := reply.Done?;
      }
    }
  }

  twostate lemma StillReady(o: OriginMemory)
    requires old(o.Valid()) && unchanged(o) && unchanged(o.Fixed())
    ensures forall act :: Ready(act, o) <==> old(Ready(act, o))
  {}

  lemma ReadyDns(o: OriginMemory)
    requires o.Valid() && Ready(DnsAction, o)
    ensures Sortable(o.View().settings.dns)
  {
    o.ViewMeans();
  }

  // If DNS configurations are synchronized, a server reports all their lists or none.
  predicate Comparable(dns: bool, s: Instance)
  {
    dns ==> Sortable(s.ReadDns())
  }

  lemma OutcomeStaysComparable(dns: bool, act: Action, ctx: Context, run: ActionRun, err: bool, o0: Origin,
                               s0: Instance, t0: seq<Event>, o1: Origin, s1: Instance, t1: seq<Event>)
    requires Outcome(act, ctx, run, err, o0, s0, t0, o1, s1, t1) && Comparable(dns, s0)
    requires act.DnsAction? ==> Sortable(o0.settings.dns)
    ensures Comparable(dns, s1)
  {
    hide ValidRun, Sortable;
    if dns { DnsStaysSortable(ctx, run); }
  }

  // One action of the loop.
  method RunNext(act: Action, client: ApiClient, o: OriginMemory, ctx: Context, ghost dns: bool)
    returns (err: bool, ghost run: ActionRun)
    requires o.Valid() && Filed(client.server) && Ready(act, o)
    requires Comparable(dns, client.server) && (act.DnsAction? ==> dns)
    modifies client, o.clients, o.Touchable()
    ensures o.Valid() && Filed(client.server) && Comparable(dns, client.server)
    ensures forall act :: Ready(act, o) <==> old(Ready(act, o))
    ensures Outcome(act, ctx, run, err, old(o.View()), old(client.server), old(client.trace), o.View(), client.server,
                    client.trace)
  {
    hide Outcome, OriginMemory.View, Sortable, Filed, Ready, Typed, AccessList.Valid, Configs.DnsConfig.Valid;
    ghost var org, s, t := o.View(), client.server, client.trace;
    if act.DnsAction? { ReadyDns(o); }
    err, run := RunAction(act, client, o, ctx);
    OutcomeStaysComparable(dns, act, ctx, run, err, org, s, t, o.View(), client.server, client.trace);
    StillReady(o);
  }

  // The loop over the actions.
  method RunActions(acts: seq<Action>, client: ApiClient, o: OriginMemory, ctx: Context)
    returns (withError: bool, ghost runs: seq<ActionRun>)
    requires o.Valid() && Filed(client.server) && Comparable(DnsAction in acts, client.server)
    requires forall i | 0 <= i < |acts| :: Ready(acts[i], o)
    modifies client, o.clients, o.Touchable()
    ensures o.Valid() && Filed(client.server) && Comparable(DnsAction in acts, client.server)
    ensures forall i | 0 <= i < |acts| :: Ready(acts[i], o)
    ensures Ended(ctx, acts, old(o.View()), old(client.server), old(client.trace), runs, !withError, o.View(),
                  client.server, client.trace)
  {
    hide SoFar, Ended, Outcome, OriginMemory.View, OriginMemory.Valid, Comparable, Filed, Ready;
    ghost var o0, s0, t0 := o.View(), client.server, client.trace;
    withError, runs := false, [];
    NoRuns(ctx, acts, o0, s0, t0);
    for n := 0 to |acts|
      invariant o.Valid() && Filed(client.server) && Comparable(DnsAction in acts, client.server)
      invariant forall i | 0 <= i < |acts| :: Ready(acts[i], o)
      invariant SoFar(ctx, acts, n, o0, s0, t0, runs, withError, o.View(), client.server, client.trace)
    {
      ghost var org, s, t := o.View(), client.server, client.trace;
      var err;
      ghost var run;
      err, run := RunNext(acts[n], client, o, ctx, DnsAction in acts);
      NextRun(ctx, acts, n, o0, s0, t0, runs, withError, org, s, t, run, err, o.View(), client.server, client.trace);
      runs := runs + [run];
      if err {
        withError := true;
        if !ctx.continueOnError { return; }
      }
    }
    AllRun(ctx, acts, o0, s0, t0, runs, withError, o.View(), client.server, client.trace);
  }

  // ---- syncTo ----

  // The greeting leaves the origin in memory alone.
  method Greet(client: ApiClient, inst: Endpoint, o: OriginMemory)
    returns (connected: bool, s: Instance, ghost hello: seq<Event>)
    requires o.Valid()
    modifies client
    ensures Greeting(inst.autoSetup, hello, connected)
    ensures client.server == old(client.server) && client.trace == old(client.trace) + hello
    ensures connected ==> s == client.server
    ensures o.Valid() && o.View() == old(o.View()) && forall act :: Ready(act, o) <==> old(Ready(act, o))
  {
    hide Greeting, Ready, OriginMemory.View, OriginMemory.Valid;
    o.ClientsAreApart(client);
    connected, s, hello := StatusWithSetup(client, inst);
    NothingWritten(o);
    StillReady(o);
  }

  // "run" is a valid part of a run that leads from the first origin and replica to the
  // second and made exactly the calls by which the trace grew.
  ghost predicate Synced(cfg: Config, inst: Endpoint, run: SyncRun, o0: Origin, s0: Instance, t0: seq<Event>,
                         o1: Origin, s1: Instance, t1: seq<Event>)
  {
    && ValidSync(cfg, run) && run.inst == inst && run.o0 == o0 && run.s0 == s0 && run.o1 == o1 && run.s1 == s1
    && t1 == t0 + Trace(run)
  }

  // No status, or a version that is too old: nothing but the greeting.
  lemma GateClosed(cfg: Config, inst: Endpoint, acts: seq<Action>, hello: seq<Event>, connected: bool, o: Origin,
                   s: Instance, t: seq<Event>) returns (run: SyncRun)
    requires Greeting(inst.autoSetup, hello, connected) && ActionList(cfg.features, acts) && Typed(o) && Filed(s)
    requires !connected || cfg.tooOld(s.version)
    ensures Synced(cfg, inst, run, o, s, t, o, s, t + hello) && !run.ok
  {
    run := SyncRun(inst, o, s, hello, connected, acts, [], false, o, s);
    hide Greeting, ActionList, Typed, Filed;
    assert hello + [] == hello;
  }

  lemma GatePassed(cfg: Config, inst: Endpoint, acts: seq<Action>, hello: seq<Event>, runs: seq<ActionRun>, ok: bool,
                   o: Origin, s: Instance, t: seq<Event>, o1: Origin, s1: Instance,
      t1: seq<Event>) returns (run: SyncRun)
    requires Greeting(inst.autoSetup, hello, true) && ActionList(cfg.features, acts) && Typed(o) && Filed(s)
    requires !cfg.tooOld(s.version)
    requires Ended(ContextFor(cfg, inst, s), acts, o, s, t + hello, runs, ok, o1, s1, t1)
    ensures Synced(cfg, inst, run, o, s, t, o1, s1, t1) && run.ok == ok
  {
    run := SyncRun(inst, o, s, hello, true, acts, runs, ok, o1, s1);
    hide Greeting, ActionList, Typed, Filed, Chained;
    assert t + hello + EventsUpTo(runs, |runs|) == t + (hello + EventsUpTo(runs, |runs|));
  }

  // No two instances are reached through the same client object.
  ghost predicate Distinguished(network: map<string, ApiClient>)
  {
    forall j, k | j in network && k in network && j != k :: network[j] != network[k]
  }

  ghost function Servers(network: map<string, ApiClient>): (m: map<string, Instance>)
    reads network.Values
    ensures m.Keys == network.Keys
  {
    map k | k in network :: network[k].server
  }

  ghost function Traces(network: map<string, ApiClient>): (m: map<string, seq<Event>>)
    reads network.Values
    ensures m.Keys == network.Keys
  {
    map k | k in network :: network[k].trace
  }

  // "run" is what happened to the replica inst and to the origin in memory; nothing
  // happened to the other replicas.
  ghost predicate Happened(cfg: Syncing.Config, inst: Endpoint, run: SyncRun, o0: Origin, servers0: map<string,
                           Instance>, traces0: map<string, seq<Event>>, o1: Origin, servers1: map<string, Instance>,
      traces1: map<string, seq<Event>>)
  {
    var k := Key(inst);
    && ValidSync(cfg, run) && run.inst == inst && run.o0 == o0 && run.o1 == o1
    && k in servers0 && k in traces0 && run.s0 == servers0[k]
    && servers1 == servers0[k := run.s1] && traces1 == traces0[k := traces0[k] + Trace(run)]
  }

  ghost function Nowhere(): Instance { Instance("", NO_SETTINGS, [], map[]) }

  ghost predicate AllServe(f: Features, servers: map<string, Instance>)
  {
    forall k | k in servers :: Serves(f, servers[k])
  }

  ghost predicate Serves(f: Features, s: Instance)
  {
    Filed(s) && Comparable(f.dnsServerConfig, s)
  }

  // What one round of the loop over the replicas adds.
  lemma NextReplica(cfg: Syncing.Config, org: Origin, order: seq<Endpoint>, n: nat, visits: seq<SyncRun>,
                    servers0: map<string, Instance>, traces0: map<string, seq<Event>>, run: SyncRun, o0: Origin,
      servers: map<string, Instance>, traces: map<string, seq<Event>>, o1: Origin, servers1: map<string, Instance>,
      traces1: map<string, seq<Event>>)
    requires RoundSoFar(cfg, org, order, n, visits, servers0, traces0, servers, traces)
    requires AllServe(cfg.features, servers)
    requires n < |order| && forall i, j | 0 <= i < j < |order| :: Key(order[i]) != Key(order[j])
    requires o0 == ReplicaOrder.OriginFor(org, visits, |visits|)
    requires Happened(cfg, order[n], run, o0, servers, traces, o1, servers1, traces1)
    requires Serves(cfg.features, run.s1)
    ensures RoundSoFar(cfg, org, order, n + 1, visits + [run], servers0, traces0, servers1, traces1)
    ensures AllServe(cfg.features, servers1)
    ensures o1 == ReplicaOrder.OriginFor(org, visits + [run], |visits + [run]|)
    ensures ReportsOf(visits + [run], |visits + [run]|) == ReportsOf(visits, |visits|) + [Report(order[n], run.ok)]
  {
    hide RoundSoFar, ValidSync, Filed, Comparable, Key;
    VisitedOne(cfg, org, order, n, visits, servers0, traces0, servers, traces, run);
    ReportsOfPrefix(visits, [run], |visits|);
  }

  class Worker {
    const cfg: Syncing.Config
    // createClient: the client of an instance, by its key; there is none for an instance
    // for which a client cannot be created.
    const network: map<string, ApiClient>
    const originClient: ApiClient?
    const instances: ReplicaConfig
    var running: bool
    var actions: seq<Action>
    var reports: seq<Report>

    constructor (cfg: Syncing.Config, network: map<string, ApiClient>, originClient: ApiClient?,
                 instances: ReplicaConfig)
      ensures this.cfg == cfg && this.network == network && this.originClient == originClient
      ensures this.instances == instances
      ensures !running && reports == []
    {
      this.cfg, this.network, this.originClient, this.instances := cfg, network, originClient, instances;
      running, actions, reports := false, [], [];
    }

    // The calls of syncTo, once there is a client.
    method Visit(o: OriginMemory, inst: Endpoint, rc: ApiClient) returns (ok: bool, ghost run: SyncRun)
      requires o.Valid() && ActionList(cfg.features, actions) && forall i | 0 <= i < |actions| :: Ready(actions[i], o)
      requires Serves(cfg.features, rc.server)
      modifies rc, o.clients, o.Touchable()
      ensures o.Valid() && Serves(cfg.features, rc.server)
      ensures forall i | 0 <= i < |actions| :: Ready(actions[i], o)
      ensures Synced(cfg, inst, run, old(o.View()), old(rc.server), old(rc.trace), o.View(), rc.server, rc.trace)
      ensures ok == run.ok
    {
      hide Greeting, Ended, ActionList, Comparable, Filed, Ready, Synced, OriginMemory.View, OriginMemory.Valid;
      DnsIfEnabled(cfg.features, actions);
      ghost var org, s0, t0 := o.View(), rc.server, rc.trace;
      o.ViewMeans();
      var connected, status;
      ghost var hello;
      connected, status, hello := Greet(rc, inst, o);
      if !connected || cfg.tooOld(status.version) {
        run := GateClosed(cfg, inst, actions, hello, connected, org, s0, t0);
        return false, run;
      }
      var ctx := ContextFor(cfg, inst, status);
      var withError;
      ghost var runs;
      withError, runs := RunActions(actions, rc, o, ctx);
      run := GatePassed(cfg, inst, actions, hello, runs, !withError, org, s0, t0, o.View(), rc.server, rc.trace);
      ok := !withError;
    }

    // A replica whose client can be created.
    method SyncKnown(o: OriginMemory, inst: Endpoint) returns (ok: bool, ghost run: SyncRun)
      requires o.Valid() && ActionList(cfg.features, actions) && forall i | 0 <= i < |actions| :: Ready(actions[i], o)
      requires Distinguished(network) && Key(inst) in network
      requires Serves(cfg.features, network[Key(inst)].server)
      modifies network[Key(inst)], o.clients, o.Touchable()
      ensures o.Valid() && forall i | 0 <= i < |actions| :: Ready(actions[i], o)
      ensures Serves(cfg.features, run.s1) && ok == run.ok
      ensures Happened(cfg, inst, run, old(o.View()), old(Servers(network)), old(Traces(network)), o.View(),
                       Servers(network), Traces(network))
    {
      hide ActionList, Ready, Filed, Comparable, ValidSync, OriginMemory.View, OriginMemory.Valid,
           OriginMemory.Touchable, OriginMemory.Fixed, Trace, Key;
      var k := Key(inst);
      var rc := network[k];
      ghost var servers, traces := Servers(network), Traces(network);
      forall j | j in network ensures network[j] !in o.Touchable() { o.ClientsAreApart(network[j]); }
      ok, run := Visit(o, inst, rc);
      assert forall j | j in network && j != k :: network[j].server == servers[j] && network[j].trace == traces[j];
      assert Servers(network) == servers[k := rc.server];
      assert Traces(network) == traces[k := rc.trace];
    }

    lemma ApartFrom(o: OriginMemory)
      ensures this !in o.Touchable() + o.Fixed() && o !in o.Touchable() + o.Fixed()
      ensures forall k | k in network :: network[k] != this as object
      ensures forall x: object | x in o.clients :: x != this
    {}

    // One replica. Without a client nothing happens; otherwise the result is reported.
    method SyncTo(o: OriginMemory, inst: Endpoint) returns (ghost run: SyncRun)
      requires o.Valid() && ActionList(cfg.features, actions) && forall i | 0 <= i < |actions| :: Ready(actions[i], o)
      requires Distinguished(network)
      requires Key(inst) in network ==> Serves(cfg.features, network[Key(inst)].server)
      modifies this`reports, network.Values, o.clients, o.Touchable()
      ensures actions == old(actions) && o.clients == old(o.clients) && o.Touchable() == old(o.Touchable())
      ensures o.Valid() && forall i | 0 <= i < |actions| :: Ready(actions[i], o)
      ensures Key(inst) !in network ==>
                && reports == old(reports) && o.View() == old(o.View())
                && Servers(network) == old(Servers(network)) && Traces(network) == old(Traces(network))
      ensures Key(inst) in network ==>
                && Happened(cfg, inst, run, old(o.View()), old(Servers(network)), old(Traces(network)), o.View(),
                            Servers(network), Traces(network))
                && Serves(cfg.features, run.s1)
                && reports == old(reports) + [Report(inst, run.ok)]
    {
      hide ActionList, Ready, Filed, Comparable, Happened, OriginMemory.View, OriginMemory.Valid,
           OriginMemory.Touchable, OriginMemory.Fixed, Key, Servers, Traces, Distinguished;
      if Key(inst) !in network {
        run := SyncRun(inst, o.View(), Nowhere(), [], false, [], [], false, o.View(), Nowhere());
        return;
      }
      var ok;
      ApartFrom(o);
      ok, run := SyncKnown(o, inst);
      ApartFrom(o);
      reports := reports + [Report(inst, ok)];
    }

    lemma ServesUnder(k: string)
      requires AllServe(cfg.features, Servers(network)) && k in network
      ensures Serves(cfg.features, network[k].server)
    {
      assert Servers(network)[k] == network[k].server;
    }

    // One round of the loop over the replicas.
    method SyncNext(o: OriginMemory, order: seq<Endpoint>, n: nat, ghost org: Origin, ghost servers0: map<string,
                    Instance>, ghost traces0: map<string, seq<Event>>, ghost reports0: seq<Report>,
        ghost before: seq<SyncRun>)
      returns (ghost visits: seq<SyncRun>)
      requires o.Valid() && ActionList(cfg.features, actions) && forall i | 0 <= i < |actions| :: Ready(actions[i], o)
      requires Distinguished(network) && AllServe(cfg.features, Servers(network))
      requires n < |order| && forall i, j | 0 <= i < j < |order| :: Key(order[i]) != Key(order[j])
      requires o.View() == ReplicaOrder.OriginFor(org, before, |before|)
      requires RoundSoFar(cfg, org, order, n, before, servers0, traces0, Servers(network), Traces(network))
      requires reports == reports0 + ReportsOf(before, |before|)
      modifies this`reports, network.Values, o.clients, o.Touchable()
      ensures actions == old(actions) && o.clients == old(o.clients) && o.Touchable() == old(o.Touchable())
      ensures o.Valid() && forall i | 0 <= i < |actions| :: Ready(actions[i], o)
      ensures AllServe(cfg.features, Servers(network)) && o.View() == ReplicaOrder.OriginFor(org, visits, |visits|)
      ensures RoundSoFar(cfg, org, order, n + 1, visits, servers0, traces0, Servers(network), Traces(network))
      ensures reports == reports0 + ReportsOf(visits, |visits|)
    {
      hide ActionList, Ready, Happened, OriginMemory.View, OriginMemory.Valid, OriginMemory.Touchable,
           OriginMemory.Fixed, Key, RoundSoFar, Distinguished, AllServe, Servers, Traces, Serves;
      ghost var o0, servers, traces := o.View(), Servers(network), Traces(network);
      if Key(order[n]) in network { ServesUnder(Key(order[n])); }
      ghost var run := SyncTo(o, order[n]);
      visits := before;
      if Key(order[n]) in network {
        NextReplica(cfg, org, order, n, before, servers0, traces0, run, o0, servers, traces, o.View(), Servers(network),
                    Traces(network));
        visits := before + [run];
      } else {
        SameInstances(servers0, order, n, cfg, org, before, traces0, servers, traces);
        PassedOver(cfg, org, order, n, before, servers0, traces0, servers, traces);
      }
    }

    // The loop over the replicas.
    method SyncAll(o: OriginMemory, order: seq<Endpoint>) returns (ghost visits: seq<SyncRun>)
      requires o.Valid() && ActionList(cfg.features, actions) && forall i | 0 <= i < |actions| :: Ready(actions[i], o)
      requires Distinguished(network) && AllServe(cfg.features, Servers(network))
      requires forall i, j | 0 <= i < j < |order| :: Key(order[i]) != Key(order[j])
      modifies this`reports, network.Values, o.clients, o.Touchable()
      ensures RoundSoFar(cfg, old(o.View()), order, |order|, visits, old(Servers(network)), old(Traces(network)),
                         Servers(network), Traces(network))
      ensures reports == old(reports) + ReportsOf(visits, |visits|)
    {
      hide ActionList, Ready, Happened, OriginMemory.View, OriginMemory.Valid, OriginMemory.Touchable,
           OriginMemory.Fixed, Key, RoundSoFar, Distinguished, AllServe, Servers, Traces;
      ghost var org, servers0, traces0 := o.View(), Servers(network), Traces(network);
      visits := [];
      NoneVisited(cfg, org, order, servers0, traces0);
      for n := 0 to |order|
        invariant actions == old(actions) && o.clients == old(o.clients) && o.Touchable() == old(o.Touchable())
        invariant o.Valid() && forall i | 0 <= i < |actions| :: Ready(actions[i], o)
        invariant AllServe(cfg.features, Servers(network))
        invariant o.View() == ReplicaOrder.OriginFor(org, visits, |visits|)
        invariant RoundSoFar(cfg, org, order, n, visits, servers0, traces0, Servers(network), Traces(network))
        invariant reports == old(reports) + ReportsOf(visits, |visits|)
      {
        visits := SyncNext(o, order, n, org, servers0, traces0, old(reports), visits);
      }
    }

    // Every client stands for a different instance that serves what the model assumes. The
    // origin may be one of the replicas.
    ghost predicate Wired()
      reads this, network.Values, originClient
    {
      && Distinguished(network) && AllServe(cfg.features, Servers(network))
      && (originClient != null ==> Filed(originClient.server) && Reports(cfg.features, originClient.server))
    }

    // The actions and the replicas of a run.
    method Prepare(o: OriginMemory) returns (order: seq<Endpoint>)
      requires o.Valid() && forall act | Enabled(cfg.features, act) :: Ready(act, o)
      modifies this`actions, instances
      ensures var insts := AllConfigured(old(instances.replica), instances.replicas);
              Lists(order, Dedup(insts, |insts|))
      ensures ActionList(cfg.features, actions) && forall i | 0 <= i < |actions| :: Ready(actions[i], o)
      ensures o.Valid() && o.View() == old(o.View()) && o.clients == old(o.clients)
      ensures o.Touchable() == old(o.Touchable())
      ensures Servers(network) == old(Servers(network)) && Traces(network) == old(Traces(network))
    {
      hide OriginMemory.View, OriginMemory.Valid, Key, Ready, Enabled, Rank, Dedup;
      ApartFrom(o);
      ConfigApart(o);
      actions := SetupActions(cfg.features);
      EnabledOnly(cfg.features, actions);
      order := instances.UniqueReplicas();
      NothingWritten(o);
    }

    // A run once the origin has been read: every replica, each once, is synchronized.
    method SyncReplicas(o: OriginMemory) returns (ghost order: seq<Endpoint>, ghost visits: seq<SyncRun>)
      requires Distinguished(network) && AllServe(cfg.features, Servers(network))
      requires o.Valid() && forall act | Enabled(cfg.features, act) :: Ready(act, o)
      modifies this`actions, this`reports, instances, network.Values, o.clients, o.Touchable()
      ensures var insts := AllConfigured(old(instances.replica), instances.replicas);
              Lists(order, Dedup(insts, |insts|))
      ensures RoundSoFar(cfg, old(o.View()), order, |order|, visits, old(Servers(network)), old(Traces(network)),
                         Servers(network), Traces(network))
      ensures reports == old(reports) + ReportsOf(visits, |visits|)
    {
      hide OriginMemory.View, OriginMemory.Valid, OriginMemory.Touchable, Key, Filed, RoundSoFar, Distinguished,
           AllServe, Servers, Traces, Ready, Enabled, Dedup, ActionList;
      ghost var org, servers, traces := o.View(), Servers(network), Traces(network);
      var replicas := Prepare(o);
      order := replicas;
      visits := SyncAll(o, replicas);
    }

    lemma ConfigApart(o: OriginMemory)
      ensures instances !in o.Touchable() + o.Fixed()
      ensures forall k | k in network :: network[k] != instances as object
      ensures forall x: object | x in o.clients :: x != instances
    {}

    // The reads of the origin show in its trace, under its own key if it is also a replica.
    method ReadFirst(oc: ApiClient) returns (go: bool, o: OriginMemory, ghost events: seq<Event>)
      requires Filed(oc.server) && Reports(cfg.features, oc.server)
      modifies oc
      ensures oc.server == old(oc.server) && oc.trace == old(oc.trace) + events
      ensures Visited(cfg, oc.server.version, events, go)
      ensures fresh(o) && (go ==> o.Valid() && fresh(o.clients) && fresh(o.Touchable()) && fresh(o.Fixed()))
      ensures go ==> |events| > 1 && IsReading(cfg.features, oc.server, events[1].Ok(), o.View())
      ensures go ==> forall act | Enabled(cfg.features, act) :: Ready(act, o)
      ensures Servers(network) == old(Servers(network))
      ensures Traces(network) == TracesWith(network, oc, old(Traces(network)), events)
    {
      hide OriginMemory.View, OriginMemory.Valid, Filed, Reports, Visited, IsReading, Ready, Enabled;
      go, o, events := ReadOrigin(oc, cfg);
    }

    // The reads of the origin, and if they suffice the replicas.
    method RunOnce(oc: ApiClient) returns (ghost rec: Record)
      requires Wired() && oc == originClient
      modifies this`actions, this`reports, instances, network.Values, oc
      ensures oc !in network.Values ==> oc.server == old(oc.server) && oc.trace == old(oc.trace) + rec.originReads
      ensures Recorded(cfg, rec, old(oc.server), AllConfigured(old(instances.replica), instances.replicas),
                       old(Servers(network)), TracesWith(network, oc, old(Traces(network)), rec.originReads),
          old(reports), Servers(network), Traces(network), reports)
    {
      hide OriginMemory.View, OriginMemory.Valid, Key, Filed, Reports, RoundSoFar, Distinguished, AllServe, Visited,
           IsReading, Ready, Enabled, Dedup, Lists, Servers, Traces, TracesWith;
      var go, o;
      ghost var events;
      go, o, events := ReadFirst(oc);
      rec := Record(events, go, Unread(), [], []);
      if go {
        ghost var org := o.View();
        ghost var order, visits;
        order, visits := SyncReplicas(o);
        rec := Record(events, true, org, order, visits);
      }
    }

    // A run. If the origin is also a replica, it is visited after its own reads, as the
    // instance it was then.
    method Sync() returns (ghost rec: Record)
      requires Wired()
      modifies this, instances, network.Values, originClient
      ensures running == old(running)
      ensures old(running) || originClient == null ==>
                && reports == old(reports)
                && Servers(network) == old(Servers(network)) && Traces(network) == old(Traces(network))
                && (originClient != null ==> originClient.trace == old(originClient.trace))
      ensures !old(running) && originClient != null ==>
                Recorded(cfg, rec, old(originClient.server), AllConfigured(old(instances.replica), instances.replicas),
                         old(Servers(network)),
                    TracesWith(network, originClient, old(Traces(network)), rec.originReads), old(reports),
                    Servers(network), Traces(network), reports)
      ensures !old(running) && originClient != null && originClient !in network.Values ==>
                && originClient.server == old(originClient.server)
                && originClient.trace == old(originClient.trace) + rec.originReads
    {
      hide Recorded, AllServe, Reports, Filed, Servers, Traces, Distinguished, AllConfigured, TracesWith;
      rec := Record([], false, Unread(), [], []);
      if running { return; }
      running := true;
      assert Servers(network) == old(Servers(network)) && Traces(network) == old(Traces(network));
      if originClient == null {
        running := false;
        return;
      }
      rec := RunOnce(originClient);
      ghost var servers, traces := Servers(network), Traces(network);
      running := false;
      assert Servers(network) == servers && Traces(network) == traces;
    }
  }

  // The traces once these calls have been made through a client.
  ghost function TracesWith(network: map<string, ApiClient>, client: ApiClient, traces: map<string, seq<Event>>,
                            events: seq<Event>): map<string, seq<Event>>
  {
    map k | k in network && k in traces :: if network[k] == client then traces[k] + events else traces[k]
  }

  // Everything there is to say about a run: no replica is contacted unless the reads of
  // the origin sufficed; then the replicas are those configured, each once, and every
  // visit and its report follow in that order.
  ghost predicate Recorded(cfg: Syncing.Config, rec: Record, origin: Instance, insts: seq<Endpoint>,
                           servers0: map<string, Instance>, traces0: map<string, seq<Event>>, reports0: seq<Report>,
      servers: map<string, Instance>, traces: map<string, seq<Event>>, reports: seq<Report>)
  {
    && Visited(cfg, origin.version, rec.originReads, rec.go)
    && if !rec.go then reports == reports0 && servers == servers0 && traces == traces0
       else
         && |rec.originReads| > 1 && IsReading(cfg.features, origin, rec.originReads[1].Ok(), rec.origin)
         && Lists(rec.order, Dedup(insts, |insts|))
         && RoundSoFar(cfg, rec.origin, rec.order, |rec.order|, rec.visits, servers0, traces0, servers, traces)
         && reports == reports0 + ReportsOf(rec.visits, |rec.visits|)
  }

  ghost function Unread(): Origin { Origin("", NO_SETTINGS, [], [], [], [], None) }

  lemma DnsIfEnabled(f: Features, acts: seq<Action>)
    requires ActionList(f, acts)
    ensures DnsAction in acts <==> f.dnsServerConfig
  {
    assert Enabled(f, DnsAction) == f.dnsServerConfig;
  }

  lemma EnabledOnly(f: Features, acts: seq<Action>)
    requires ActionList(f, acts)
    ensures forall i | 0 <= i < |acts| :: Enabled(f, acts[i])
  {
    forall i | 0 <= i < |acts| ensures Enabled(f, acts[i]) { assert acts[i] in acts; }
  }

  lemma SameInstances(servers0: map<string, Instance>, order: seq<Endpoint>, n: nat, cfg: Syncing.Config, o: Origin,
                      visits: seq<SyncRun>, traces0: map<string, seq<Event>>, servers: map<string, Instance>,
      traces: map<string, seq<Event>>)
    requires RoundSoFar(cfg, o, order, n, visits, servers0, traces0, servers, traces)
    ensures servers0.Keys == servers.Keys
  {}
}
