// A whole run as a value: which replicas it visited, in which order, and what that did.

module WholeRun {
  import opened Server
  import opened Plans
  import opened Syncing
  import opened ReplicaOrder
  import opened Replicas

  // What happened in a run: the origin's reads, whether they sufficed, the origin read,
  // the order in which the replicas came, and the visits.
  datatype Record = Record(
    originReads: seq<Event>, go: bool, origin: Origin, order: seq<Endpoint>, visits: seq<SyncRun>)

  datatype Report = Report(inst: Endpoint, ok: bool)

  // The instances among the first n for which a client can be created.
  function Creatable(known: set<string>, order: seq<Endpoint>, n: nat): seq<Endpoint>
    requires n <= |order|
  {
    if n == 0 then []
    else if Key(order[n - 1]) in known then Creatable(known, order, n - 1) + [order[n - 1]]
    else Creatable(known, order, n - 1)
  }

  // Each visit is a valid part of a run on its own replica, starting from the state the
  // replica had before the run.
  ghost predicate VisitsAre(visits: seq<SyncRun>, servers0: map<string, Instance>, traces0: map<string, seq<Event>>,
                            servers: map<string, Instance>, traces: map<string, seq<Event>>)
  {
    forall i | 0 <= i < |visits| ::
      var k := Key(visits[i].inst);
      && k in servers0 && k in traces0 && k in servers && k in traces
      && visits[i].s0 == servers0[k] && visits[i].s1 == servers[k] && traces[k] == traces0[k] + Trace(visits[i])
  }

  // The first n replicas of the order have been dealt with.
  ghost predicate RoundSoFar(cfg: Config, o: Origin, order: seq<Endpoint>, n: nat, visits: seq<SyncRun>,
                             servers0: map<string, Instance>, traces0: map<string, seq<Event>>, servers: map<string,
      Instance>, traces: map<string, seq<Event>>)
  {
    && n <= |order| && servers0.Keys == servers.Keys == traces0.Keys == traces.Keys
    && OneAfterAnother(cfg, o, visits)
    && |visits| == |Creatable(servers0.Keys, order, n)|
    && (forall i | 0 <= i < |visits| :: visits[i].inst == Creatable(servers0.Keys, order, n)[i])
    && VisitsAre(visits, servers0, traces0, servers, traces)
    && (forall k | k in servers0 && (forall i | 0 <= i < n :: Key(order[i]) != k) ::
          servers[k] == servers0[k] && traces[k] == traces0[k])
  }

  lemma NoneVisited(cfg: Config, o: Origin, order: seq<Endpoint>, servers: map<string, Instance>, traces: map<string,
                    seq<Event>>)
    requires servers.Keys == traces.Keys
    ensures RoundSoFar(cfg, o, order, 0, [], servers, traces, servers, traces)
  {}

  lemma {:induction false} CreatableAmong(known: set<string>, order: seq<Endpoint>, n: nat, inst: Endpoint)
    requires n <= |order|
    ensures inst in Creatable(known, order, n) ==> exists i :: 0 <= i < n && order[i] == inst
    ensures inst in Creatable(known, order, n) ==> Key(inst) in known
  {
    if n > 0 { CreatableAmong(known, order, n - 1, inst); }
  }

  // A replica without a client is passed over.
  lemma PassedOver(cfg: Config, o: Origin, order: seq<Endpoint>, n: nat, visits: seq<SyncRun>, servers0: map<string,
                   Instance>, traces0: map<string, seq<Event>>, servers: map<string, Instance>, traces: map<string,
      seq<Event>>)
    requires RoundSoFar(cfg, o, order, n, visits, servers0, traces0, servers, traces)
    requires n < |order| && Key(order[n]) !in servers0
    ensures RoundSoFar(cfg, o, order, n + 1, visits, servers0, traces0, servers, traces)
  {
    hide OneAfterAnother, Key, Trace;
  }

  lemma OneMoreVisit(cfg: Config, o: Origin, visits: seq<SyncRun>, run: SyncRun)
    requires OneAfterAnother(cfg, o, visits) && ValidSync(cfg, run) && run.o0 == OriginFor(o, visits, |visits|)
    ensures OneAfterAnother(cfg, o, visits + [run]) && OriginFor(o, visits + [run], |visits| + 1) == run.o1
  {
    hide ValidSync;
    var longer := visits + [run];
    forall i | 0 <= i < |longer| ensures ValidSync(cfg, longer[i]) && longer[i].o0 == OriginFor(o, longer, i) {
      if i < |visits| { assert longer[i] == visits[i] && OriginFor(o, longer, i) == OriginFor(o, visits, i); }
    }
  }

  lemma VisitsGrow(visits: seq<SyncRun>, servers0: map<string, Instance>, traces0: map<string, seq<Event>>,
                   servers: map<string, Instance>, traces: map<string, seq<Event>>, run: SyncRun)
    requires VisitsAre(visits, servers0, traces0, servers, traces)
    requires var k := Key(run.inst);
      && k in servers0 && k in traces0 && k in traces && run.s0 == servers0[k] && traces[k] == traces0[k]
      && forall i | 0 <= i < |visits| :: Key(visits[i].inst) != k
    ensures var k := Key(run.inst);
            VisitsAre(visits + [run], servers0, traces0, servers[k := run.s1], traces[k := traces[k] + Trace(run)])
  {
    hide Key, Trace;
    var longer := visits + [run];
    assert forall i | 0 <= i < |visits| :: longer[i] == visits[i];
  }

  // A replica with a client is visited; no earlier visit is to the same replica.
  lemma VisitedOne(cfg: Config, o: Origin, order: seq<Endpoint>, n: nat, visits: seq<SyncRun>, servers0: map<string,
                   Instance>, traces0: map<string, seq<Event>>, servers: map<string, Instance>, traces: map<string,
      seq<Event>>, run: SyncRun)
    requires RoundSoFar(cfg, o, order, n, visits, servers0, traces0, servers, traces)
    requires n < |order| && forall i, j | 0 <= i < j < |order| :: Key(order[i]) != Key(order[j])
    requires ValidSync(cfg, run) && run.inst == order[n] && run.o0 == OriginFor(o, visits, |visits|)
    requires var k := Key(order[n]); k in servers && run.s0 == servers[k]
    ensures var k := Key(order[n]);
            RoundSoFar(cfg, o, order, n + 1, visits + [run], servers0, traces0, servers[k := run.s1],
                       traces[k := traces[k] + Trace(run)])
  {
    hide OneAfterAnother, Key, Trace, ValidSync, OriginFor, VisitsAre;
    OneMoreVisit(cfg, o, visits, run);
    var k := Key(order[n]);
    var longer := visits + [run];
    forall i | 0 <= i < |visits| ensures Key(visits[i].inst) != k {
      CreatableAmong(servers0.Keys, order, n, visits[i].inst);
    }
    assert servers[k] == servers0[k] && traces[k] == traces0[k];
    VisitsGrow(visits, servers0, traces0, servers, traces, run);
    assert forall i | 0 <= i < |visits| :: longer[i] == visits[i];
  }

  // The results reported for the first n visits.
  function ReportsOf(visits: seq<SyncRun>, n: nat): seq<Report>
    requires n <= |visits|
  {
    if n == 0 then [] else ReportsOf(visits, n - 1) + [Report(visits[n - 1].inst, visits[n - 1].ok)]
  }

  lemma {:induction false} ReportsOfPrefix(visits: seq<SyncRun>, more: seq<SyncRun>, n: nat)
    requires n <= |visits|
    ensures ReportsOf(visits + more, n) == ReportsOf(visits, n)
  {
    if n > 0 { ReportsOfPrefix(visits, more, n - 1); }
  }
}
