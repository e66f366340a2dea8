// Exactly when the order of the replicas of a run does not matter.

module OrderExact {
  import opened Sorting
  import opened Values
  import opened Server
  import opened Merging
  import opened Plans
  import opened Evolution
  import opened Convergence
  import opened Ownership
  import opened Syncing
  import opened Success
  import opened ReplicaOrder
  import opened Existence
  import opened Memory

  // Any two runs from the same origin, in whatever order they visit whatever replicas,
  // leave a replica that both synchronize without error the same up to list order.
  ghost predicate OrderIrrelevant(cfg: Config, o: Origin)
  {
    forall one: seq<SyncRun>, other: seq<SyncRun>, i: nat, j: nat, flags: Slot -> bool ::
      SamePlace(cfg, o, one, other, i, j, flags) ==> Alike(one[i].s1, other[j].s1)
  }

  ghost predicate SamePlace(cfg: Config, o: Origin, one: seq<SyncRun>, other: seq<SyncRun>, i: nat, j: nat,
                            flags: Slot -> bool)
  {
    && OneAfterAnother(cfg, o, one) && OneAfterAnother(cfg, o, other) && i < |one| && j < |other|
    && one[i].inst == other[j].inst && one[i].s0 == other[j].s0
    && ErrorFreeSync(one[i], flags) && ErrorFreeSync(other[j], flags)
  }

  // ---- The origin's clients, away from their action ----

  lemma OthersKeepClients(ctx: Context, run: ActionRun)
    requires ValidRun(ctx, run) && !run.act.ClientsAction?
    ensures run.o1.clients == run.o0.clients
  {
    hide IsPlan, Executes, Replay, Typed, Filed;
  }

  lemma {:induction false} ClientsKept(ctx: Context, o0: Origin, s0: Instance, runs: seq<ActionRun>, a: nat, b: nat)
    requires Chained(ctx, o0, s0, runs) && a <= b <= |runs|
    requires forall k | a <= k < b :: !runs[k].act.ClientsAction?
    ensures OriginBefore(o0, runs, b).clients == OriginBefore(o0, runs, a).clients
  {
    hide Chained;
    if a < b {
      ClientsKept(ctx, o0, s0, runs, a, b - 1);
      ChainLink(ctx, o0, s0, runs, b - 1);
      hide ValidRun;
      OthersKeepClients(ctx, runs[b - 1]);
    }
  }

  lemma OneClientAction(runs: seq<ActionRun>, i: nat)
    requires Ordered(runs) && i < |runs| && runs[i].act.ClientsAction?
    ensures forall k | 0 <= k < |runs| && k != i :: !runs[k].act.ClientsAction?
  {
    forall k | 0 <= k < |runs| && k != i ensures !runs[k].act.ClientsAction? {
      assert k < i ==> Rank(runs[k].act) < Rank(runs[i].act);
      assert i < k ==> Rank(runs[i].act) < Rank(runs[k].act);
    }
  }

  // ---- One visit ----

  // Where the client action of a successful visit stands: the origin's clients and the
  // replica's are still as at first before it, and after it as at the end.
  lemma ClientVisit(cfg: Config, run: SyncRun) returns (i: nat)
    requires ValidSync(cfg, run) && run.ok && cfg.features.clientSettings
    ensures i < |run.runs| && run.runs[i].act.ClientsAction? && ValidRun(ContextFor(cfg, run.inst, run.s0), run.runs[i])
    ensures run.runs[i].o0.clients == run.o0.clients && run.runs[i].o1.clients == run.o1.clients
    ensures OwnedSame(ClientsAction, run.runs[i].s0, run.s0) && OwnedSame(ClientsAction, run.runs[i].s1, run.s1)
  {
    var ctx := ContextFor(cfg, run.inst, run.s0);
    hide ValidSync, ValidRun, Chained, OwnedSame, Ordered, ActionList, OriginBefore, StateBefore;
    i := ExecutedAt(cfg, run, ClientsAction);
    SuccessfulVisit(cfg, run);
    ClientChain(ctx, run.o0, run.s0, run.runs, i);
    OwnPartStays(ctx, run.o0, run.s0, run.runs, i, |run.runs|);
  }

  lemma ClientChain(ctx: Context, o0: Origin, s0: Instance, runs: seq<ActionRun>, i: nat)
    requires Chained(ctx, o0, s0, runs) && Ordered(runs) && i < |runs| && runs[i].act.ClientsAction?
    ensures runs[i].o0.clients == o0.clients && runs[i].o1.clients == OriginBefore(o0, runs, |runs|).clients
  {
    hide Chained, Ordered, ValidRun, Replay, StateBefore;
    OneClientAction(runs, i);
    ChainLink(ctx, o0, s0, runs, i);
    ClientsKept(ctx, o0, s0, runs, 0, i);
    ClientsKept(ctx, o0, s0, runs, i + 1, |runs|);
  }

  // A client the replica lacks arrives as the origin in memory had it.
  lemma ArrivesInVisit(cfg: Config, run: SyncRun, c: nat)
    requires ValidSync(cfg, run) && run.ok && cfg.features.clientSettings
    requires forall i | 0 <= i < |run.runs| :: AllOk(run.runs[i].events)
    requires IsLast(run.o0.clients, c) && Slot(Clients, run.o0.clients[c].Key()) !in run.s0.lists
    ensures var slot := Slot(Clients, run.o0.clients[c].Key());
            slot in run.s1.lists && run.s1.lists[slot] == run.o0.clients[c]
  {
    hide ValidSync, ValidRun, AllOk;
    var i := ClientVisit(cfg, run);
    var slot := Slot(Clients, run.o0.clients[c].Key());
    assert SameAt(run.runs[i].s0.lists, run.s0.lists, slot) && SameAt(run.runs[i].s1.lists, run.s1.lists, slot);
    MissingClientArrives(ContextFor(cfg, run.inst, run.s0), run.runs[i], c);
  }

  predicate IsLast(items: seq<Item>, c: nat)
  {
    c < |items| && forall j | c < j < |items| :: items[j].Key() != items[c].Key()
  }

  // A client with a day and a time zone is spoiled in memory by a replica that has it.
  lemma SpoiledInVisit(cfg: Config, run: SyncRun, c: nat)
    requires ValidSync(cfg, run) && run.ok && cfg.features.clientSettings
    requires forall i | 0 <= i < |run.runs| :: AllOk(run.runs[i].events)
    requires IsLast(run.o0.clients, c) && Lossy(run.o0.clients[c])
    requires Slot(Clients, run.o0.clients[c].Key()) in run.s0.lists
    ensures IsLast(run.o1.clients, c) && run.o1.clients[c].Key() == run.o0.clients[c].Key()
    ensures !Resorted(run.o0.clients[c], run.o1.clients[c])
  {
    var i := ClientVisit(cfg, run);
    var slot := Slot(Clients, run.o0.clients[c].Key());
    assert SameAt(run.runs[i].s0.lists, run.s0.lists, slot);
    hide ValidSync, Resorted;
    SpoiledInAction(ContextFor(cfg, run.inst, run.s0), run.runs[i], c);
  }

  lemma SpoiledInAction(ctx: Context, run: ActionRun, c: nat)
    requires ValidRun(ctx, run) && run.act.ClientsAction? && AllOk(run.events)
    requires IsLast(run.o0.clients, c) && Lossy(run.o0.clients[c])
    requires Slot(Clients, run.o0.clients[c].Key()) in run.s0.lists
    ensures IsLast(run.o1.clients, c) && run.o1.clients[c].Key() == run.o0.clients[c].Key()
    ensures !Resorted(run.o0.clients[c], run.o1.clients[c])
  {
    ErrorFree(ctx, run);
    assert run.o1 == OriginAfter(ClientsAction, run.o0, run.s0, true);
    hide ValidRun, OriginAfter, Resorted, AllOk, IsPlan, Executes, Replay;
    TypedRun(ctx, run);
    SpoiledOrigin(run.o0, run.s0, c);
  }

  lemma TypedRun(ctx: Context, run: ActionRun)
    requires ValidRun(ctx, run)
    ensures Typed(run.o0)
  {}

  // ---- Two orders that end differently ----

  lemma {:induction false} LastOf(items: seq<Item>, n: nat, key: string) returns (c: nat)
    requires n <= |items| && key in Index(items, n)
    ensures c < n && items[c] == Index(items, n)[key] && forall j | c < j < n :: items[j].Key() != key
  {
    if items[n - 1].Key() == key { c := n - 1; } else { c := LastOf(items, n - 1, key); }
  }

  lemma LossyClientShows(cfg: Config, o: Origin, v: string, c: nat)
    requires Typed(o) && !cfg.tooOld(v) && cfg.features.clientSettings
    requires IsLast(o.clients, c) && Lossy(o.clients[c])
    ensures !OrderIrrelevant(cfg, o)
  {
    hide Typed, Filed, ActionList, OrderIrrelevant, ValidSync, Lossy, Resorted, AllOk, NeverGiven, Alike;
    var acts := SomeActionList(cfg.features);
    var without, with := EmptyReplica(v), ReplicaWith(v, o.clients[c]);
    ReplicasAreFiled(o, v, c);
    var x, y := Nameless("x"), Nameless("y");
    var first := ErrorFreeSyncExists(cfg, x, acts, o, without);
    var spoiling := ErrorFreeSyncExists(cfg, y, acts, o, with);
    var second := ErrorFreeSyncExists(cfg, x, acts, spoiling.o1, without);
    SpoiledInVisit(cfg, spoiling, c);
    ArrivesInVisit(cfg, first, c);
    ArrivesInVisit(cfg, second, c);
    NotAlike(first.s1, second.s1, Slot(Clients, o.clients[c].Key()));
    InSamePlace(cfg, o, first, spoiling, second);
    DifferentEnds(cfg, o, [first], [spoiling, second], 0, 1, (slot: Slot) => false);
  }

  lemma DifferentEnds(cfg: Config, o: Origin, one: seq<SyncRun>, other: seq<SyncRun>, i: nat, j: nat,
                      flags: Slot -> bool)
    requires SamePlace(cfg, o, one, other, i, j, flags) && !Alike(one[i].s1, other[j].s1)
    ensures !OrderIrrelevant(cfg, o)
  {
    hide SamePlace, Alike;
  }

  lemma NotAlike(a: Instance, b: Instance, slot: Slot)
    requires slot in a.lists && slot in b.lists && !Resorted(a.lists[slot], b.lists[slot])
    ensures !Alike(a, b)
  {}

  lemma InSamePlace(cfg: Config, o: Origin, first: SyncRun, spoiling: SyncRun, second: SyncRun)
    requires ValidSync(cfg, first) && ValidSync(cfg, spoiling) && ValidSync(cfg, second)
    requires first.o0 == o && spoiling.o0 == o && second.o0 == spoiling.o1
    requires first.inst == second.inst && first.s0 == second.s0 && first.ok && second.ok
    requires forall i | 0 <= i < |first.runs| :: AllOk(first.runs[i].events) && NeverGiven(first.runs[i].events)
    requires forall i | 0 <= i < |second.runs| :: AllOk(second.runs[i].events) && NeverGiven(second.runs[i].events)
    ensures SamePlace(cfg, o, [first], [spoiling, second], 0, 1, (slot: Slot) => false)
  {
    hide ValidSync, AllOk;
  }

  function EmptyReplica(v: string): Instance
  {
    Instance(v, NO_SETTINGS, [], map[])
  }

  function ReplicaWith(v: string, c: Item): Instance
  {
    EmptyReplica(v).(lists := map[Slot(Clients, c.Key()) := c])
  }

  function Nameless(url: string): Endpoint
  {
    Endpoint(url, "", false, "", None, "")
  }

  lemma ReplicasAreFiled(o: Origin, v: string, c: nat)
    requires Typed(o) && c < |o.clients|
    ensures Filed(EmptyReplica(v)) && Filed(ReplicaWith(v, o.clients[c]))
  {
    assert AllBelong(Clients, o.List(Clients));
  }

  // The order of the replicas does not matter if and only if client settings are not
  // synchronized or no client of the origin has both a day and a time zone.
  lemma OrderExactly(cfg: Config, o: Origin, v: string)
    requires Typed(o) && !cfg.tooOld(v)
    ensures OrderIrrelevant(cfg, o) <==> Unspoilable(cfg.features, o)
  {
    if Unspoilable(cfg.features, o) {
      hide Unspoilable, SamePlace, Alike;
      forall one: seq<SyncRun>, other: seq<SyncRun>, i: nat, j: nat, flags: Slot -> bool
          | SamePlace(cfg, o, one, other, i, j, flags)
        ensures Alike(one[i].s1, other[j].s1)
      {
        AlikeInSamePlace(cfg, o, one, other, i, j, flags);
      }
    } else {
      var k :| k in Wanted(o, Clients) && Lossy(Wanted(o, Clients)[k]);
      var c := LastOf(o.clients, |o.clients|, k);
      hide OrderIrrelevant, Lossy;
      LossyClientShows(cfg, o, v, c);
    }
  }

  lemma AlikeInSamePlace(cfg: Config, o: Origin, one: seq<SyncRun>, other: seq<SyncRun>, i: nat, j: nat,
                         flags: Slot -> bool)
    requires SamePlace(cfg, o, one, other, i, j, flags) && Unspoilable(cfg.features, o)
    ensures Alike(one[i].s1, other[j].s1)
  {
    hide OneAfterAnother, ErrorFreeSync, Unspoilable, Alike;
    OrderDoesNotMatter(cfg, o, one, other, i, j, flags);
  }
}
