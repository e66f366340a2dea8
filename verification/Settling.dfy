// Several runs against one replica: what two successes settle, and that a replica where
// everything is settled is left alone by every later run, whatever fails in it.

module Settling {
  import opened Values
  import opened Server
  import opened Merging
  import opened Plans
  import opened NeverStale
  import opened Evolution
  import opened Convergence
  import opened Ownership
  import opened Agreement
  import opened Syncing
  import opened Success
  import opened ReplicaOrder
  import opened Origins
  import Idempotence
  import Guarantees

  // The actions that may still write after a success: services are compared in order but
  // written sorted, DHCP configurations are compared with their leases, and filters are
  // settled only by a second success.
  predicate Restless(act: Action, twice: bool)
  {
    act.ServicesAction? || act.DhcpConfigAction? || (act.FiltersAction? && !twice)
  }

  ghost predicate Settled(act: Action, ctx: Context, o: Origin, s: Instance)
  {
    if act.FiltersAction? then FiltersAgree(o, s) else Agrees(act, ctx, o, s, s)
  }

  // ---- One action ----

  lemma SettledRunIsQuiet(ctx: Context, run: ActionRun)
    requires ValidRun(ctx, run) && CleanFor(run.act, run.o0) && Settled(run.act, ctx, run.o0, run.s0)
    requires !Restless(run.act, true)
    requires (run.act.ProtectionAction? ==> ctx.replicaProtection == run.s0.settings.protection)
    ensures run.s1 == run.s0 && forall j | 0 <= j < |run.events| :: !IsWrite(run.events[j].call)
  {
    hide Agrees, CleanFor, FiltersAgree;
    if run.act.FiltersAction? {
      FiltersStayQuiet(ctx, run);
    } else {
      if !ReadFailed(run) {
        Idempotence.AgreementMeansEmptyPlan(run.act, ctx, run.o0, run.s0, run.s0, run.plan);
      }
      Idempotence.NothingPlanned(ctx, run);
    }
  }

  // What was there before matters to filters only.
  lemma AgreesWhatever(act: Action, ctx: Context, o: Origin, was: Instance, was': Instance, s: Instance)
    requires Agrees(act, ctx, o, was, s) && !act.FiltersAction?
    ensures Agrees(act, ctx, o, was', s)
  {
    hide KeyBag, KeyOnce, DnsEq, SafeSearchEq, AccessEq, ServicesLike, ListAgrees, DhcpAgrees;
  }

  lemma SettledFrame(act: Action, ctx: Context, o: Origin, s: Instance, s': Instance)
    requires Settled(act, ctx, o, s) && OwnedSame(act, s, s') && OwnedSame(ProtectionAction, s, s')
    ensures Settled(act, ctx, o, s')
  {
    if act.FiltersAction? {
      forall slot: Slot | WorksOn(act, slot.list) ensures Differs(o, s.lists, slot) == Differs(o, s'.lists, slot) {
        assert SameAt(s.lists, s'.lists, slot);
      }
      hide Differs, Render;
    } else {
      hide Agrees;
      AgreementFrame(act, ctx, o, s, s, s');
      AgreesWhatever(act, ctx, o, s, s', s');
    }
  }

  lemma SettledAsRead(act: Action, ctx: Context, o: Origin, o': Origin, s: Instance)
    requires AsRead(act, o, o') && Settled(act, ctx, o', s)
    ensures Settled(act, ctx, o, s)
  {
    if act.FiltersAction? {
      assert o.filters == o'.filters && o.allowFilters == o'.allowFilters;
      forall slot: Slot | WorksOn(act, slot.list) ensures Differs(o, s.lists, slot) == Differs(o', s.lists, slot) {
        assert Wanted(o, slot.list) == Wanted(o', slot.list);
      }
      hide Differs, Render;
    } else {
      hide Agrees, AsRead;
      AgreesAsRead(act, ctx, o, o', s, s);
    }
  }

  // ---- A visit that starts from a settled replica ----

  // What a reading and a replica must be like for an action of the next visit to be quiet.
  ghost predicate AtRest(f: Features, act: Action, ctx: Context, o: Origin, o0: Origin, s: Instance)
  {
    Suffices(f, act, o) && CleanFor(act, o) && AsRead(act, o, o0) && Settled(act, ctx, o, s)
  }

  ghost predicate AllAtRest(f: Features, twice: bool, ctx: Context, o: Origin, o0: Origin, s: Instance)
  {
    forall act | Enabled(f, act) && !Restless(act, twice) :: AtRest(f, act, ctx, o, o0, s)
  }

  predicate OwnedByRestless(call: Call, twice: bool)
  {
    exists act :: Restless(act, twice) && Owns(act, call)
  }

  ghost predicate RestlessOnly(events: seq<Event>, twice: bool)
  {
    forall j | 0 <= j < |events| && IsWrite(events[j].call) :: OwnedByRestless(events[j].call, twice)
  }

  ghost predicate OthersSame(twice: bool, a: Instance, b: Instance)
  {
    forall act | !Restless(act, twice) :: OwnedSame(act, a, b)
  }

  lemma CleanWhenRead(act: Action, o: Origin, o': Origin)
    requires CleanFor(act, o) && AsRead(act, o, o')
    ensures CleanFor(act, o') && AsRead(act, o', o)
  {
    if act.ClientsAction? { OriginLikeSymmetric(o, o'); }
    LooselySymmetric(o, o');
    hide Loosely, OriginLike;
  }

  lemma RestingRunIsQuiet(f: Features, ctx: Context, o: Origin, o0: Origin, s0: Instance, run: ActionRun)
    requires ValidRun(ctx, run) && !Restless(run.act, true) && AtRest(f, run.act, ctx, o, o0, s0)
    requires AsRead(run.act, o, run.o0) && ctx.replicaProtection == s0.settings.protection
    requires OwnedSame(run.act, s0, run.s0) && OwnedSame(ProtectionAction, s0, run.s0)
    ensures run.s1 == run.s0 && forall j | 0 <= j < |run.events| :: !IsWrite(run.events[j].call)
  {
    assert run.s0.settings.protection == s0.settings.protection;
    hide AsRead, CleanFor, Settled, Suffices, OwnedSame, ValidRun;
    CleanWhenRead(run.act, o, run.o0);
    SettledFrame(run.act, ctx, o, s0, run.s0);
    SettledAsRead(run.act, ctx, run.o0, o, run.s0);
    SettledRunIsQuiet(ctx, run);
  }

  lemma RestlessRun(ctx: Context, run: ActionRun, twice: bool)
    requires ValidRun(ctx, run) && Restless(run.act, twice)
    ensures RestlessOnly(run.events, twice) && OthersSame(twice, run.s0, run.s1)
  {
    RunOwnsItsCalls(ctx, run);
    hide ValidRun, Owns, OwnedSame;
    forall act | !Restless(act, twice) ensures OwnedSame(act, run.s0, run.s1) {
      OnlyTheOwnerChanges(ctx, run, act);
    }
  }

  lemma SameIsSame(twice: bool, s: Instance)
    ensures OthersSame(twice, s, s)
  {
    hide OwnedSame;
    forall act ensures OwnedSame(act, s, s) { OwnedSameReflexive(act, s); }
  }

  lemma OthersSameThen(twice: bool, a: Instance, b: Instance, c: Instance)
    requires OthersSame(twice, a, b) && OthersSame(twice, b, c)
    ensures OthersSame(twice, a, c)
  {
    hide OwnedSame;
    forall act | !Restless(act, twice) ensures OwnedSame(act, a, c) { OwnedSameTransitive(act, a, b, c); }
  }

  lemma {:induction false} QuietSoFar(f: Features, twice: bool, ctx: Context, o: Origin, o0: Origin, s0: Instance,
                                      runs: seq<ActionRun>, n: nat)
    requires Chained(ctx, o0, s0, runs) && n <= |runs| && ctx.replicaProtection == s0.settings.protection
    requires forall i | 0 <= i < |runs| :: Enabled(f, runs[i].act)
    requires AllAtRest(f, twice, ctx, o, o0, s0)
    ensures forall i | 0 <= i < n :: RestlessOnly(runs[i].events, twice)
    ensures OthersSame(twice, s0, StateBefore(s0, runs, n))
  {
    hide Chained, OthersSame, RestlessOnly, AtRest, Restless, ValidRun, Enabled, Replay;
    if n == 0 {
      SameIsSame(twice, s0);
    } else {
      QuietSoFar(f, twice, ctx, o, o0, s0, runs, n - 1);
      ChainLink(ctx, o0, s0, runs, n - 1);
      var run := runs[n - 1];
      if Restless(run.act, twice) {
        RestlessRun(ctx, run, twice);
      } else {
        QuietStep(f, twice, ctx, o, o0, s0, runs, n - 1);
        SameIsSame(twice, run.s0);
      }
      OthersSameThen(twice, s0, run.s0, run.s1);
    }
  }

  lemma QuietStep(f: Features, twice: bool, ctx: Context, o: Origin, o0: Origin, s0: Instance, runs: seq<ActionRun>,
                  n: nat)
    requires Chained(ctx, o0, s0, runs) && n < |runs| && ctx.replicaProtection == s0.settings.protection
    requires !Restless(runs[n].act, twice) && AtRest(f, runs[n].act, ctx, o, o0, s0)
    requires OthersSame(twice, s0, StateBefore(s0, runs, n))
    ensures runs[n].s1 == runs[n].s0 && RestlessOnly(runs[n].events, twice)
  {
    hide Chained, AsRead, CleanFor, Settled, Suffices, OwnedSame, NonLossy;
    ChainLink(ctx, o0, s0, runs, n);
    MemoryWhenResting(f, runs[n].act, ctx, o, o0, s0, runs, n);
    hide ValidRun, AtRest;
    RestingRunIsQuiet(f, ctx, o, o0, s0, runs[n]);
  }

  lemma MemoryWhenResting(f: Features, act: Action, ctx: Context, o: Origin, o0: Origin, s0: Instance,
                          runs: seq<ActionRun>, n: nat)
    requires Chained(ctx, o0, s0, runs) && n <= |runs| && AtRest(f, act, ctx, o, o0, s0)
    ensures AsRead(act, o, OriginBefore(o0, runs, n))
  {
    hide Chained, AsRead, CleanFor, Settled, NonLossy;
    StaysAsRead(ctx, act, o, o0, s0, runs, n);
  }

  // Whatever fails in it, a visit to a settled replica makes no write but of the actions
  // that may never rest, and leaves the parts of all others as they are.
  lemma SettledVisitIsQuiet(cfg: Config, twice: bool, o: Origin, run: SyncRun)
    requires ValidSync(cfg, run) && AllAtRest(cfg.features, twice, ContextFor(cfg, run.inst, run.s0), o, run.o0, run.s0)
    ensures QuietTrace(run, twice) && OthersSame(twice, run.s0, run.s1)
  {
    hide AllAtRest, RestlessOnly, OthersSame, Chained, ActionList, Greeting, QuietTrace;
    RunsAreEnabled(cfg, run);
    if run.runs == [] {
      SameIsSame(twice, run.s0);
    } else {
      QuietSoFar(cfg.features, twice, ContextFor(cfg, run.inst, run.s0), o, run.o0, run.s0, run.runs, |run.runs|);
    }
    TraceIsQuiet(run, twice);
  }

  // The writes of a whole visit: a setup in the greeting where that is allowed, and calls
  // of the actions that may still write.
  ghost predicate QuietTrace(run: SyncRun, twice: bool)
  {
    forall k | 0 <= k < |Trace(run)| && IsWrite(Trace(run)[k].call) ::
      OwnedByRestless(Trace(run)[k].call, twice) || (k < |run.hello| && Trace(run)[k].call.Setup? && run.inst.autoSetup)
  }

  lemma TraceIsQuiet(run: SyncRun, twice: bool)
    requires Greeting(run.inst.autoSetup, run.hello, run.connected)
    requires forall i | 0 <= i < |run.runs| :: RestlessOnly(run.runs[i].events, twice)
    ensures QuietTrace(run, twice)
  {
    EventsAreQuiet(run.runs, |run.runs|, twice);
    HelloWrites(run);
    hide EventsUpTo, OwnedByRestless, IsWrite, Greeting;
    var events := EventsUpTo(run.runs, |run.runs|);
    forall k | |run.hello| <= k < |Trace(run)| && IsWrite(Trace(run)[k].call)
      ensures OwnedByRestless(Trace(run)[k].call, twice)
    {
      assert Trace(run)[k] == events[k - |run.hello|];
    }
  }

  lemma HelloWrites(run: SyncRun)
    requires Greeting(run.inst.autoSetup, run.hello, run.connected)
    ensures forall k | 0 <= k < |run.hello| && IsWrite(run.hello[k].call) ::
              run.hello[k].call.Setup? && run.inst.autoSetup
  {}

  lemma {:induction false} EventsAreQuiet(runs: seq<ActionRun>, n: nat, twice: bool)
    requires n <= |runs| && forall i | 0 <= i < |runs| :: RestlessOnly(runs[i].events, twice)
    ensures RestlessOnly(EventsUpTo(runs, n), twice)
  {
    hide OwnedByRestless, IsWrite;
    if n > 0 { EventsAreQuiet(runs, n - 1, twice); }
  }

  // ---- Two readings of the same server ----

  // The same contents, with lists in any order.
  ghost predicate SameContents(a: Origin, b: Origin)
  {
    a.settings == b.settings && SameEntries(a, b)
  }

  lemma SameWants(a: Origin, b: Origin)
    requires SameContents(a, b)
    ensures forall lists: map<Slot, Item>, slot: Slot :: Differs(a, lists, slot) == Differs(b, lists, slot)
    ensures forall lists: map<Slot, Item>, slot: Slot :: NearlyAgrees(a, lists, slot) == NearlyAgrees(b, lists, slot)
  {
    forall slot: Slot ensures Wanted(a, slot.list) == Wanted(b, slot.list) {}
  }

  lemma AgreesWithSame(act: Action, ctx: Context, a: Origin, b: Origin, was: Instance, s: Instance)
    requires SameContents(a, b) && Agrees(act, ctx, a, was, s)
    ensures Agrees(act, ctx, b, was, s)
  {
    SameWants(a, b);
    hide Differs, NearlyAgrees, Render, KeyBag, KeyOnce, DnsEq, SafeSearchEq, AccessEq, ServicesLike, Wanted;
  }

  lemma AgreesForNext(act: Action, ctx: Context, ctx': Context, o: Origin, was: Instance, s: Instance)
    requires Agrees(act, ctx, o, was, s) && ctx' == ctx.(replicaProtection := ctx'.replicaProtection)
    requires !act.FiltersAction?
    ensures Settled(act, ctx', o, s)
  {
    hide Agrees;
    Idempotence.SameAgreement(act, ctx, ctx', o, was, s);
    AgreesWhatever(act, ctx', o, was, s, s);
  }

  // ---- Successes ----

  // A success without a hidden failure against a reading o, for one action.
  ghost predicate Succeeded(cfg: Config, act: Action, o: Origin, run: SyncRun)
  {
    && ValidSync(cfg, run) && run.ok && (cfg.continueOnError ==> NothingHidden(run.runs, act))
    && Suffices(cfg.features, act, o) && AsRead(act, o, run.o0)
  }

  // One success settles every action that can rest, but filters.
  lemma SuccessSettles(cfg: Config, o: Origin, next: Origin, run: SyncRun, act: Action, protection: bool)
    requires Enabled(cfg.features, act) && Succeeded(cfg, act, o, run) && SameContents(o, next) && !act.FiltersAction?
    ensures Settled(act, ContextFor(cfg, run.inst, run.s0).(replicaProtection := protection), next, run.s1)
  {
    hide ValidSync, NothingHidden, Suffices, AsRead, Agrees, Enabled, SameContents, Settled;
    var ctx := ContextFor(cfg, run.inst, run.s0);
    SuccessMeansAgreement(cfg, o, run, act);
    AgreesWithSame(act, ctx, o, next, run.s0, run.s1);
    AgreesForNext(act, ctx, ctx.(replicaProtection := protection), next, run.s0, run.s1);
  }

  lemma SettlesTwice(o: Origin, was: Instance, mid: Instance, s: Instance)
    requires FiltersSettled(o, was, mid) && FiltersSettled(o, mid, s)
    ensures FiltersAgree(o, s)
  {
    forall slot: Slot | slot.list == BlockLists || slot.list == AllowLists ensures !Differs(o, s.lists, slot) {
      assert SlotSettled(o, was.lists, mid.lists, slot) && SlotSettled(o, mid.lists, s.lists, slot);
    }
    hide Differs, Render;
  }

  // Two successes in a row bring everything about the filters into agreement, though
  // other actions lie between the two rounds and the readings may list the filters
  // in another order.
  lemma TwoSuccessesSettleFilters(cfg: Config, o: Origin, o': Origin, first: SyncRun, second: SyncRun)
    requires cfg.features.filters && Succeeded(cfg, FiltersAction, o, first)
    requires Succeeded(cfg, FiltersAction, o', second)
    requires SameContents(o, o') && second.s0 == first.s1
    ensures FiltersAgree(o', second.s1)
  {
    hide ValidSync, NothingHidden, Suffices, AsRead, SameContents, FiltersSettled;
    assert Enabled(cfg.features, FiltersAction);
    var ctx := ContextFor(cfg, first.inst, first.s0);
    SuccessMeansAgreement(cfg, o, first, FiltersAction);
    AgreesWithSame(FiltersAction, ctx, o, o', first.s0, first.s1);
    SuccessMeansAgreement(cfg, o', second, FiltersAction);
    SettlesTwice(o', first.s0, first.s1, second.s1);
  }

  // ---- Later visits ----

  ghost predicate SucceededInAll(cfg: Config, o: Origin, run: SyncRun)
  {
    forall act | Enabled(cfg.features, act) :: Succeeded(cfg, act, o, run)
  }

  ghost predicate Usable(cfg: Config, o: Origin, run: SyncRun)
  {
    && ValidSync(cfg, run)
    && forall act | Enabled(cfg.features, act) ::
         Suffices(cfg.features, act, o) && CleanFor(act, o) && AsRead(act, o, run.o0)
  }

  // After one success the next visit, however it fares, writes nothing but filters,
  // services and the DHCP configuration.
  lemma SecondVisitIsQuiet(cfg: Config, o: Origin, o': Origin, run: SyncRun, next: SyncRun)
    requires SucceededInAll(cfg, o, run) && Usable(cfg, o', next) && SameContents(o, o')
    requires next.s0 == run.s1 && next.inst == run.inst
    ensures QuietTrace(next, false) && OthersSame(false, next.s0, next.s1)
  {
    var ctx := ContextFor(cfg, next.inst, next.s0);
    hide Succeeded, ValidSync, Suffices, CleanFor, AsRead, SameContents, Settled, QuietTrace, OthersSame, Enabled;
    forall act | Enabled(cfg.features, act) && !Restless(act, false)
      ensures AtRest(cfg.features, act, ctx, o', next.o0, next.s0)
    {
      SuccessSettles(cfg, o, o', run, act, next.s0.settings.protection);
    }
    SettledVisitIsQuiet(cfg, false, o', next);
  }

  // After two successes every later visit, however it fares, writes nothing but services
  // and the DHCP configuration: no entry of any list, no rewrite, no filter refresh.
  lemma ThirdVisitIsQuiet(cfg: Config, o: Origin, o': Origin, o'': Origin, first: SyncRun, second: SyncRun,
                          next: SyncRun)
    requires SucceededInAll(cfg, o, first) && SucceededInAll(cfg, o', second) && Usable(cfg, o'', next)
    requires SameContents(o, o') && SameContents(o', o'')
    requires second.s0 == first.s1 && next.s0 == second.s1 && next.inst == second.inst
    ensures QuietTrace(next, true) && OthersSame(true, next.s0, next.s1)
  {
    var ctx := ContextFor(cfg, next.inst, next.s0);
    hide Succeeded, ValidSync, Suffices, CleanFor, AsRead, SameContents, Settled, QuietTrace, OthersSame, Agrees;
    forall act | Enabled(cfg.features, act) && !Restless(act, true)
      ensures AtRest(cfg.features, act, ctx, o'', next.o0, next.s0)
    {
      if act.FiltersAction? {
        TwoSuccessesSettleFilters(cfg, o, o', first, second);
        FiltersAgreeWithSame(ctx, o', o'', next.s0);
      } else {
        SuccessSettles(cfg, o', o'', second, act, next.s0.settings.protection);
      }
    }
    hide Enabled, Restless;
    SettledVisitIsQuiet(cfg, true, o'', next);
  }

  lemma FiltersAgreeWithSame(ctx: Context, o: Origin, o': Origin, s: Instance)
    requires SameContents(o, o') && FiltersAgree(o, s)
    ensures Settled(FiltersAction, ctx, o', s)
  {
    SameWants(o, o');
    hide Differs, Wanted, Render;
  }

  // ---- From readings of one server ----

  lemma ReadingsAreAlike(f: Features, s: Instance, profileRead: bool, o: Origin, o': Origin)
    requires IsReading(f, s, profileRead, o) && IsReading(f, s, profileRead, o') && Filed(s)
    ensures SameContents(o, o')
  {
    hide IsReading, Filed, Wanted;
    Guarantees.ReadingsHaveSameEntries(f, s, s, profileRead, profileRead, o, o');
    SameReadingSettings(f, s, profileRead, o, o');
  }

  lemma SameReadingSettings(f: Features, s: Instance, profileRead: bool, o: Origin, o': Origin)
    requires IsReading(f, s, profileRead, o) && IsReading(f, s, profileRead, o')
    ensures o.settings == o'.settings
  {}

  lemma ReadingIsUsable(cfg: Config, s: Instance, profileRead: bool, o: Origin, visits: seq<SyncRun>, i: nat)
    requires IsReading(cfg.features, s, profileRead, o) && Filed(s) && Unspoilable(cfg.features, o)
    requires OneAfterAnother(cfg, o, visits) && i < |visits|
    ensures Usable(cfg, o, visits[i])
  {
    hide IsReading, Filed, Suffices, AsRead, ValidSync, NonLossy, Loosely, OriginLike;
    forall act | Enabled(cfg.features, act)
      ensures Suffices(cfg.features, act, o) && CleanFor(act, o) && AsRead(act, o, visits[i].o0)
    {
      Guarantees.ReadingSuffices(cfg.features, s, profileRead, o, act);
      Guarantees.LikeItself(o);
      assert AsRead(act, o, o) by { AsReadItself(act, o); }
      Guarantees.AsReadForReplica(cfg, act, o, visits, i);
    }
  }

  lemma AsReadItself(act: Action, o: Origin)
    requires Loosely(o, o) && OriginLike(o, o)
    ensures AsRead(act, o, o)
  {}

  // The i-th replica of a run was synchronized without an error and without a hidden failure.
  ghost predicate CleanSuccess(cfg: Config, visits: seq<SyncRun>, i: nat)
    requires i < |visits|
  {
    visits[i].ok && (cfg.continueOnError ==> forall act :: NothingHidden(visits[i].runs, act))
  }

  lemma UsableSucceeds(cfg: Config, o: Origin, visits: seq<SyncRun>, i: nat)
    requires i < |visits| && Usable(cfg, o, visits[i]) && CleanSuccess(cfg, visits, i)
    ensures SucceededInAll(cfg, o, visits[i])
  {
    hide ValidSync, Suffices, CleanFor, AsRead, NothingHidden, Enabled;
  }

  // Three runs read the same server. If the first two succeed on a replica, the third,
  // whatever fails in it, makes no write there but of services and of the DHCP
  // configuration.
  lemma ThirdRunIsQuiet(cfg: Config, s: Instance, profileRead: bool, o: Origin, o': Origin, o'': Origin,
                        first: seq<SyncRun>, second: seq<SyncRun>, third: seq<SyncRun>, i: nat, j: nat, k: nat)
    requires IsReading(cfg.features, s, profileRead, o) && OneAfterAnother(cfg, o, first) && i < |first|
    requires IsReading(cfg.features, s, profileRead, o') && OneAfterAnother(cfg, o', second) && j < |second|
    requires IsReading(cfg.features, s, profileRead, o'') && OneAfterAnother(cfg, o'', third) && k < |third|
    requires Filed(s) && Unspoilable(cfg.features, o) && CleanSuccess(cfg, first, i) && CleanSuccess(cfg, second, j)
    requires second[j].s0 == first[i].s1 && third[k].s0 == second[j].s1 && third[k].inst == second[j].inst
    ensures QuietTrace(third[k], true) && OthersSame(true, third[k].s0, third[k].s1)
  {
    hide IsReading, OneAfterAnother, Filed, SameEntries, Usable, CleanSuccess, SucceededInAll, QuietTrace, OthersSame;
    ReadingsAreAlike(cfg.features, s, profileRead, o, o');
    ReadingsAreAlike(cfg.features, s, profileRead, o', o'');
    Guarantees.UnspoilableToo(cfg.features, o, o');
    Guarantees.UnspoilableToo(cfg.features, o', o'');
    hide Unspoilable;
    ReadingIsUsable(cfg, s, profileRead, o, first, i);
    ReadingIsUsable(cfg, s, profileRead, o', second, j);
    ReadingIsUsable(cfg, s, profileRead, o'', third, k);
    UsableSucceeds(cfg, o, first, i);
    UsableSucceeds(cfg, o', second, j);
    ThirdVisitIsQuiet(cfg, o, o', o'', first[i], second[j], third[k]);
  }
}
