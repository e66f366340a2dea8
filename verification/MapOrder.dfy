// The order in which maps are ranged over decides the order of calls, but nothing of what
// an error-free execution leaves behind.

module MapOrder {
  import opened Values
  import opened Server
  import opened Merging
  import opened Plans
  import opened Convergence

  // The calls of a plan, and the events, that touch a slot.
  function CallsOn(slot: Slot, plan: seq<Step>): seq<Call>
  {
    if plan == [] then []
    else
      var n := |plan| - 1;
      if Touches(plan[n].call, slot) then CallsOn(slot, plan[..n]) + [plan[n].call] else CallsOn(slot, plan[..n])
  }

  lemma {:induction false} CallsOnConcat(slot: Slot, p: seq<Step>, q: seq<Step>)
    ensures CallsOn(slot, p + q) == CallsOn(slot, p) + CallsOn(slot, q)
  {
    if q == [] {
      assert p + q == p;
    } else {
      var n := |q| - 1;
      CallsOnConcat(slot, p, q[..n]);
      assert (p + q)[..|p + q| - 1] == p + q[..n];
    }
  }

  lemma {:induction false} NoCallsOn(slot: Slot, plan: seq<Step>)
    requires forall i | 0 <= i < |plan| :: !Touches(plan[i].call, slot)
    ensures CallsOn(slot, plan) == []
  {
    if plan != [] { NoCallsOn(slot, plan[..|plan| - 1]); }
  }

  // Two executions that touch a slot with the same calls, from the same entry and with the
  // same flag for an added filter, leave the same entry.
  lemma {:induction false} SameTouchesSameEntry(flags: Slot -> bool, slot: Slot, s: Instance, p: seq<Step>,
                                                a: seq<Event>, s': Instance, q: seq<Step>, b: seq<Event>)
    requires Made(p, a) && Made(q, b) && GivenBy(flags, a) && GivenBy(flags, b)
    requires CallsOn(slot, p) == CallsOn(slot, q) && SameAt(s.lists, s'.lists, slot)
    ensures SameAt(Replay(s, a).lists, Replay(s', b).lists, slot)
    decreases |p| + |q|
  {
    hide Replay;
    if p != [] && !Touches(p[|p| - 1].call, slot) {
      LastKeeps(slot, s, a);
      SameTouchesSameEntry(flags, slot, s, p[..|p| - 1], a[..|a| - 1], s', q, b);
    } else if q != [] && !Touches(q[|q| - 1].call, slot) {
      LastKeeps(slot, s', b);
      SameTouchesSameEntry(flags, slot, s, p, a, s', q[..|q| - 1], b[..|b| - 1]);
    } else if p == [] || q == [] {
      assert |CallsOn(slot, p)| == |CallsOn(slot, q)|;
      NoneKeep(s, s', a, b);
    } else {
      SnocIsInjective(CallsOn(slot, p[..|p| - 1]), p[|p| - 1].call, CallsOn(slot, q[..|q| - 1]), q[|q| - 1].call);
      SameTouchesSameEntry(flags, slot, s, p[..|p| - 1], a[..|a| - 1], s', q[..|q| - 1], b[..|b| - 1]);
      LastChangesAlike(slot, s, a, s', b);
    }
  }

  lemma NoneKeep(s: Instance, s': Instance, a: seq<Event>, b: seq<Event>)
    requires a == [] && b == []
    ensures Replay(s, a) == s && Replay(s', b) == s'
  {}

  lemma LastKeeps(slot: Slot, s: Instance, events: seq<Event>)
    requires events != [] && !Touches(events[|events| - 1].call, slot)
    ensures SameAt(Replay(s, events).lists, Replay(s, events[..|events| - 1]).lists, slot)
  {}

  lemma LastChangesAlike(slot: Slot, s: Instance, a: seq<Event>, s': Instance, b: seq<Event>)
    requires a != [] && b != [] && Touches(a[|a| - 1].call, slot)
    requires a[|a| - 1].Ok() && b[|b| - 1].Ok() && a[|a| - 1].call == b[|b| - 1].call
    requires a[|a| - 1].given == b[|b| - 1].given
    requires SameAt(Replay(s, a[..|a| - 1]).lists, Replay(s', b[..|b| - 1]).lists, slot)
    ensures SameAt(Replay(s, a).lists, Replay(s', b).lists, slot)
  {}

  lemma SnocIsInjective<T>(a: seq<T>, x: T, b: seq<T>, y: T)
    requires a + [x] == b + [y]
    ensures a == b && x == y
  {
    assert a == (a + [x])[..|a + [x]| - 1] && b == (b + [y])[..|b + [y]| - 1];
    assert (a + [x])[|a|] == x && (b + [y])[|b|] == y;
  }

  // The events are the calls of the plan, all successful.
  ghost predicate Made(plan: seq<Step>, events: seq<Event>)
  {
    |events| == |plan| && forall i | 0 <= i < |plan| :: events[i].call == plan[i].call && events[i].Ok()
  }

  // ---- Plans in slice order ----

  lemma {:induction false} RemovesOn(list: ListId, key: string, removes: seq<Item>, tolerated: bool)
    requires DistinctKeys(removes)
    ensures CallsOn(Slot(list, key), Steps(Changes(list, removes, [], []), tolerated)) ==
            if HasKey(removes, key) then [ListChange(Remove(Slot(list, key), WithKey(removes, key)))] else []
  {
    if removes != [] {
      var n := |removes| - 1;
      RemovesOn(list, key, removes[..n], tolerated);
      LastRemove(list, removes, tolerated);
      hide Changes, Steps;
      if removes[n].Key() == key {
        assert !HasKey(removes[..n], key);
      } else if HasKey(removes, key) {
        var i :| 0 <= i < |removes| && removes[i].Key() == key;
        assert removes[..n][i].Key() == key;
        OnlyOne(removes, key, i);
        OnlyOne(removes[..n], key, i);
      }
    }
  }

  lemma LastRemove(list: ListId, removes: seq<Item>, tolerated: bool)
    requires removes != []
    ensures var plan, n := Steps(Changes(list, removes, [], []), tolerated), |removes| - 1;
      && |plan| == n + 1 && plan[..n] == Steps(Changes(list, removes[..n], [], []), tolerated)
      && plan[n].call == ListChange(Remove(Slot(list, removes[n].Key()), removes[n]))
  {}

  // The entry of a list under a key.
  function WithKey(items: seq<Item>, key: string): Item
    requires HasKey(items, key)
  {
    ByKeyHas(items, key);
    ByKey(items)[key]
  }

  lemma ByKeyHas(items: seq<Item>, key: string)
    requires HasKey(items, key)
    ensures key in ByKey(items)
  {
    IndexHas(items, |items|, key);
  }

  lemma OnlyOne(items: seq<Item>, key: string, i: nat)
    requires DistinctKeys(items) && i < |items| && items[i].Key() == key
    ensures HasKey(items, key) && WithKey(items, key) == items[i]
  {
    LastWins(items, i, |items|);
  }

  lemma ListedOn(list: ListId, key: string, removes: seq<Item>, m: map<string, Item>, tolerated: bool)
    requires Listing(removes, m)
    ensures CallsOn(Slot(list, key), Steps(Changes(list, removes, [], []), tolerated)) ==
            if key in m then [ListChange(Remove(Slot(list, key), m[key]))] else []
  {
    RemovesOn(list, key, removes, tolerated);
    hide CallsOn, Changes, Steps;
    if key in m {
      var i :| 0 <= i < |removes| && removes[i].Key() == key;
      OnlyOne(removes, key, i);
    }
  }

  lemma RemovesThenRest(list: ListId, removes: seq<Item>, adds: seq<Item>, updates: seq<Item>, tolerated: bool)
    ensures Steps(Changes(list, removes, adds, updates), tolerated) ==
            Steps(Changes(list, removes, [], []), tolerated) + Steps(Changes(list, [], adds, updates), tolerated)
  {
    assert Changes(list, removes, adds, updates) == Changes(list, removes, [], []) + Changes(list, [], adds, updates);
  }

  // Only the removes come in the order of a map, and each slot is removed once at most.
  lemma ChangesOn(list: ListId, m: map<string, Item>, removes: seq<Item>, removes': seq<Item>, adds: seq<Item>,
                  updates: seq<Item>, tolerated: bool, key: string)
    requires Listing(removes, m) && Listing(removes', m)
    ensures CallsOn(Slot(list, key), Steps(Changes(list, removes, adds, updates), tolerated)) ==
            CallsOn(Slot(list, key), Steps(Changes(list, removes', adds, updates), tolerated))
  {
    hide CallsOn, Changes, Steps, Listing;
    RemovesThenRest(list, removes, adds, updates, tolerated);
    RemovesThenRest(list, removes', adds, updates, tolerated);
    ListedOn(list, key, removes, m, tolerated);
    ListedOn(list, key, removes', m, tolerated);
    var rest := Steps(Changes(list, [], adds, updates), tolerated);
    CallsOnConcat(Slot(list, key), Steps(Changes(list, removes, [], []), tolerated), rest);
    CallsOnConcat(Slot(list, key), Steps(Changes(list, removes', [], []), tolerated), rest);
  }

  lemma FilterPlansOn(list: ListId, items: seq<Item>, lists: map<Slot, Item>, lists': map<Slot, Item>, coe: bool,
                      plan: seq<Step>, plan': seq<Step>, slot: Slot)
    requires IsFilterPlan(list, items, lists, coe, plan) && IsFilterPlan(list, items, lists', coe, plan')
    requires slot.list == list ==> Part(lists, list) == Part(lists', list)
    ensures CallsOn(slot, plan) == CallsOn(slot, plan')
  {
    hide CallsOn, Changes, Listing, SliceAdds, SliceUpdates;
    if slot.list != list {
      OtherListUntouched(list, items, lists, coe, plan, slot);
      OtherListUntouched(list, items, lists', coe, plan', slot);
    } else {
      var r :| IsFilterPlanWith(list, items, lists, coe, plan, r);
      var r' :| IsFilterPlanWith(list, items, lists', coe, plan', r');
      var adds, updates := ListAdds(list, items, lists), ListUpdates(list, items, lists);
      var refresh := OneStep(|adds| > 0 || |updates| > 0, RefreshFilters(list == AllowLists), false);
      hide Steps;
      ChangesOn(list, Removed(Part(lists, list), ByKey(items)), r, r', adds, updates, coe, slot.key);
      CallsOnConcat(slot, Steps(Changes(list, r, adds, updates), coe), refresh);
      CallsOnConcat(slot, Steps(Changes(list, r', adds, updates), coe), refresh);
      assert slot == Slot(list, slot.key);
    }
  }

  lemma OtherListUntouched(list: ListId, items: seq<Item>, lists: map<Slot, Item>, coe: bool, plan: seq<Step>,
                           slot: Slot)
    requires IsFilterPlan(list, items, lists, coe, plan) && slot.list != list
    ensures CallsOn(slot, plan) == []
  {
    hide CallsOn, Listing, ListAdds, ListUpdates;
    var removes :| IsFilterPlanWith(list, items, lists, coe, plan, removes);
    ChangesIn(list, removes, ListAdds(list, items, lists), ListUpdates(list, items, lists));
    hide Changes;
    NoCallsOn(slot, plan);
  }

  lemma FiltersPlansOn(ctx: Context, o: Origin, o': Origin, s: Instance, s': Instance, plan: seq<Step>,
                       plan': seq<Step>, slot: Slot)
    requires IsFiltersPlan(ctx, o, s, plan) && IsFiltersPlan(ctx, o', s', plan')
    requires o.filters == o'.filters && o.allowFilters == o'.allowFilters
    requires Part(s.lists, slot.list) == Part(s'.lists, slot.list)
    ensures CallsOn(slot, plan) == CallsOn(slot, plan')
  {
    hide IsFilterPlan, CallsOn;
    var coe := ctx.continueOnError;
    var block, allow :|
      && IsFilterPlan(BlockLists, o.filters, s.lists, coe, block)
      && IsFilterPlan(AllowLists, o.allowFilters, s.lists, coe, allow)
      && plan == block + allow + RuleSteps(o.settings, s.settings);
    var block', allow' :|
      && IsFilterPlan(BlockLists, o.filters, s'.lists, coe, block')
      && IsFilterPlan(AllowLists, o.allowFilters, s'.lists, coe, allow')
      && plan' == block' + allow' + RuleSteps(o'.settings, s'.settings);
    FilterPlansOn(BlockLists, o.filters, s.lists, s'.lists, coe, block, block', slot);
    FilterPlansOn(AllowLists, o.allowFilters, s.lists, s'.lists, coe, allow, allow', slot);
    ThreePartsOn(slot, block, allow, o.settings, s.settings);
    ThreePartsOn(slot, block', allow', o'.settings, s'.settings);
  }

  lemma ThreePartsOn(slot: Slot, block: seq<Step>, allow: seq<Step>, o: Settings, s: Settings)
    ensures CallsOn(slot, block + allow + RuleSteps(o, s)) == CallsOn(slot, block) + CallsOn(slot, allow)
  {
    NoCallsOn(slot, RuleSteps(o, s));
    hide CallsOn, RuleSteps;
    CallsOnConcat(slot, block, allow);
    CallsOnConcat(slot, block + allow, RuleSteps(o, s));
  }

  lemma LeasesPlansOn(ctx: Context, o: Origin, o': Origin, s: Instance, s': Instance, plan: seq<Step>, plan': seq<Step>,
                      slot: Slot)
    requires IsLeasesPlan(ctx, o, s, plan) && IsLeasesPlan(ctx, o', s', plan') && slot.list == Leases
    requires o.LeaseList() == o'.LeaseList() && Part(s.lists, Leases) == Part(s'.lists, Leases)
    ensures CallsOn(slot, plan) == CallsOn(slot, plan')
  {
    hide CallsOn, Changes, Listing, SliceAdds, Steps;
    var adds := ListAdds(Leases, o.LeaseList(), s.lists);
    var r :| Listing(r, Removed(Part(s.lists, Leases), Wanted(o, Leases)))
             && plan == Steps(Changes(Leases, r, adds, []), ctx.continueOnError);
    var r' :| Listing(r', Removed(Part(s'.lists, Leases), Wanted(o', Leases)))
              && plan' == Steps(Changes(Leases, r', ListAdds(Leases, o'.LeaseList(), s'.lists), []),
                                ctx.continueOnError);
    assert Wanted(o, Leases) == ByKey(o.LeaseList()) == Wanted(o', Leases);
    ChangesOn(Leases, Removed(Part(s.lists, Leases), Wanted(o, Leases)), r, r', adds, [], ctx.continueOnError,
              slot.key);
    assert slot == Slot(Leases, slot.key);
  }

  // For the lists merged in slice order, with whatever repetitions.
  lemma SliceListsAgree(ctx: Context, a: ActionRun, b: ActionRun, flags: Slot -> bool, slot: Slot)
    requires ValidRun(ctx, a) && ValidRun(ctx, b) && AllOk(a.events) && AllOk(b.events) && a.act == b.act
    requires GivenBy(flags, a.events) && GivenBy(flags, b.events)
    requires a.act.FiltersAction? || a.act.LeasesAction?
    requires WorksOn(a.act, slot.list)
    requires a.o0.filters == b.o0.filters && a.o0.allowFilters == b.o0.allowFilters
    requires a.o0.LeaseList() == b.o0.LeaseList()
    requires Part(a.s0.lists, slot.list) == Part(b.s0.lists, slot.list)
    ensures SameAt(a.s1.lists, b.s1.lists, slot)
  {
    hide IsFiltersPlan, IsLeasesPlan, CallsOn, Replay, OriginAfter, Typed, Filed;
    ErrorFree(ctx, a);
    ErrorFree(ctx, b);
    if a.act.FiltersAction? {
      FiltersPlansOn(ctx, a.o0, b.o0, a.s0, b.s0, a.plan, b.plan, slot);
    } else {
      LeasesPlansOn(ctx, a.o0, b.o0, a.s0, b.s0, a.plan, b.plan, slot);
    }
    TailGiven(flags, a);
    TailGiven(flags, b);
    SamePartSameEntry(a.s0.lists, b.s0.lists, slot);
    SameTouchesSameEntry(flags, slot, a.s0, a.plan, AfterTheRead(a), b.s0, b.plan, AfterTheRead(b));
  }

  lemma TailGiven(flags: Slot -> bool, run: ActionRun)
    requires Reads(run.act, run.o0) <= |run.events| && GivenBy(flags, run.events)
    ensures GivenBy(flags, AfterTheRead(run))
  {}

  lemma SamePartSameEntry(a: map<Slot, Item>, b: map<Slot, Item>, slot: Slot)
    requires Part(a, slot.list) == Part(b, slot.list)
    ensures SameAt(a, b, slot)
  {
    assert slot == Slot(slot.list, slot.key);
    assert slot.key in Part(a, slot.list) <==> slot in a;
    assert slot.key in Part(b, slot.list) <==> slot in b;
  }

  // For clients the difference decides, and for every other action nothing of the lists changes.
  lemma ClientListsAgree(ctx: Context, a: ActionRun, b: ActionRun, slot: Slot)
    requires ValidRun(ctx, a) && ValidRun(ctx, b) && AllOk(a.events) && AllOk(b.events)
    requires a.act.ClientsAction? && b.act.ClientsAction? && slot.list == Clients
    requires a.o0 == b.o0 && a.s0 == b.s0
    ensures SameAt(a.s1.lists, b.s1.lists, slot)
  {
    var x := ListRound(ctx, a, slot);
    var y := ListRound(ctx, b, slot);
    hide ValidRun, AllOk;
    if Wants(a.o0, slot) {
      WantedClient(ctx, a, slot);
    }
  }

  lemma WantedClient(ctx: Context, run: ActionRun, slot: Slot)
    requires ValidRun(ctx, run) && slot.list == Clients && Wants(run.o0, slot)
    ensures Want(run.o0, slot).Client?
  {
    IndexHas(run.o0.clients, |run.o0.clients|, slot.key);
    assert AllBelong(Clients, run.o0.List(Clients));
  }
}
