// What a run does to the origin's configuration in memory, which the next replica of
// the run is compared with.

module Evolution {
  import opened Sorting
  import opened Values
  import opened Server
  import opened Merging
  import opened Plans

  // The same entry up to the order of a client's lists.
  predicate Resorted(a: Item, b: Item)
  {
    if a.Client? && b.Client? then SortLists(a) == SortLists(b) else a == b
  }

  lemma ResortedMeansSame(a: Item, b: Item)
    requires Resorted(a, b)
    ensures a.Key() == b.Key() && Same(a, b)
    ensures Lossy(a) <==> Lossy(b)
  {}

  ghost predicate ListsLike(xs: seq<Item>, ys: seq<Item>)
  {
    |xs| == |ys| && forall i | 0 <= i < |xs| :: Resorted(xs[i], ys[i])
  }

  predicate ServicesLike(a: Services, b: Services)
  {
    ListEq(a.ids, b.ids) && a.schedule == b.schedule
  }

  // Equal settings up to the order of the access lists and of the blocked services.
  ghost predicate SettingsLike(a: Settings, b: Settings)
  {
    && AccessEq(a.access, b.access) && ServicesLike(a.services, b.services)
    && a.(access := b.access, services := b.services) == b
  }

  // The same configuration up to the order of what the program sorts in place.
  ghost predicate OriginLike(a: Origin, b: Origin)
  {
    && SettingsLike(a.settings, b.settings)
    && ListsLike(a.clients, b.clients)
    && a.(settings := b.settings, clients := b.clients) == b
  }

  // No client the origin wants, the last of each name, has both a day and a time zone.
  ghost predicate NonLossy(o: Origin)
  {
    forall k | k in Wanted(o, Clients) :: !Lossy(Wanted(o, Clients)[k])
  }

  ghost predicate SameKeys(xs: seq<Item>, ys: seq<Item>)
  {
    |xs| == |ys| && forall i | 0 <= i < |xs| :: xs[i].Key() == ys[i].Key()
  }

  // The same configuration in everything but the bodies of clients and the settings.
  ghost predicate SameNames(a: Origin, b: Origin)
  {
    && SameKeys(a.clients, b.clients)
    && a.(settings := b.settings, clients := b.clients) == b
  }

  // The same entries, in lists of any order: two readings of a server whose lists stay the same.
  ghost predicate SameEntries(a: Origin, b: Origin)
  {
    a.rewrites == b.rewrites && forall list :: Wanted(a, list) == Wanted(b, list)
  }

  lemma OriginLikeReflexive(a: Origin)
    ensures OriginLike(a, a)
  {}

  lemma OriginLikeSymmetric(a: Origin, b: Origin)
    requires OriginLike(a, b)
    ensures OriginLike(b, a)
  {}

  lemma OriginLikeTransitive(a: Origin, b: Origin, c: Origin)
    requires OriginLike(a, b) && OriginLike(b, c)
    ensures OriginLike(a, c)
  {}

  lemma SameNamesTransitive(a: Origin, b: Origin, c: Origin)
    requires SameNames(a, b) && SameNames(b, c)
    ensures SameNames(a, c)
  {}

  lemma MergedClientsLike(clients: seq<Item>, current: map<string, Item>)
    requires AllBelong(Clients, clients)
    ensures AllBelong(Clients, MergedClients(clients, current))
    ensures SameKeys(clients, MergedClients(clients, current))
    ensures (forall i | 0 <= i < |clients| && Compared(clients, current, i) :: !Lossy(clients[i])) ==>
              ListsLike(clients, MergedClients(clients, current))
  {
    var merged := MergedClients(clients, current);
    forall i | 0 <= i < |clients|
      ensures merged[i].Client? && merged[i].Key() == clients[i].Key()
      ensures !Compared(clients, current, i) || !Lossy(clients[i]) ==> Resorted(clients[i], merged[i])
    {
      ComparingSpoilsExactlyLossy(clients[i]);
    }
  }

  // A client that is compared is the one wanted under its name.
  lemma ComparedIsWanted(o: Origin, current: map<string, Item>, i: nat)
    requires i < |o.clients| && Compared(o.clients, current, i)
    ensures o.clients[i].Key() in Wanted(o, Clients) && Wanted(o, Clients)[o.clients[i].Key()] == o.clients[i]
  {
    LastWins(o.clients, i, |o.clients|);
  }

  lemma SortedServicesLike(v: Services)
    ensures ServicesLike(v, LoggedServices(v))
  {}

  // Whatever an action does, the names and the number of the origin's entries stay.
  lemma NamesStay(act: Action, o: Origin, s: Instance, read: bool)
    requires Typed(o)
    ensures var o' := OriginAfter(act, o, s, read); Typed(o') && SameNames(o, o')
  {
    assert AllBelong(Clients, o.List(Clients));
    MergedClientsLike(o.clients, Part(s.lists, Clients));
    var o' := OriginAfter(act, o, s, read);
    forall list ensures AllBelong(list, o'.List(list)) {
      assert AllBelong(list, o.List(list));
    }
  }

  // Without a client that has both a day and a time zone, an action only reorders what is
  // shared between replicas; every action but that for clients does in any case.
  lemma OriginOnlyReordered(act: Action, o: Origin, s: Instance, read: bool)
    requires Typed(o) && (act.ClientsAction? ==> NonLossy(o))
    ensures OriginLike(o, OriginAfter(act, o, s, read))
  {
    assert AllBelong(Clients, o.List(Clients));
    var current := Part(s.lists, Clients);
    if act.ClientsAction? {
      forall i | 0 <= i < |o.clients| && Compared(o.clients, current, i) ensures !Lossy(o.clients[i]) {
        ComparedIsWanted(o, current, i);
      }
    }
    MergedClientsLike(o.clients, current);
    AccessTouchedEq(o.settings.access, s.settings.access);
    SortedServicesLike(o.settings.services);
  }

  // With such a schedule it does not: the compared client loses its time zone.
  lemma LossyClientIsSpoiled(o: Origin, s: Instance, i: nat)
    requires Typed(o) && i < |o.clients|
    requires Lossy(o.clients[i]) && Compared(o.clients, Part(s.lists, Clients), i)
    ensures var c := OriginAfter(ClientsAction, o, s, true).clients[i];
            c.Client? && c.schedule.Some? && c.schedule.value.timeZone == None && !Same(c, o.clients[i])
  {
    assert AllBelong(Clients, o.List(Clients));
    ComparingSpoilsExactlyLossy(o.clients[i]);
  }

  // ---- What the origin wants, before and after ----

  lemma {:induction false} IndexLike(xs: seq<Item>, ys: seq<Item>, n: nat)
    requires SameKeys(xs, ys) && n <= |xs|
    ensures Index(xs, n).Keys == Index(ys, n).Keys
    ensures ListsLike(xs, ys) ==> forall k | k in Index(xs, n) :: Resorted(Index(xs, n)[k], Index(ys, n)[k])
  {
    if n > 0 { IndexLike(xs, ys, n - 1); }
  }

  lemma LikeHaveSameKeys(xs: seq<Item>, ys: seq<Item>)
    requires ListsLike(xs, ys)
    ensures SameKeys(xs, ys)
  {
    forall i | 0 <= i < |xs| ensures xs[i].Key() == ys[i].Key() { ResortedMeansSame(xs[i], ys[i]); }
  }

  lemma SameNamesWant(a: Origin, b: Origin)
    requires SameNames(a, b)
    ensures forall slot :: Wants(a, slot) <==> Wants(b, slot)
  {
    IndexLike(a.clients, b.clients, |a.clients|);
    forall slot ensures Wants(a, slot) <==> Wants(b, slot) {
      if slot.list != Clients { assert a.List(slot.list) == b.List(slot.list); }
    }
  }

  lemma LikeOriginsWant(a: Origin, b: Origin)
    requires OriginLike(a, b)
    ensures SameNames(a, b)
    ensures forall slot :: Wants(a, slot) <==> Wants(b, slot)
    ensures forall slot | Wants(a, slot) :: Resorted(Want(a, slot), Want(b, slot))
  {
    LikeHaveSameKeys(a.clients, b.clients);
    SameNamesWant(a, b);
    IndexLike(a.clients, b.clients, |a.clients|);
    forall slot | Wants(a, slot) ensures Resorted(Want(a, slot), Want(b, slot)) {
      if slot.list != Clients { assert a.List(slot.list) == b.List(slot.list); }
    }
  }

  lemma NonLossyLike(a: Origin, b: Origin)
    requires OriginLike(a, b)
    ensures NonLossy(a) <==> NonLossy(b)
  {
    LikeHaveSameKeys(a.clients, b.clients);
    IndexLike(a.clients, b.clients, |a.clients|);
    forall k | k in Wanted(a, Clients) ensures Lossy(Wanted(a, Clients)[k]) <==> Lossy(Wanted(b, Clients)[k]) {
      ResortedMeansSame(Wanted(a, Clients)[k], Wanted(b, Clients)[k]);
    }
  }

  lemma WantBelongs(o: Origin, slot: Slot)
    requires Typed(o) && Wants(o, slot)
    ensures Belongs(slot.list, Want(o, slot)) && Want(o, slot).Key() == slot.key
    ensures NonLossy(o) ==> !Lossy(Want(o, slot))
  {
    var items := o.List(slot.list);
    IndexHas(items, |items|, slot.key);
    assert AllBelong(slot.list, items);
  }
}
