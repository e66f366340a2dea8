// Progress under arbitrary failures: a measure of what a replica still lacks.

module Progress {
  import opened Values
  import opened Server
  import opened Merging
  import opened Plans
  import opened NeverStale
  import opened Evolution
  import opened Safety
  import Ownership

  function SlotsOf(o: Origin, list: ListId): set<Slot>
  {
    set k | k in Wanted(o, list) :: Slot(list, k)
  }

  // Every slot that origin or replica fills.
  function AllSlots(o: Origin, lists: map<Slot, Item>): set<Slot>
  {
    lists.Keys + SlotsOf(o, BlockLists) + SlotsOf(o, AllowLists) + SlotsOf(o, Clients) + SlotsOf(o, Leases)
  }

  lemma WantedSlotIsIn(o: Origin, lists: map<Slot, Item>, slot: Slot)
    requires Wants(o, slot) || slot in lists
    ensures slot in AllSlots(o, lists)
  {
    if Wants(o, slot) { assert slot == Slot(slot.list, slot.key) && slot in SlotsOf(o, slot.list); }
  }

  // The slots in which the replica differs from the origin.
  function Pending(o: Origin, lists: map<Slot, Item>): set<Slot>
  {
    set slot | slot in AllSlots(o, lists) && Differs(o, lists, slot)
  }

  // The filters the replica does not have yet. They count twice, because an added
  // filter may come up with the wrong enabled flag.
  function MissingFilters(o: Origin, lists: map<Slot, Item>): set<Slot>
  {
    set slot | slot in AllSlots(o, lists) && slot !in lists && (slot.list == BlockLists || slot.list == AllowLists)
  }

  // Missing filter 2; extra or differing filter 1; missing, extra or differing client 1;
  // missing or extra lease 1; surplus or missing copy of a rewrite 1.
  function Gap(o: Origin, s: Instance): nat
  {
    ListGap(o, s.lists) + RewriteGap(KeyBag(s.rewrites), KeyOnce(o.rewrites))
  }

  function ListGap(o: Origin, lists: map<Slot, Item>): nat
  {
    |Pending(o, lists)| + |MissingFilters(o, lists)|
  }

  function RewriteGap(bag: multiset<string>, wanted: multiset<string>): nat
  {
    |bag - wanted| + |wanted - bag|
  }

  predicate IsListWrite(call: Call)
  {
    call.ListChange? || call.DeleteRewrite? || call.AddRewrite?
  }

  // The successful adds, deletes and updates among the events.
  function Writes(events: seq<Event>): nat
  {
    if events == [] then 0
    else
      var e := events[|events| - 1];
      Writes(events[..|events| - 1]) + if e.Ok() && IsListWrite(e.call) then 1 else 0
  }

  // A call whose success brings the replica nearer to the origin.
  ghost predicate Productive(o: Origin, s: Instance, call: Call)
  {
    match call
    case ListChange(c) =>
      (match c
       case Remove(slot, _) => slot in s.lists && !Wants(o, slot)
       case Add(slot, it) => slot !in s.lists && Wants(o, slot) && Same(it, Want(o, slot)) && Belongs(slot.list, it)
       case Update(slot, it) =>
         slot in s.lists && Differs(o, s.lists, slot) && Wants(o, slot) && Same(it, Want(o, slot)))
    case DeleteRewrite(e) => e in s.rewrites && KeyBag(s.rewrites)[e.Key()] > KeyOnce(o.rewrites)[e.Key()]
    case AddRewrite(e) => KeyBag(s.rewrites)[e.Key()] < KeyOnce(o.rewrites)[e.Key()]
    case _ => true
  }

  ghost predicate ProductiveThroughout(o: Origin, s: Instance, events: seq<Event>)
  {
    forall k | 0 <= k < |events| :: Productive(o, At(s, events, k), events[k].call)
  }

  // Only one slot changes.
  lemma OtherSlotsStay(o: Origin, a: map<Slot, Item>, b: map<Slot, Item>, slot: Slot)
    requires forall other | other != slot :: SameAt(a, b, other)
    ensures Pending(o, b) - {slot} == Pending(o, a) - {slot}
    ensures MissingFilters(o, b) - {slot} == MissingFilters(o, a) - {slot}
  {
    forall other | other != slot ensures other in Pending(o, b) <==> other in Pending(o, a) {
      assert SameAt(a, b, other);
      if Differs(o, a, other) { WantedSlotIsIn(o, a, other); WantedSlotIsIn(o, b, other); }
    }
    forall other | other != slot ensures other in MissingFilters(o, b) <==> other in MissingFilters(o, a) {
      assert SameAt(a, b, other);
      if other in MissingFilters(o, a) || other in MissingFilters(o, b) {
        AllSlotsAre(o, a, other);
        AllSlotsAre(o, b, other);
      }
    }
  }

  lemma AllSlotsAre(o: Origin, lists: map<Slot, Item>, slot: Slot)
    ensures slot in AllSlots(o, lists) <==> slot in lists || Wants(o, slot)
  {
    if Wants(o, slot) { WantedSlotIsIn(o, lists, slot); }
  }

  // The gap does not depend on the order in which the origin's lists are read.
  lemma GapOfSame(a: Origin, b: Origin, s: Instance)
    requires SameEntries(a, b)
    ensures Gap(a, s) == Gap(b, s)
  {
    forall list ensures SlotsOf(a, list) == SlotsOf(b, list) { assert Wanted(a, list) == Wanted(b, list); }
    forall slot: Slot ensures Differs(a, s.lists, slot) == Differs(b, s.lists, slot) {
      assert Wanted(a, slot.list) == Wanted(b, slot.list);
    }
    hide Differs, SlotsOf, KeyOnce, KeyBag;
    assert AllSlots(a, s.lists) == AllSlots(b, s.lists);
    assert Pending(a, s.lists) == Pending(b, s.lists) && MissingFilters(a, s.lists) == MissingFilters(b, s.lists);
  }

  lemma DropOne(a: set<Slot>, b: set<Slot>, slot: Slot)
    requires a - {slot} == b - {slot}
    ensures slot in a && slot !in b ==> |b| == |a| - 1
    ensures (slot in a <==> slot in b) ==> |b| == |a|
    ensures slot !in a && slot in b ==> |b| == |a| + 1
  {
    if slot in a { assert a == (a - {slot}) + {slot}; } else { assert a == a - {slot}; }
    if slot in b { assert b == (b - {slot}) + {slot}; } else { assert b == b - {slot}; }
  }

  lemma ListGapDrops(o: Origin, lists: map<Slot, Item>, c: Change, given: bool, s: Instance)
    requires lists == s.lists && Productive(o, s, ListChange(c))
    ensures ListGap(o, Changed(lists, c, given)) < ListGap(o, lists)
  {
    var slot, after := c.slot, Changed(lists, c, given);
    assert forall other | other != slot :: SameAt(lists, after, other);
    OtherSlotsStay(o, lists, after, slot);
    ChangedSlot(o, lists, c, given, s);
    hide Productive, Changed, Pending, MissingFilters;
    DropOne(Pending(o, lists), Pending(o, after), slot);
    DropOne(MissingFilters(o, lists), MissingFilters(o, after), slot);
  }

  // The changed slot was pending, and is so no more, or was missing and is so no more.
  lemma ChangedSlot(o: Origin, lists: map<Slot, Item>, c: Change, given: bool, s: Instance)
    requires lists == s.lists && Productive(o, s, ListChange(c))
    ensures var slot, after := c.slot, Changed(lists, c, given);
            slot in Pending(o, lists) && slot !in MissingFilters(o, after)
            && (slot !in Pending(o, after) || slot in MissingFilters(o, lists))
  {
    var slot, after := c.slot, Changed(lists, c, given);
    AllSlotsAre(o, lists, slot);
    AllSlotsAre(o, after, slot);
    hide AllSlots, Wants, Want;
  }

  lemma DeleteGap(bag: multiset<string>, wanted: multiset<string>, k: string)
    requires bag[k] > wanted[k]
    ensures RewriteGap(bag - multiset{k}, wanted) + 1 == RewriteGap(bag, wanted)
  {
    assert bag - wanted == ((bag - multiset{k}) - wanted) + multiset{k};
    assert wanted - (bag - multiset{k}) == wanted - bag;
  }

  lemma AddGap(bag: multiset<string>, wanted: multiset<string>, k: string)
    requires bag[k] < wanted[k]
    ensures RewriteGap(bag + multiset{k}, wanted) + 1 == RewriteGap(bag, wanted)
  {
    assert wanted - bag == (wanted - (bag + multiset{k})) + multiset{k};
    assert (bag + multiset{k}) - wanted == bag - wanted;
  }

  // A successful list write closes the gap; no other event widens it.
  lemma GapStep(o: Origin, s: Instance, e: Event)
    requires Productive(o, s, e.call)
    ensures e.Ok() && IsListWrite(e.call) ==> Gap(o, After(s, e)) < Gap(o, s)
    ensures !(e.Ok() && IsListWrite(e.call)) ==> Gap(o, After(s, e)) == Gap(o, s)
  {
    hide KeyBag, RewriteEntry.Key, RemoveOne, ListGap, RewriteGap, KeyOnce, Wants, Want, Differs;
    if e.Ok() {
      match e.call
      case ListChange(c) => ListGapDrops(o, s.lists, c, e.given, s);
      case DeleteRewrite(entry) =>
        RemoveOneCopy(s.rewrites, entry);
        DeleteGap(KeyBag(s.rewrites), KeyOnce(o.rewrites), entry.Key());
      case AddRewrite(entry) =>
        KeyBagOne(s.rewrites, entry);
        AddGap(KeyBag(s.rewrites), KeyOnce(o.rewrites), entry.Key());
      case _ =>
    }
  }

  // However many calls fail, the successful list writes are paid for by the gap.
  lemma {:induction false} WritesArePaidFor(o: Origin, s: Instance, events: seq<Event>, k: nat)
    requires ProductiveThroughout(o, s, events) && k <= |events|
    ensures Writes(events[..k]) + Gap(o, At(s, events, k)) <= Gap(o, s)
  {
    if k == 0 {
      assert events[..0] == [];
      NothingWritten(o, s, events);
    } else {
      hide Gap, Productive, After, Writes, At, IsListWrite;
      WritesArePaidFor(o, s, events, k - 1);
      OneWriteMore(o, s, events, k);
    }
  }

  lemma NothingWritten(o: Origin, s: Instance, events: seq<Event>)
    ensures Writes(events[..0]) == 0 && At(s, events, 0) == s
  {}

  lemma OneWriteMore(o: Origin, s: Instance, events: seq<Event>, k: nat)
    requires ProductiveThroughout(o, s, events) && 0 < k <= |events|
    ensures Writes(events[..k]) + Gap(o, At(s, events, k)) <= Writes(events[..k - 1]) + Gap(o, At(s, events, k - 1))
  {
    hide Gap, Productive, After;
    ReplayStep(s, events, k - 1);
    GapStep(o, At(s, events, k - 1), events[k - 1]);
    assert events[..k][..k - 1] == events[..k - 1];
  }

  lemma FitsIsProductive(o: Origin, inMemory: Origin, s: Instance, call: Call)
    requires OriginLike(o, inMemory) && Typed(inMemory) && FitsCall(inMemory, s, call)
    requires call.ListChange? && call.change.slot.list == Clients ==> NonLossy(inMemory)
    ensures Productive(o, s, call)
  {
    hide KeyBag, KeyOnce, RewriteEntry.Key;
    LikeOriginsWant(o, inMemory);
    if call.ListChange? && Wants(o, call.change.slot) {
      var slot := call.change.slot;
      var a, b := Want(o, slot), Want(inMemory, slot);
      ResortedMeansSame(a, b);
      WantBelongs(inMemory, slot);
      if b.Client? { ComparingSpoilsExactlyLossy(b); }
      SameThrough(a, b);
    }
  }

  lemma SameThrough(a: Item, b: Item)
    requires Same(a, b) && a.Key() == b.Key()
    ensures forall c :: Same(c, a) <==> Same(c, b)
  {}

  // What progress of an action asks of the origin: no repeated key in a list merged in
  // slice order, and for clients no schedule with both a day and a time zone.
  ghost predicate RegularFor(act: Action, o: Origin)
  {
    CleanFor(act, o) && (act.ClientsAction? ==> NonLossy(o))
  }

  lemma RegularLike(act: Action, o: Origin, o': Origin)
    requires OriginLike(o, o')
    ensures RegularFor(act, o) <==> RegularFor(act, o')
  {
    NonLossyLike(o, o');
    hide NonLossy;
  }

  lemma ActionIsProductive(ctx: Context, o: Origin, run: ActionRun)
    requires ValidRun(ctx, run) && RegularFor(run.act, o) && OriginLike(o, run.o0)
    ensures ProductiveThroughout(o, run.s0, run.events)
    ensures OriginLike(o, run.o1)
  {
    RegularLike(run.act, o, run.o0);
    NoCallIsStale(ctx, run);
    RunOnlyReorders(ctx, run);
    OriginLikeTransitive(o, run.o0, run.o1);
    Ownership.RunOwnsItsCalls(ctx, run);
    assert Typed(run.o0);
    hide ValidRun, OriginLike, NonLossy, FitsCall, Productive, At, Typed;
    forall k | 0 <= k < |run.events| ensures Productive(o, At(run.s0, run.events, k), run.events[k].call) {
      FitsIsProductive(o, run.o0, At(run.s0, run.events, k), run.events[k].call);
    }
  }

  lemma RunOnlyReorders(ctx: Context, run: ActionRun)
    requires ValidRun(ctx, run) && (run.act.ClientsAction? ==> NonLossy(run.o0))
    ensures OriginLike(run.o0, run.o1)
  {
    OriginOnlyReordered(run.act, run.o0, run.s0, !ReadFailed(run));
  }

  lemma ProductiveConcat(o: Origin, s: Instance, a: seq<Event>, b: seq<Event>)
    requires ProductiveThroughout(o, s, a) && ProductiveThroughout(o, Replay(s, a), b)
    ensures ProductiveThroughout(o, s, a + b)
  {
    forall k | 0 <= k < |a + b| ensures Productive(o, At(s, a + b, k), (a + b)[k].call) {
      AtConcat(s, a, b, k);
      if k >= |a| {
        assert At(Replay(s, a), b, k - |a|) == At(s, a + b, k) by {
          if k == |a| { assert a[..|a|] == a && b[..0] == []; }
        }
      }
    }
  }
}
