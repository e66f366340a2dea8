// The three-way differences between an origin list and a replica list, and the merge
// functions that compute them with maps and loops.

module Merging {
  import opened Sorting
  import opened Values
  import opened Server

  // ---- Keyed lists as maps ----

  predicate HasKey(items: seq<Item>, key: string)
  {
    exists i :: 0 <= i < |items| && items[i].Key() == key
  }

  predicate DistinctKeys(items: seq<Item>)
  {
    forall i, j | 0 <= i < j < |items| :: items[i].Key() != items[j].Key()
  }

  // The first n entries of a list indexed by key; the last entry of a key wins.
  function Index(items: seq<Item>, n: nat): (m: map<string, Item>)
    requires n <= |items|
    ensures forall k | k in m :: m[k].Key() == k
  {
    if n == 0 then map[] else Index(items, n - 1)[items[n - 1].Key() := items[n - 1]]
  }

  function ByKey(items: seq<Item>): (m: map<string, Item>)
    ensures forall k | k in m :: m[k].Key() == k
  {
    Index(items, |items|)
  }

  lemma {:induction false} IndexHas(items: seq<Item>, n: nat, key: string)
    requires n <= |items|
    ensures key in Index(items, n) <==> exists i :: 0 <= i < n && items[i].Key() == key
    ensures key in Index(items, n) ==> Index(items, n)[key] in items
  {
    if n > 0 { IndexHas(items, n - 1, key); }
  }

  lemma {:induction false} LastWins(items: seq<Item>, i: nat, n: nat)
    requires i < n <= |items| && forall j | i < j < n :: items[j].Key() != items[i].Key()
    ensures items[i].Key() in Index(items, n) && Index(items, n)[items[i].Key()] == items[i]
  {
    if n > i + 1 { LastWins(items, i, n - 1); }
  }

  // The entries of one list of a server, by key.
  function Part(lists: map<Slot, Item>, list: ListId): (m: map<string, Item>)
    ensures forall k :: k in m <==> Slot(list, k) in lists
    ensures forall k | k in m :: m[k] == lists[Slot(list, k)]
  {
    map k | k in (set slot | slot in lists && slot.list == list :: slot.key) :: lists[Slot(list, k)]
  }

  // A sequence that lists the values of a map, each once, in some order.
  predicate Listing(items: seq<Item>, m: map<string, Item>)
  {
    && DistinctKeys(items)
    && (forall i | 0 <= i < |items| :: items[i].Key() in m && m[items[i].Key()] == items[i])
    && (forall k | k in m :: HasKey(items, k))
  }

  // ---- The difference ----

  function Removed(current: map<string, Item>, expected: map<string, Item>): map<string, Item>
  {
    map k | k in current && k !in expected :: current[k]
  }

  function Added(current: map<string, Item>, expected: map<string, Item>): map<string, Item>
  {
    map k | k in expected && k !in current :: expected[k]
  }

  function Updated(current: map<string, Item>, expected: map<string, Item>): map<string, Item>
  {
    map k | k in expected && k in current && !Same(current[k], expected[k]) :: Sent(expected[k])
  }

  predicate IsDiff(current: map<string, Item>, expected: map<string, Item>, removes: seq<Item>, adds: seq<Item>,
                   updates: seq<Item>)
  {
    && Listing(removes, Removed(current, expected))
    && Listing(adds, Added(current, expected))
    && Listing(updates, Updated(current, expected))
  }

  lemma {:induction false} DistinctCounts(xs: seq<Item>, x: Item)
    requires DistinctKeys(xs)
    ensures multiset(xs)[x] == if x in xs then 1 else 0
  {
    if xs != [] {
      var before, last := xs[..|xs| - 1], xs[|xs| - 1];
      DistinctCounts(before, x);
      assert xs == before + [last];
      assert last !in before by {
        forall j | 0 <= j < |before| ensures before[j] != last { assert xs[j].Key() != last.Key(); }
      }
    }
  }

  lemma ListingCounts(xs: seq<Item>, m: map<string, Item>, x: Item)
    requires Listing(xs, m)
    ensures multiset(xs)[x] == if x.Key() in m && m[x.Key()] == x then 1 else 0
  {
    DistinctCounts(xs, x);
    if x.Key() in m && m[x.Key()] == x {
      var i :| 0 <= i < |xs| && xs[i].Key() == x.Key();
    }
  }

  lemma ListingsAgree(xs: seq<Item>, ys: seq<Item>, m: map<string, Item>)
    requires Listing(xs, m) && Listing(ys, m)
    ensures multiset(xs) == multiset(ys)
  {
    forall x: Item ensures multiset(xs)[x] == multiset(ys)[x] {
      ListingCounts(xs, m, x);
      ListingCounts(ys, m, x);
    }
  }

  // The order in which Go ranges over a map decides only the order of the results.
  lemma MapOrderIrrelevant(current: map<string, Item>, expected: map<string, Item>, removes: seq<Item>, adds: seq<Item>,
                           updates: seq<Item>, removes': seq<Item>, adds': seq<Item>, updates': seq<Item>)
    requires IsDiff(current, expected, removes, adds, updates)
    requires IsDiff(current, expected, removes', adds', updates')
    ensures multiset(removes) == multiset(removes')
    ensures multiset(adds) == multiset(adds')
    ensures multiset(updates) == multiset(updates')
  {
    ListingsAgree(removes, removes', Removed(current, expected));
    ListingsAgree(adds, adds', Added(current, expected));
    ListingsAgree(updates, updates', Updated(current, expected));
  }

  // ---- Merges driven by the order of the origin's slice: filters and leases ----

  // The current entries the first n origin entries have not matched yet.
  function Unmatched(current: map<string, Item>, items: seq<Item>, n: nat): map<string, Item>
    requires n <= |items|
  {
    Removed(current, Index(items, n))
  }

  // A second entry of a key goes to the adds, whatever the replica holds.
  function SliceAdds(current: map<string, Item>, items: seq<Item>, n: nat): seq<Item>
    requires n <= |items|
  {
    if n == 0 then []
    else if items[n - 1].Key() in Unmatched(current, items, n - 1) then SliceAdds(current, items, n - 1)
    else SliceAdds(current, items, n - 1) + [items[n - 1]]
  }

  function SliceUpdates(current: map<string, Item>, items: seq<Item>, n: nat): seq<Item>
    requires n <= |items|
  {
    if n == 0 then []
    else
      var x := items[n - 1];
      if x.Key() in Unmatched(current, items, n - 1) && !Same(current[x.Key()], x)
      then SliceUpdates(current, items, n - 1) + [x]
      else SliceUpdates(current, items, n - 1)
  }

  lemma ListingOne(xs: seq<Item>, m: map<string, Item>, x: Item)
    requires Listing(xs, m) && x.Key() !in m
    ensures Listing(xs + [x], m[x.Key() := x])
  {
    forall k | k in m[x.Key() := x] ensures HasKey(xs + [x], k) {
      if k == x.Key() {
        assert (xs + [x])[|xs|].Key() == k;
      } else {
        var i :| 0 <= i < |xs| && xs[i].Key() == k;
        assert (xs + [x])[i].Key() == k;
      }
    }
  }

  predicate NoClients(items: seq<Item>)
  {
    forall i | 0 <= i < |items| :: !items[i].Client?
  }

  // One more expected entry with a new key changes one entry of the difference.
  lemma DiffStep(current: map<string, Item>, expected: map<string, Item>, x: Item)
    requires x.Key() !in expected
    ensures Added(current, expected[x.Key() := x]) ==
            if x.Key() in current then Added(current, expected) else Added(current, expected)[x.Key() := x]
    ensures Updated(current, expected[x.Key() := x]) ==
            if x.Key() in current && !Same(current[x.Key()], x)
            then Updated(current, expected)[x.Key() := Sent(x)] else Updated(current, expected)
  {}

  lemma DistinctPrefix(items: seq<Item>, n: nat)
    requires DistinctKeys(items) && n < |items|
    ensures items[n].Key() !in Index(items, n)
  {
    IndexHas(items, n, items[n].Key());
  }

  lemma NothingListed(current: map<string, Item>)
    ensures Listing([], Added(current, map[])) && Listing([], Updated(current, map[]))
  {}

  lemma AddedKey(current: map<string, Item>, expected: map<string, Item>, key: string)
    requires key !in expected
    ensures key !in Added(current, expected) && key !in Updated(current, expected)
    ensures key in current <==> key in Removed(current, expected)
  {}

  // With distinct keys on the origin's side the slice-driven merge is the difference.
  lemma {:induction false} DistinctSliceAdds(current: map<string, Item>, items: seq<Item>, n: nat)
    requires DistinctKeys(items) && n <= |items|
    ensures Listing(SliceAdds(current, items, n), Added(current, Index(items, n)))
  {
    hide Listing, DistinctKeys, Added, Item.Key;
    if n == 0 {
      NothingListed(current);
    } else {
      var x := items[n - 1];
      DistinctPrefix(items, n - 1);
      AddedKey(current, Index(items, n - 1), x.Key());
      DistinctSliceAdds(current, items, n - 1);
      DiffStep(current, Index(items, n - 1), x);
      if x.Key() !in current {
        ListingOne(SliceAdds(current, items, n - 1), Added(current, Index(items, n - 1)), x);
      }
    }
  }

  lemma {:induction false} DistinctSliceUpdates(current: map<string, Item>, items: seq<Item>, n: nat)
    requires DistinctKeys(items) && NoClients(items) && n <= |items|
    ensures Listing(SliceUpdates(current, items, n), Updated(current, Index(items, n)))
  {
    hide Listing, DistinctKeys, Updated, Item.Key;
    if n == 0 {
      NothingListed(current);
    } else {
      var x := items[n - 1];
      assert !x.Client?;
      DistinctPrefix(items, n - 1);
      AddedKey(current, Index(items, n - 1), x.Key());
      DistinctSliceUpdates(current, items, n - 1);
      DiffStep(current, Index(items, n - 1), x);
      if x.Key() in current && !Same(current[x.Key()], x) {
        ListingOne(SliceUpdates(current, items, n - 1), Updated(current, Index(items, n - 1)), x);
      }
    }
  }

  lemma {:induction false} SliceAddsMonotone(current: map<string, Item>, items: seq<Item>, n: nat, m: nat)
    requires n <= m <= |items|
    ensures SliceAdds(current, items, n) <= SliceAdds(current, items, m)
  {
    if n < m { SliceAddsMonotone(current, items, n, m - 1); }
  }

  lemma SliceAddsAt(current: map<string, Item>, items: seq<Item>, j: nat) returns (p: nat)
    requires j < |items| && items[j].Key() !in Unmatched(current, items, j)
    ensures p == |SliceAdds(current, items, j)| < |SliceAdds(current, items, j + 1)|
    ensures p < |SliceAdds(current, items, |items|)| && SliceAdds(current, items, |items|)[p] == items[j]
  {
    p := |SliceAdds(current, items, j)|;
    assert SliceAdds(current, items, j + 1)[p] == items[j];
    SliceAddsMonotone(current, items, j + 1, |items|);
  }

  // Without distinct keys it is not: the second entry of a key is added although the
  // replica has the key, or is added twice.
  lemma SliceDiffExact(current: map<string, Item>, items: seq<Item>)
    ensures Listing(SliceAdds(current, items, |items|), Added(current, ByKey(items))) <==> DistinctKeys(items)
  {
    var adds := SliceAdds(current, items, |items|);
    if DistinctKeys(items) {
      DistinctSliceAdds(current, items, |items|);
    } else {
      var i, j :| 0 <= i < j < |items| && items[i].Key() == items[j].Key();
      IndexHas(items, j, items[j].Key());
      var p := SliceAddsAt(current, items, j);
      if items[j].Key() !in current {
        var q := SliceAddsAt(current, items, i);
        SliceAddsMonotone(current, items, i + 1, j);
        assert q < p;
        assert adds[q].Key() == adds[p].Key();
      } else {
        assert adds[p].Key() !in Added(current, ByKey(items));
      }
    }
  }

  // ---- Merge functions ----

  // A range loop over a map visits its values in any order.
  method RangeOver(m: map<string, Item>) returns (items: seq<Item>)
    requires forall k | k in m :: m[k].Key() == k
    ensures Listing(items, m)
  {
    items := [];
    var rest := m;
    while rest != map[]
      invariant forall k | k in rest :: k in m && rest[k] == m[k]
      invariant Listing(items, m - rest.Keys)
      decreases |rest|
    {
      var k :| k in rest;
      ListingOne(items, m - rest.Keys, rest[k]);
      assert m - (rest - {k}).Keys == (m - rest.Keys)[k := m[k]];
      items := items + [rest[k]];
      assert (rest - {k}).Keys == rest.Keys - {k};
      rest := rest - {k};
    }
    assert m - rest.Keys == m;
  }

  function OrEmpty(items: Option<seq<Item>>): seq<Item>
  {
    if items.None? then [] else items.value
  }

  method IndexByKey(items: seq<Item>) returns (m: map<string, Item>)
    ensures m == ByKey(items)
  {
    m := map[];
    for i := 0 to |items|
      invariant m == Index(items, i)
    {
      m := m[items[i].Key() := items[i]];
    }
  }

  // Compares a replica's filters with the origin's, nil counting as empty.
  method MergeFilters(replica: Option<seq<Item>>, other: Option<seq<Item>>)
    returns (adds: seq<Item>, updates: seq<Item>, removes: seq<Item>)
    ensures var cur, items := ByKey(OrEmpty(replica)), OrEmpty(other);
      && adds == SliceAdds(cur, items, |items|)
      && updates == SliceUpdates(cur, items, |items|)
      && Listing(removes, Removed(cur, ByKey(items)))
  {
    hide Same, SliceAdds, SliceUpdates, Item.Key;
    adds, updates, removes := [], [], [];
    if replica.None? && other.None? {
      NothingToMerge();
      return;
    }
    var current := map[];
    if replica.Some? { current := IndexByKey(replica.value); }
    adds, updates, current := MatchItems(current, OrEmpty(other));
    removes := RangeOver(current);
  }

  lemma NothingToMerge()
    ensures SliceAdds(ByKey([]), [], 0) == [] && SliceUpdates(ByKey([]), [], 0) == []
    ensures Listing([], Removed(ByKey([]), ByKey([])))
  {}

  // The loop over the origin's filters; what is left in current is to be removed.
  method MatchItems(initial: map<string, Item>, items: seq<Item>)
    returns (adds: seq<Item>, updates: seq<Item>, current: map<string, Item>)
    ensures adds == SliceAdds(initial, items, |items|) && updates == SliceUpdates(initial, items, |items|)
    ensures current == Unmatched(initial, items, |items|)
  {
    hide Same;
    adds, updates, current := [], [], initial;
    for i := 0 to |items|
      invariant adds == SliceAdds(initial, items, i)
      invariant updates == SliceUpdates(initial, items, i)
      invariant current == Unmatched(initial, items, i)
    {
      var rr := items[i];
      if rr.Key() in current {
        if !Same(current[rr.Key()], rr) {
          updates := updates + [rr];
        }
        current := current - {rr.Key()};
      } else {
        adds := adds + [rr];
      }
    }
  }

  method MergeDhcpStaticLeases(l: Option<seq<Item>>, other: Option<seq<Item>>)
    returns (adds: seq<Item>, removes: seq<Item>)
    ensures var cur, items := ByKey(OrEmpty(l)), OrEmpty(other);
      && adds == SliceAdds(cur, items, |items|)
      && Listing(removes, Removed(cur, ByKey(items)))
  {
    var theseLeases, otherLeases := OrEmpty(l), OrEmpty(other);
    var current := IndexByKey(theseLeases);
    ghost var initial := current;
    adds := [];
    for i := 0 to |otherLeases|
      invariant adds == SliceAdds(initial, otherLeases, i)
      invariant current == Unmatched(initial, otherLeases, i)
    {
      var le := otherLeases[i];
      if le.Key() in current {
        current := current - {le.Key()};
      } else {
        adds := adds + [le];
      }
    }
    removes := RangeOver(current);
  }

  // ---- Rewrites ----

  lemma MultisetOne(s: seq<RewriteEntry>, n: nat)
    requires n < |s|
    ensures multiset(s[..n + 1]) == multiset(s[..n]) + multiset{s[n]}
  {
    assert s[..n + 1] == s[..n] + [s[n]];
  }

  function KeySet(s: seq<RewriteEntry>): set<string>
  {
    set k | k in KeyBag(s)
  }

  // Each key of a list of rewrites once.
  function KeyOnce(s: seq<RewriteEntry>): multiset<string>
  {
    multiset(KeySet(s))
  }

  // What is deleted from and added to a replica that holds current.
  predicate IsRewriteDiff(current: seq<RewriteEntry>, origin: seq<RewriteEntry>, removes: seq<RewriteEntry>,
                          adds: seq<RewriteEntry>)
  {
    && multiset(removes) <= multiset(current)
    && multiset(adds) <= multiset(origin)
    && KeyBag(removes) == KeyBag(current) - KeyOnce(origin)
    && KeyBag(adds) == KeyOnce(origin) - KeyBag(current)
  }

  // Removing and adding what the merge says leaves each distinct origin key once.
  lemma RewriteConservation(current: seq<RewriteEntry>, origin: seq<RewriteEntry>, removes: seq<RewriteEntry>,
                            adds: seq<RewriteEntry>)
    requires IsRewriteDiff(current, origin, removes, adds)
    ensures KeyBag(current) - KeyBag(removes) + KeyBag(adds) == KeyOnce(origin)
    ensures KeyBag(removes) <= KeyBag(current)
  {}

  // The first copy of each key among n entries, and the further copies, in order.
  function FirstCopies(s: seq<RewriteEntry>, n: nat): map<string, RewriteEntry>
    requires n <= |s|
  {
    if n == 0 then map[]
    else
      var before := FirstCopies(s, n - 1);
      if s[n - 1].Key() in before then before else before[s[n - 1].Key() := s[n - 1]]
  }

  function FurtherCopies(s: seq<RewriteEntry>, n: nat): seq<RewriteEntry>
    requires n <= |s|
  {
    if n == 0 then []
    else FurtherCopies(s, n - 1) + if s[n - 1].Key() in FirstCopies(s, n - 1) then [s[n - 1]] else []
  }

  // The first copies whose key is not known, in order.
  function NewFirsts(known: set<string>, s: seq<RewriteEntry>, n: nat): seq<RewriteEntry>
    requires n <= |s|
  {
    if n == 0 then []
    else NewFirsts(known, s, n - 1)
         + if s[n - 1].Key() !in known && s[n - 1].Key() !in FirstCopies(s, n - 1) then [s[n - 1]] else []
  }

  // The values of a map keyed by Key, in any order.
  ghost predicate EntryListing(entries: seq<RewriteEntry>, m: map<string, RewriteEntry>)
  {
    && (forall i, j | 0 <= i < j < |entries| :: entries[i].Key() != entries[j].Key())
    && (forall e :: e in entries <==> e.Key() in m && m[e.Key()] == e)
  }

  // The first copies on the replica whose key the origin has not.
  function UnmatchedFirsts(current: seq<RewriteEntry>, origin: seq<RewriteEntry>): map<string, RewriteEntry>
  {
    FirstCopies(current, |current|) - FirstCopies(origin, |origin|).Keys
  }

  // Exactly what the merge gives: the further copies on the replica, in order, then the
  // unmatched first copies in any order; and the new first copies of the origin, in order.
  ghost predicate IsRewriteMerge(current: seq<RewriteEntry>, origin: seq<RewriteEntry>, removes: seq<RewriteEntry>,
                                 adds: seq<RewriteEntry>)
  {
    && adds == NewFirsts(FirstCopies(current, |current|).Keys, origin, |origin|)
    && exists unmatched :: EntryListing(unmatched, UnmatchedFirsts(current, origin))
                           && removes == FurtherCopies(current, |current|) + unmatched
  }

  predicate KeyedByKey(m: map<string, RewriteEntry>)
  {
    forall k | k in m :: m[k].Key() == k
  }

  // How often a map holds a key, and an entry: once or not at all.
  function KeyCount(m: map<string, RewriteEntry>, k: string): nat
  {
    if k in m then 1 else 0
  }

  function EntryCount(m: map<string, RewriteEntry>, e: RewriteEntry): nat
  {
    if e.Key() in m && m[e.Key()] == e then 1 else 0
  }

  // After n replica entries: the first entry of each key is current, the further
  // copies are to be removed.
  ghost predicate FirstsKept(s: seq<RewriteEntry>, n: nat, current: map<string, RewriteEntry>,
                             removes: seq<RewriteEntry>)
    requires n <= |s|
  {
    KeyedByKey(current) && EntriesKept(s, n, current, removes) && KeysKept(s, n, current, removes)
  }

  ghost predicate EntriesKept(s: seq<RewriteEntry>, n: nat, current: map<string, RewriteEntry>,
                              removes: seq<RewriteEntry>)
    requires n <= |s|
  {
    forall e :: multiset(removes)[e] + EntryCount(current, e) == multiset(s[..n])[e]
  }

  ghost predicate KeysKept(s: seq<RewriteEntry>, n: nat, current: map<string, RewriteEntry>, removes: seq<RewriteEntry>)
    requires n <= |s|
  {
    && (forall k :: KeyBag(removes)[k] + KeyCount(current, k) == KeysUpTo(s, n)[k])
    && (forall k :: k in current <==> k in KeysUpTo(s, n))
  }

  lemma NothingKept(s: seq<RewriteEntry>)
    ensures FirstsKept(s, 0, map[], [])
  {}

  lemma FirstCopyEntries(s: seq<RewriteEntry>, n: nat, current: map<string, RewriteEntry>, removes: seq<RewriteEntry>)
    requires n < |s| && EntriesKept(s, n, current, removes) && s[n].Key() !in current
    ensures EntriesKept(s, n + 1, current[s[n].Key() := s[n]], removes)
  {
    MultisetOne(s, n);
  }

  lemma FirstCopyKeys(s: seq<RewriteEntry>, n: nat, current: map<string, RewriteEntry>, removes: seq<RewriteEntry>)
    requires n < |s| && KeysKept(s, n, current, removes) && s[n].Key() !in current
    ensures KeysKept(s, n + 1, current[s[n].Key() := s[n]], removes)
  {
    hide KeyBag;
    hide RewriteEntry.Key;
  }

  lemma FurtherCopy(s: seq<RewriteEntry>, n: nat, current: map<string, RewriteEntry>, removes: seq<RewriteEntry>)
    requires n < |s| && FirstsKept(s, n, current, removes) && s[n].Key() in current
    ensures FirstsKept(s, n + 1, current, removes + [s[n]])
  {
    hide KeyBag;
    MultisetOne(s, n);
    KeyBagOne(removes, s[n]);
  }

  lemma {:induction false} FirstsAreKept(s: seq<RewriteEntry>, n: nat)
    requires n <= |s|
    ensures FirstsKept(s, n, FirstCopies(s, n), FurtherCopies(s, n))
  {
    hide FirstsKept, EntriesKept, KeysKept, RewriteEntry.Key;
    if n == 0 {
      NothingKept(s);
    } else {
      FirstsAreKept(s, n - 1);
      var current, removes := FirstCopies(s, n - 1), FurtherCopies(s, n - 1);
      assert removes + [] == removes;
      assert FirstsKept(s, n - 1, current, removes);
      OneMoreKept(s, n - 1, current, removes);
    }
  }

  lemma OneMoreKept(s: seq<RewriteEntry>, n: nat, current: map<string, RewriteEntry>, removes: seq<RewriteEntry>)
    requires n < |s| && FirstsKept(s, n, current, removes)
    ensures if s[n].Key() in current then FirstsKept(s, n + 1, current, removes + [s[n]])
            else FirstsKept(s, n + 1, current[s[n].Key() := s[n]], removes)
  {
    hide EntriesKept, KeysKept, RewriteEntry.Key;
    if s[n].Key() in current {
      FurtherCopy(s, n, current, removes);
    } else {
      FirstCopyEntries(s, n, current, removes);
      FirstCopyKeys(s, n, current, removes);
    }
  }

  // The first pass, over the replica's rewrites.
  method KeepFirsts(s: seq<RewriteEntry>)
    returns (current: map<string, RewriteEntry>, processed: set<string>, removes: seq<RewriteEntry>)
    ensures current == FirstCopies(s, |s|) && processed == current.Keys && removes == FurtherCopies(s, |s|)
  {
    hide RewriteEntry.Key;
    current, processed, removes := map[], {}, [];
    for i := 0 to |s|
      invariant current == FirstCopies(s, i) && processed == current.Keys && removes == FurtherCopies(s, i)
    {
      var rr := s[i];
      if rr.Key() !in processed {
        current := current[rr.Key() := rr];
        processed := processed + {rr.Key()};
      } else {
        removes := removes + [rr];
      }
    }
  }

  // After n origin entries: a key the replica has is no longer current; the first copy
  // of a key it has not is added; further copies are duplicates.
  ghost predicate OriginMatched(initial: map<string, RewriteEntry>, origin: seq<RewriteEntry>, n: nat,
                                current: map<string, RewriteEntry>, adds: seq<RewriteEntry>,
      duplicates: seq<RewriteEntry>)
    requires n <= |origin|
  {
    && (forall k :: k in current <==> k in initial && k !in KeysUpTo(origin, n))
    && (forall k | k in current :: current[k] == initial[k])
    && multiset(adds) + multiset(duplicates) <= multiset(origin[..n])
    && (forall k :: KeyBag(adds)[k] == if k in KeysUpTo(origin, n) && k !in initial then 1 else 0)
    && (forall k :: KeyBag(duplicates)[k] + (if k in KeysUpTo(origin, n) then 1 else 0) == KeysUpTo(origin, n)[k])
  }

  lemma NothingMatched(initial: map<string, RewriteEntry>, origin: seq<RewriteEntry>)
    ensures OriginMatched(initial, origin, 0, initial, [], [])
  {}

  lemma MatchCurrent(initial: map<string, RewriteEntry>, origin: seq<RewriteEntry>, n: nat, current: map<string,
                     RewriteEntry>, adds: seq<RewriteEntry>, duplicates: seq<RewriteEntry>)
    requires n < |origin| && OriginMatched(initial, origin, n, current, adds, duplicates)
    requires origin[n].Key() in current
    ensures OriginMatched(initial, origin, n + 1, current - {origin[n].Key()}, adds, duplicates)
  {
    hide KeyBag;
    MultisetOne(origin, n);
  }

  lemma MatchNew(initial: map<string, RewriteEntry>, origin: seq<RewriteEntry>, n: nat, current: map<string,
                 RewriteEntry>, adds: seq<RewriteEntry>, duplicates: seq<RewriteEntry>)
    requires n < |origin| && OriginMatched(initial, origin, n, current, adds, duplicates)
    requires origin[n].Key() !in initial && origin[n].Key() !in KeysUpTo(origin, n)
    ensures OriginMatched(initial, origin, n + 1, current, adds + [origin[n]], duplicates)
  {
    hide KeyBag, RewriteEntry.Key, FirstCopies;
    MultisetOne(origin, n);
    KeyBagOne(adds, origin[n]);
  }

  lemma MatchDuplicate(initial: map<string, RewriteEntry>, origin: seq<RewriteEntry>, n: nat, current: map<string,
                       RewriteEntry>, adds: seq<RewriteEntry>, duplicates: seq<RewriteEntry>)
    requires n < |origin| && OriginMatched(initial, origin, n, current, adds, duplicates)
    requires origin[n].Key() in KeysUpTo(origin, n)
    ensures OriginMatched(initial, origin, n + 1, current, adds, duplicates + [origin[n]])
  {
    hide KeyBag;
    MultisetOne(origin, n);
    KeyBagOne(duplicates, origin[n]);
  }

  lemma {:induction false} OriginIsMatched(initial: map<string, RewriteEntry>, origin: seq<RewriteEntry>, n: nat)
    requires n <= |origin|
    ensures OriginMatched(initial, origin, n, initial - FirstCopies(origin, n).Keys, NewFirsts(initial.Keys, origin, n),
                          FurtherCopies(origin, n))
    ensures forall k :: k in FirstCopies(origin, n) <==> k in KeysUpTo(origin, n)
  {
    hide OriginMatched, RewriteEntry.Key, KeysUpTo;
    if n == 0 {
      NothingMatched(initial, origin);
      assert initial - FirstCopies(origin, 0).Keys == initial;
      NoKeysYet(origin);
    } else {
      OriginIsMatched(initial, origin, n - 1);
      OneMoreFirst(origin, n);
      hide FirstCopies;
      OneMoreMatched(initial, origin, n - 1, FirstCopies(origin, n - 1), NewFirsts(initial.Keys, origin, n - 1),
                     FurtherCopies(origin, n - 1));
    }
  }

  lemma NoKeysYet(s: seq<RewriteEntry>)
    ensures KeysUpTo(s, 0) == multiset{}
  {}

  lemma OneMoreFirst(s: seq<RewriteEntry>, n: nat)
    requires 0 < n <= |s|
    ensures FirstCopies(s, n).Keys == FirstCopies(s, n - 1).Keys + {s[n - 1].Key()}
    ensures forall k :: k in KeysUpTo(s, n) <==> k in KeysUpTo(s, n - 1) || k == s[n - 1].Key()
  {
    hide RewriteEntry.Key;
  }

  lemma OneMoreMatched(initial: map<string, RewriteEntry>, origin: seq<RewriteEntry>, n: nat, firsts: map<string,
                       RewriteEntry>, adds: seq<RewriteEntry>, duplicates: seq<RewriteEntry>)
    requires n < |origin| && OriginMatched(initial, origin, n, initial - firsts.Keys, adds, duplicates)
    requires forall k :: k in firsts <==> k in KeysUpTo(origin, n)
    ensures var e := origin[n];
            OriginMatched(initial, origin, n + 1, initial - (firsts.Keys + {e.Key()}),
                          adds + (if e.Key() !in initial && e.Key() !in firsts then [e] else []),
                duplicates + (if e.Key() in firsts then [e] else []))
  {
    hide OriginMatched, RewriteEntry.Key;
    var e := origin[n];
    assert adds + [] == adds && duplicates + [] == duplicates;
    if e.Key() in firsts {
      assert initial - (firsts.Keys + {e.Key()}) == initial - firsts.Keys;
      MatchDuplicate(initial, origin, n, initial - firsts.Keys, adds, duplicates);
    } else if e.Key() in initial {
      assert initial - (firsts.Keys + {e.Key()}) == initial - firsts.Keys - {e.Key()};
      MatchCurrent(initial, origin, n, initial - firsts.Keys, adds, duplicates);
    } else {
      assert initial - (firsts.Keys + {e.Key()}) == initial - firsts.Keys;
      MatchNew(initial, origin, n, initial - firsts.Keys, adds, duplicates);
    }
  }

  // The second pass, over the origin's rewrites.
  method MatchOrigin(initial: map<string, RewriteEntry>, seen: set<string>, origin: seq<RewriteEntry>)
    returns (current: map<string, RewriteEntry>, adds: seq<RewriteEntry>, duplicates: seq<RewriteEntry>)
    requires seen == initial.Keys
    ensures current == initial - FirstCopies(origin, |origin|).Keys
    ensures adds == NewFirsts(initial.Keys, origin, |origin|) && duplicates == FurtherCopies(origin, |origin|)
  {
    hide RewriteEntry.Key;
    var processed := seen;
    current, adds, duplicates := initial, [], [];
    for i := 0 to |origin|
      invariant current == initial - FirstCopies(origin, i).Keys
      invariant processed == initial.Keys + FirstCopies(origin, i).Keys
      invariant adds == NewFirsts(initial.Keys, origin, i) && duplicates == FurtherCopies(origin, i)
    {
      var rr := origin[i];
      if rr.Key() in current {
        current := current - {rr.Key()};
      } else if rr.Key() !in processed {
        adds := adds + [rr];
        processed := processed + {rr.Key()};
      } else {
        duplicates := duplicates + [rr];
      }
    }
  }

  // A range loop that appends the remaining entries in any order.
  method AppendEntries(start: seq<RewriteEntry>, m: map<string, RewriteEntry>) returns (entries: seq<RewriteEntry>)
    requires KeyedByKey(m)
    ensures exists tail :: EntryListing(tail, m) && entries == start + tail
  {
    entries := start;
    ghost var tail: seq<RewriteEntry> := [];
    var rest := m;
    while rest != map[]
      invariant rest.Keys <= m.Keys && forall k | k in rest :: rest[k] == m[k]
      invariant entries == start + tail && EntryListing(tail, m - rest.Keys)
      decreases |rest|
    {
      var k :| k in rest;
      ListOneMore(tail, m - rest.Keys, rest[k]);
      assert (rest - {k}).Keys == rest.Keys - {k};
      assert m - (rest - {k}).Keys == (m - rest.Keys)[k := rest[k]];
      entries := entries + [rest[k]];
      tail := tail + [rest[k]];
      rest := rest - {k};
    }
    assert m - rest.Keys == m;
  }

  lemma ListOneMore(entries: seq<RewriteEntry>, m: map<string, RewriteEntry>, e: RewriteEntry)
    requires EntryListing(entries, m) && e.Key() !in m
    ensures EntryListing(entries + [e], m[e.Key() := e])
  {
    hide RewriteEntry.Key;
    forall i | 0 <= i < |entries| ensures entries[i].Key() != e.Key() { assert entries[i] in entries; }
  }

  // For any two lists of rewrites, with any repetitions: what to remove from and add to
  // the replica, and the origin's entries beyond the first copy of their key.
  method MergeRewrites(replica: seq<RewriteEntry>, origin: seq<RewriteEntry>)
    returns (adds: seq<RewriteEntry>, removes: seq<RewriteEntry>, duplicates: seq<RewriteEntry>)
    ensures IsRewriteMerge(replica, origin, removes, adds)
    ensures duplicates == FurtherCopies(origin, |origin|)
  {
    hide FirstCopies, FurtherCopies, NewFirsts, EntryListing;
    var current, processed, copies := KeepFirsts(replica);
    var unmatched;
    unmatched, adds, duplicates := MatchOrigin(current, processed, origin);
    FirstsAreKept(replica, |replica|);
    removes := AppendEntries(copies, unmatched);
  }

  lemma {:induction false} ListingEntries(entries: seq<RewriteEntry>, m: map<string, RewriteEntry>)
    requires EntryListing(entries, m) && KeyedByKey(m)
    ensures forall e :: multiset(entries)[e] == EntryCount(m, e)
    ensures forall k :: KeyBag(entries)[k] == KeyCount(m, k)
    decreases |entries|
  {
    KeyBagEmpty();
    hide KeyBag, RewriteEntry.Key;
    if entries == [] {
      AllListed(entries, m);
    } else {
      var n := |entries| - 1;
      var e, rest := entries[n], entries[..n];
      assert entries == rest + [e];
      ListOneLess(entries, m);
      ListingEntries(rest, m - {e.Key()});
      KeyBagOne(rest, e);
    }
  }

  lemma AllListed(entries: seq<RewriteEntry>, m: map<string, RewriteEntry>)
    requires EntryListing(entries, m) && KeyedByKey(m)
    ensures forall k | k in m :: m[k] in entries
  {}

  lemma ListOneLess(entries: seq<RewriteEntry>, m: map<string, RewriteEntry>)
    requires EntryListing(entries, m) && entries != []
    ensures var n := |entries| - 1;
            entries[n].Key() in m && m[entries[n].Key()] == entries[n]
            && EntryListing(entries[..n], m - {entries[n].Key()})
  {
    hide RewriteEntry.Key;
    var n := |entries| - 1;
    forall e
      ensures e in entries[..n] <==> e.Key() in m - {entries[n].Key()} && (m - {entries[n].Key()})[e.Key()] == e
    {
      if e in entries[..n] {
        var i :| 0 <= i < n && entries[i] == e;
        assert e in entries;
      } else if e.Key() in m && m[e.Key()] == e {
        assert e in entries;
      }
    }
  }

  // What is left to remove and to add is the difference between the replica's keys and each
  // of the origin's keys once.
  lemma MergeIsDiff(replica: seq<RewriteEntry>, origin: seq<RewriteEntry>, removes: seq<RewriteEntry>,
                    adds: seq<RewriteEntry>)
    requires IsRewriteMerge(replica, origin, removes, adds)
    ensures IsRewriteDiff(replica, origin, removes, adds)
  {
    var current, copies := FirstCopies(replica, |replica|), FurtherCopies(replica, |replica|);
    var unmatched := UnmatchedFirsts(replica, origin);
    var tail :| EntryListing(tail, unmatched) && removes == copies + tail;
    FirstsAreKept(replica, |replica|);
    OriginIsMatched(current, origin, |origin|);
    hide FirstCopies, FurtherCopies, NewFirsts, OriginMatched, EntriesKept, KeysKept, EntryListing, KeyBag;
    ListingEntries(tail, unmatched);
    KeyBagConcat(copies, tail);
    MergedEntries(replica, origin, current, copies, unmatched, adds, FurtherCopies(origin, |origin|), removes);
    MergedKeys(replica, origin, current, copies, unmatched, adds, FurtherCopies(origin, |origin|), removes);
  }

  // The entries that are skipped as duplicates.
  lemma DuplicatesAre(replica: seq<RewriteEntry>, origin: seq<RewriteEntry>, removes: seq<RewriteEntry>,
                      adds: seq<RewriteEntry>)
    requires IsRewriteMerge(replica, origin, removes, adds)
    ensures var duplicates := FurtherCopies(origin, |origin|);
            && KeyBag(duplicates) == KeyBag(origin) - KeyOnce(origin)
            && multiset(adds) + multiset(duplicates) <= multiset(origin)
  {
    var current := FirstCopies(replica, |replica|);
    OriginIsMatched(current, origin, |origin|);
    hide FirstCopies, FurtherCopies, NewFirsts, KeyBag;
    assert origin[..|origin|] == origin && KeyBag(origin) == KeysUpTo(origin, |origin|);
    OriginArithmetic(KeyBag(origin), KeyBag(FurtherCopies(origin, |origin|)));
  }

  lemma OriginArithmetic(origin: multiset<string>, duplicates: multiset<string>)
    requires forall k :: duplicates[k] + (if k in origin then 1 else 0) == origin[k]
    ensures duplicates == origin - multiset(set k | k in origin)
  {}

  lemma MergedEntries(replica: seq<RewriteEntry>, origin: seq<RewriteEntry>, current: map<string, RewriteEntry>,
                      copies: seq<RewriteEntry>, unmatched: map<string, RewriteEntry>, adds: seq<RewriteEntry>,
      duplicates: seq<RewriteEntry>, removes: seq<RewriteEntry>)
    requires EntriesKept(replica, |replica|, current, copies)
    requires OriginMatched(current, origin, |origin|, unmatched, adds, duplicates)
    requires forall e :: multiset(removes)[e] == multiset(copies)[e] + EntryCount(unmatched, e)
    ensures multiset(removes) <= multiset(replica) && multiset(adds) <= multiset(origin)
  {
    assert replica[..|replica|] == replica && origin[..|origin|] == origin;
    forall e ensures multiset(removes)[e] <= multiset(replica)[e] {}
  }

  lemma MergedKeys(replica: seq<RewriteEntry>, origin: seq<RewriteEntry>, current: map<string, RewriteEntry>,
                   copies: seq<RewriteEntry>, unmatched: map<string, RewriteEntry>, adds: seq<RewriteEntry>,
      duplicates: seq<RewriteEntry>, removes: seq<RewriteEntry>)
    requires KeysKept(replica, |replica|, current, copies)
    requires OriginMatched(current, origin, |origin|, unmatched, adds, duplicates)
    requires forall k :: KeyBag(removes)[k] == KeyBag(copies)[k] + KeyCount(unmatched, k)
    ensures KeyBag(removes) == KeyBag(replica) - KeyOnce(origin)
    ensures KeyBag(adds) == KeyOnce(origin) - KeyBag(replica)
  {
    assert KeyBag(replica) == KeysUpTo(replica, |replica|) && KeyBag(origin) == KeysUpTo(origin, |origin|);
    hide KeyBag;
    RewriteArithmetic(KeyBag(replica), KeyBag(origin), current.Keys, KeyBag(removes), KeyBag(adds));
  }

  lemma RewriteArithmetic(current: multiset<string>, origin: multiset<string>, firsts: set<string>,
                          removes: multiset<string>, adds: multiset<string>)
    requires forall k :: k in firsts <==> k in current
    requires forall k :: removes[k] + (if k in firsts && k in origin then 1 else 0) == current[k]
    requires forall k :: adds[k] == if k in origin && k !in firsts then 1 else 0
    ensures var wanted := multiset(set k | k in origin);
            removes == current - wanted && adds == wanted - current
  {}
}
