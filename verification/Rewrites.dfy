// Rewrites when calls fail, and when the server's delete takes every copy of a rewrite.

module Rewrites {
  import opened Values
  import opened Server
  import opened Merging
  import opened Plans
  import opened NeverStale
  import opened Convergence

  // ---- Failures ----

  // Whatever the error policy, the calls after the read are a prefix of the removes and
  // then the adds of the merge; all but the last succeeded, and an error means the last
  // one did not. Only an execution without an error makes them all.
  lemma RewritesStopAtFirstFailure(ctx: Context, run: ActionRun)
    requires ValidRun(ctx, run) && run.act.RewritesAction? && !ReadFailed(run)
    ensures exists removes, adds :: IsRewriteMerge(run.s0.rewrites, run.o0.rewrites, removes, adds) &&
              IsPrefixOf(AfterTheRead(run), removes, adds) && (!run.err ==> |AfterTheRead(run)| == |removes| + |adds|)
    ensures forall i | 0 <= i < |AfterTheRead(run)| - 1 :: AfterTheRead(run)[i].Ok()
    ensures run.err <==> AfterTheRead(run) != [] && !AfterTheRead(run)[|AfterTheRead(run)| - 1].Ok()
  {
    hide IsRewriteMerge, Replay, Executes, RewriteSteps, IsPrefixOf;
    var removes, adds :| IsRewriteMerge(run.s0.rewrites, run.o0.rewrites, removes, adds)
          && run.plan == RewriteSteps(removes, adds);
    RewritePrefix(removes, adds, AfterTheRead(run), run.err);
  }

  lemma RewritePrefix(removes: seq<RewriteEntry>, adds: seq<RewriteEntry>, events: seq<Event>, err: bool)
    requires Executes(RewriteSteps(removes, adds), events, err)
    ensures IsPrefixOf(events, removes, adds) && (!err ==> |events| == |removes| + |adds|)
    ensures forall i | 0 <= i < |events| - 1 :: events[i].Ok()
    ensures err <==> events != [] && !events[|events| - 1].Ok()
  {
    ExecutesCalls(RewriteSteps(removes, adds), events, err);
  }

  ghost predicate IsPrefixOf(events: seq<Event>, removes: seq<RewriteEntry>, adds: seq<RewriteEntry>)
  {
    && |events| <= |removes| + |adds|
    && forall i | 0 <= i < |events| ::
         events[i].call == if i < |removes| then DeleteRewrite(removes[i]) else AddRewrite(adds[i - |removes|])
  }

  // ---- The order of the deletes ----

  // One copy of each entry taken out, in this order.
  function RemoveAll(s: seq<RewriteEntry>, removes: seq<RewriteEntry>): seq<RewriteEntry>
  {
    if removes == [] then s
    else RemoveOne(RemoveAll(s, removes[..|removes| - 1]), removes[|removes| - 1])
  }

  lemma {:induction false} RemovesCommute(s: seq<RewriteEntry>, a: RewriteEntry, b: RewriteEntry)
    ensures RemoveOne(RemoveOne(s, a), b) == RemoveOne(RemoveOne(s, b), a)
  {
    if s != [] && s[0] != a && s[0] != b {
      RemovesCommute(s[1..], a, b);
      assert ([s[0]] + RemoveOne(s[1..], a))[1..] == RemoveOne(s[1..], a);
      assert ([s[0]] + RemoveOne(s[1..], b))[1..] == RemoveOne(s[1..], b);
    } else if s != [] && a != b {
      var other := if s[0] == a then b else a;
      assert ([s[0]] + RemoveOne(s[1..], other))[1..] == RemoveOne(s[1..], other);
    }
  }

  // Any of the deletes may come last.
  lemma {:induction false} AnyLast(s: seq<RewriteEntry>, removes: seq<RewriteEntry>, i: nat)
    requires i < |removes|
    ensures RemoveAll(s, removes) == RemoveOne(RemoveAll(s, removes[..i] + removes[i + 1..]), removes[i])
  {
    var n := |removes| - 1;
    if i == n {
      assert removes[..i] + removes[i + 1..] == removes[..n];
    } else {
      var rest := removes[..i] + removes[i + 1..];
      var both := removes[..n][..i] + removes[..n][i + 1..];
      assert rest[..|rest| - 1] == both && rest[|rest| - 1] == removes[n];
      AnyLast(s, removes[..n], i);
      hide RemoveOne;
      RemovesCommute(RemoveAll(s, both), removes[i], removes[n]);
    }
  }

  lemma TakenOut(s: seq<RewriteEntry>, i: nat)
    requires i < |s|
    ensures multiset(s) == multiset(s[..i] + s[i + 1..]) + multiset{s[i]}
  {
    assert s == s[..i] + [s[i]] + s[i + 1..];
  }

  lemma CancelOne(a: multiset<RewriteEntry>, b: multiset<RewriteEntry>, e: RewriteEntry)
    requires a + multiset{e} == b + multiset{e}
    ensures a == b
  {
    forall x ensures a[x] == b[x] { assert (a + multiset{e})[x] == (b + multiset{e})[x]; }
  }

  lemma {:induction false} RemovesPermute(s: seq<RewriteEntry>, a: seq<RewriteEntry>, b: seq<RewriteEntry>)
    requires multiset(a) == multiset(b)
    ensures RemoveAll(s, a) == RemoveAll(s, b)
    decreases |a|
  {
    hide RemoveOne;
    assert |a| == |multiset(a)| == |multiset(b)| == |b|;
    if a != [] {
      var n := |a| - 1;
      assert a == a[..n] + [a[n]];
      assert a[n] in multiset(b);
      var i :| 0 <= i < |b| && b[i] == a[n];
      AnyLast(s, b, i);
      TakenOut(b, i);
      CancelOne(multiset(a[..n]), multiset(b[..i] + b[i + 1..]), a[n]);
      RemovesPermute(s, a[..n], b[..i] + b[i + 1..]);
    }
  }

  // The rewrites after some successful calls of a plan, in the server's order.
  lemma {:induction false} RewritesInOrder(s: Instance, removes: seq<RewriteEntry>, adds: seq<RewriteEntry>,
                                           events: seq<Event>)
    requires Underway(RewriteSteps(removes, adds), events)
    ensures Replay(s, events).rewrites ==
            if |events| <= |removes| then RemoveAll(s.rewrites, removes[..|events|])
            else RemoveAll(s.rewrites, removes) + adds[..|events| - |removes|]
  {
    hide RemoveOne, Configured, Changed, RewriteSteps;
    if events != [] {
      var k := |events| - 1;
      assert forall i | 0 <= i < k :: events[..k][i] == events[i];
      RewriteStepAt(removes, adds, k);
      RewritesInOrder(s, removes, adds, events[..k]);
      if k < |removes| {
        assert removes[..k + 1][..k] == removes[..k];
      } else {
        var j := k - |removes|;
        assert removes[..|removes|] == removes && adds[..j + 1] == adds[..j] + [adds[j]];
      }
    }
  }

  // The merge leaves no choice but the order of the deletes.
  lemma MergesPermute(current: seq<RewriteEntry>, origin: seq<RewriteEntry>, removes: seq<RewriteEntry>,
                      adds: seq<RewriteEntry>, removes': seq<RewriteEntry>, adds': seq<RewriteEntry>)
    requires IsRewriteMerge(current, origin, removes, adds) && IsRewriteMerge(current, origin, removes', adds')
    ensures adds == adds' && multiset(removes) == multiset(removes')
  {
    FirstsAreKept(current, |current|);
    hide FirstCopies, FurtherCopies, NewFirsts, EntriesKept, KeysKept, EntryListing;
    var unmatched := UnmatchedFirsts(current, origin);
    var a :| EntryListing(a, unmatched) && removes == FurtherCopies(current, |current|) + a;
    var b :| EntryListing(b, unmatched) && removes' == FurtherCopies(current, |current|) + b;
    ListingEntries(a, unmatched);
    ListingEntries(b, unmatched);
    assert multiset(a) == multiset(b);
  }

  // Whatever order the deletes take, an error-free round leaves the same list of rewrites,
  // entry by entry.
  lemma RewritesDetermined(ctx: Context, a: ActionRun, b: ActionRun)
    requires ValidRun(ctx, a) && a.act.RewritesAction? && AllOk(a.events)
    requires ValidRun(ctx, b) && b.act.RewritesAction? && AllOk(b.events)
    requires a.o0.rewrites == b.o0.rewrites && a.s0.rewrites == b.s0.rewrites
    ensures a.s1.rewrites == b.s1.rewrites
  {
    hide ValidRun, AllOk, IsRewriteMerge, RemoveAll;
    var removes, adds := RewritesLeft(ctx, a);
    var removes', adds' := RewritesLeft(ctx, b);
    MergesPermute(a.s0.rewrites, a.o0.rewrites, removes, adds, removes', adds');
    RemovesPermute(a.s0.rewrites, removes, removes');
  }

  lemma RewritesLeft(ctx: Context, run: ActionRun) returns (removes: seq<RewriteEntry>, adds: seq<RewriteEntry>)
    requires ValidRun(ctx, run) && run.act.RewritesAction? && AllOk(run.events)
    ensures IsRewriteMerge(run.s0.rewrites, run.o0.rewrites, removes, adds)
    ensures run.s1.rewrites == RemoveAll(run.s0.rewrites, removes) + adds
  {
    ErrorFree(ctx, run);
    hide ValidRun, IsRewriteMerge, RewriteSteps, Replay, Executes, RemoveAll, AllOk;
    removes, adds :| IsRewriteMerge(run.s0.rewrites, run.o0.rewrites, removes, adds)
      && run.plan == RewriteSteps(removes, adds);
    RoundInOrder(run.s0, removes, adds, AfterTheRead(run));
  }

  lemma RoundInOrder(s: Instance, removes: seq<RewriteEntry>, adds: seq<RewriteEntry>, events: seq<Event>)
    requires Executes(RewriteSteps(removes, adds), events, false)
    ensures Replay(s, events).rewrites == RemoveAll(s.rewrites, removes) + adds
  {
    hide RemoveAll, Replay, Underway;
    RewritesInOrder(s, removes, adds, events);
    assert removes[..|removes|] == removes && adds[..|adds|] == adds;
    assert RemoveAll(s.rewrites, removes) + [] == RemoveAll(s.rewrites, removes);
  }

  // ---- A server that deletes every copy ----

  // What is left when a delete takes every copy of an entry.
  function DropEntry(s: seq<RewriteEntry>, e: RewriteEntry): seq<RewriteEntry>
  {
    if s == [] then []
    else
      var n := |s| - 1;
      if s[n] == e then DropEntry(s[..n], e) else DropEntry(s[..n], e) + [s[n]]
  }

  function DropAll(s: seq<RewriteEntry>, removes: seq<RewriteEntry>): seq<RewriteEntry>
  {
    if removes == [] then s
    else DropEntry(DropAll(s, removes[..|removes| - 1]), removes[|removes| - 1])
  }

  lemma {:induction false} DropEntryCount(s: seq<RewriteEntry>, e: RewriteEntry)
    ensures multiset(DropEntry(s, e)) == multiset(s)[e := 0]
  {
    if s != [] {
      var n := |s| - 1;
      DropEntryCount(s[..n], e);
      assert s == s[..n] + [s[n]];
    }
  }

  lemma {:induction false} DropAllCount(s: seq<RewriteEntry>, removes: seq<RewriteEntry>, e: RewriteEntry)
    ensures multiset(DropAll(s, removes))[e] == if e in removes then 0 else multiset(s)[e]
  {
    if removes != [] {
      var n := |removes| - 1;
      DropAllCount(s, removes[..n], e);
      DropEntryCount(DropAll(s, removes[..n]), removes[n]);
      assert removes == removes[..n] + [removes[n]];
    }
  }

  // The rewrites one error-free round leaves on such a server.
  function AfterDropping(current: seq<RewriteEntry>, removes: seq<RewriteEntry>,
                         adds: seq<RewriteEntry>): seq<RewriteEntry>
  {
    DropAll(current, removes) + adds
  }

  // If a list holds one entry only of a key, the key counts as often as the entry.
  lemma {:induction false} OneEntryOfKey(s: seq<RewriteEntry>, f: RewriteEntry)
    requires forall e | e in s && e.Key() == f.Key() :: e == f
    ensures KeyBag(s)[f.Key()] == multiset(s)[f]
  {
    KeyBagEmpty();
    hide KeyBag, RewriteEntry.Key;
    if s != [] {
      var n := |s| - 1;
      assert s == s[..n] + [s[n]] && s[n] in s;
      forall e | e in s[..n] && e.Key() == f.Key() ensures e == f { assert e in s; }
      OneEntryOfKey(s[..n], f);
      KeyBagOne(s[..n], s[n]);
    }
  }

  lemma NoEntryOfKey(s: seq<RewriteEntry>, key: string)
    requires forall e | e in s :: e.Key() != key
    ensures KeyBag(s)[key] == 0
  {
    hide RewriteEntry.Key;
    if KeyBag(s)[key] > 0 { var e := KeyHasEntry(s, key); }
  }

  lemma {:induction false} KeyHasEntry(s: seq<RewriteEntry>, key: string) returns (e: RewriteEntry)
    requires KeyBag(s)[key] > 0
    ensures e in s && e.Key() == key
  {
    KeyBagEmpty();
    hide KeyBag, RewriteEntry.Key;
    var n := |s| - 1;
    assert s == s[..n] + [s[n]] && s[n] in s;
    KeyBagOne(s[..n], s[n]);
    if s[n].Key() == key { e := s[n]; } else {
      e := KeyHasEntry(s[..n], key);
      assert e in s;
    }
  }

  // Among the entries of a key on the replica every one but the first is a further copy.
  lemma FirstOrFurther(current: seq<RewriteEntry>, e: RewriteEntry)
    requires e in current && e !in FurtherCopies(current, |current|)
    ensures e.Key() in FirstCopies(current, |current|) && FirstCopies(current, |current|)[e.Key()] == e
    ensures multiset(current)[e] == 1
  {
    FirstsAreKept(current, |current|);
    hide FirstCopies, FurtherCopies, KeysKept, RewriteEntry.Key;
    assert current[..|current|] == current;
    assert multiset(current)[e] > 0 && multiset(FurtherCopies(current, |current|))[e] == 0;
  }

  lemma FirstIsThere(current: seq<RewriteEntry>, key: string)
    requires key in FirstCopies(current, |current|)
    ensures FirstCopies(current, |current|)[key].Key() == key && FirstCopies(current, |current|)[key] in current
  {
    FirstsAreKept(current, |current|);
    var f := FirstCopies(current, |current|)[key];
    hide FirstCopies, FurtherCopies, KeysKept, RewriteEntry.Key;
    assert current[..|current|] == current && multiset(current)[f] > 0;
  }

  // The entries of a key that survive the deletes.
  lemma SurvivingKey(current: seq<RewriteEntry>, origin: seq<RewriteEntry>, removes: seq<RewriteEntry>,
                     adds: seq<RewriteEntry>, key: string)
    requires IsRewriteMerge(current, origin, removes, adds)
    ensures var firsts, copies := FirstCopies(current, |current|), FurtherCopies(current, |current|);
            KeyBag(DropAll(current, removes))[key] ==
            if key in firsts && key in FirstCopies(origin, |origin|) && firsts[key] !in copies then 1 else 0
  {
    var firsts, copies := FirstCopies(current, |current|), FurtherCopies(current, |current|);
    var left := DropAll(current, removes);
    var tail :| EntryListing(tail, UnmatchedFirsts(current, origin)) && removes == copies + tail;
    hide FirstCopies, FurtherCopies, NewFirsts, DropAll, KeyBag, RewriteEntry.Key;
    forall e | e in left
      ensures e in current && e !in copies && e !in tail && multiset(left)[e] == multiset(current)[e]
    {
      DropAllCount(current, removes, e);
    }
    forall e | e in left && e.Key() == key
      ensures key in firsts && firsts[key] == e && e !in copies && key in FirstCopies(origin, |origin|)
    {
      FirstOrFurther(current, e);
    }
    if key in firsts && key in FirstCopies(origin, |origin|) && firsts[key] !in copies {
      FirstIsThere(current, key);
      FirstOrFurther(current, firsts[key]);
      OneEntryOfKey(left, firsts[key]);
      DropAllCount(current, removes, firsts[key]);
    } else {
      NoEntryOfKey(left, key);
    }
  }

  lemma KeysOfFirsts(s: seq<RewriteEntry>)
    ensures forall k :: k in FirstCopies(s, |s|) <==> k in KeyBag(s)
  {
    FirstsAreKept(s, |s|);
  }

  // No copy of the first entry of a key the origin has follows it.
  ghost predicate FirstsAreSafe(current: seq<RewriteEntry>, origin: seq<RewriteEntry>)
  {
    var firsts := FirstCopies(current, |current|);
    forall k | k in firsts && k in FirstCopies(origin, |origin|) :: firsts[k] !in FurtherCopies(current, |current|)
  }

  lemma AfterDroppingBag(current: seq<RewriteEntry>, origin: seq<RewriteEntry>, removes: seq<RewriteEntry>,
                         adds: seq<RewriteEntry>, key: string)
    requires IsRewriteMerge(current, origin, removes, adds)
    ensures var firsts, copies := FirstCopies(current, |current|), FurtherCopies(current, |current|);
            KeyBag(AfterDropping(current, removes, adds))[key] ==
            if key in FirstCopies(origin, |origin|) && (key in firsts ==> firsts[key] !in copies) then 1 else 0
  {
    SurvivingKey(current, origin, removes, adds, key);
    KeyBagConcat(DropAll(current, removes), adds);
    MergeIsDiff(current, origin, removes, adds);
    KeysOfFirsts(current);
    KeysOfFirsts(origin);
    hide KeyBag, DropAll, FirstCopies, FurtherCopies, IsRewriteMerge;
  }

  // One error-free round reaches the origin's keys exactly when on the replica no further
  // copy of the first entry of a key the origin has is deleted: it takes the first along.
  lemma DroppingConverges(current: seq<RewriteEntry>, origin: seq<RewriteEntry>, removes: seq<RewriteEntry>,
                          adds: seq<RewriteEntry>)
    requires IsRewriteMerge(current, origin, removes, adds)
    ensures KeyBag(AfterDropping(current, removes, adds)) == KeyOnce(origin) <==> FirstsAreSafe(current, origin)
  {
    KeysOfFirsts(origin);
    var firsts, copies := FirstCopies(current, |current|), FurtherCopies(current, |current|);
    hide KeyBag, AfterDropping, FirstCopies, FurtherCopies, IsRewriteMerge;
    var bag := KeyBag(AfterDropping(current, removes, adds));
    forall k
      ensures bag[k] == if k in FirstCopies(origin, |origin|) && (k in firsts ==> firsts[k] !in copies) then 1 else 0
    {
      AfterDroppingBag(current, origin, removes, adds, k);
    }
    if bag == KeyOnce(origin) {
      forall k | k in firsts && k in FirstCopies(origin, |origin|) ensures firsts[k] !in copies {
        assert KeyOnce(origin)[k] == 1;
      }
    }
  }

  lemma NothingRepeated(s: seq<RewriteEntry>)
    requires forall k :: KeyBag(s)[k] <= 1
    ensures FurtherCopies(s, |s|) == []
  {
    assert KeyBag(s) == KeysUpTo(s, |s|);
    hide FirstCopies, FurtherCopies, KeyBag, EntriesKept, RewriteEntry.Key, KeyedByKey;
    FirstsAreKept(s, |s|);
    EmptyBag(FurtherCopies(s, |s|));
    assert forall k :: KeyBag(FurtherCopies(s, |s|))[k] == 0;
  }

  // ... but two rounds always do.
  lemma DroppingTwiceConverges(current: seq<RewriteEntry>, origin: seq<RewriteEntry>, removes: seq<RewriteEntry>,
                               adds: seq<RewriteEntry>, removes': seq<RewriteEntry>, adds': seq<RewriteEntry>)
    requires IsRewriteMerge(current, origin, removes, adds)
    requires IsRewriteMerge(AfterDropping(current, removes, adds), origin, removes', adds')
    ensures KeyBag(AfterDropping(AfterDropping(current, removes, adds), removes', adds')) == KeyOnce(origin)
  {
    var once := AfterDropping(current, removes, adds);
    forall k ensures KeyBag(once)[k] <= 1 {
      AfterDroppingBag(current, origin, removes, adds, k);
    }
    hide KeyBag, AfterDropping, IsRewriteMerge;
    NothingRepeated(once);
    DroppingConverges(once, origin, removes', adds');
  }
}
