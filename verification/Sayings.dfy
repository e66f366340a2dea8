// What the synchronization of rewrites leaves on a replica, said in domains and answers:
// the keys by which the program counts entries do not occur in the statements.

module Sayings {
  import opened Values
  import opened Server
  import opened Merging
  import opened Plans
  import opened Convergence
  import opened Rewrites
  import opened Meanings
  import opened Evolution
  import opened Safety
  import opened Syncing
  import opened Success
  import opened Visits
  import Guarantees

  predicate Says(s: seq<RewriteEntry>, pair: (string, string))
  {
    exists i :: 0 <= i < |s| && Saying(s[i]) == pair
  }

  // Each pair of domain and answer the origin has is there, once, and no other.
  ghost predicate SaysExactly(now: seq<RewriteEntry>, origin: seq<RewriteEntry>)
  {
    && (forall pair :: Says(now, pair) <==> Says(origin, pair))
    && (forall i, j | 0 <= i < j < |now| :: Saying(now[i]) != Saying(now[j]))
  }

  ghost predicate FirstOfKey(all: seq<RewriteEntry>, i: nat)
    requires i < |all|
  {
    forall h | 0 <= h < i :: all[h].Key() != all[i].Key()
  }

  // Every origin entry says what the first entry of its key says, replica before origin.
  ghost predicate FirstsSayIt(current: seq<RewriteEntry>, origin: seq<RewriteEntry>)
  {
    var all := current + origin;
    forall i, j | 0 <= i < |all| && 0 <= j < |origin| && all[i].Key() == origin[j].Key() && FirstOfKey(all, i) ::
      Saying(all[i]) == Saying(origin[j])
  }

  // Every entry is the first of its key.
  ghost predicate OnlyFirsts(now: seq<RewriteEntry>, all: seq<RewriteEntry>)
  {
    forall e | e in now :: exists i :: 0 <= i < |all| && all[i] == e && FirstOfKey(all, i)
  }

  lemma {:induction false} FirstCopyIs(s: seq<RewriteEntry>, n: nat, k: string)
    requires n <= |s|
    ensures if k in FirstCopies(s, n)
            then exists i :: 0 <= i < n && s[i] == FirstCopies(s, n)[k] && s[i].Key() == k && FirstOfKey(s, i)
            else forall i | 0 <= i < n :: s[i].Key() != k
  {
    hide RewriteEntry.Key;
    if n > 0 {
      FirstCopyIs(s, n - 1, k);
      if k in FirstCopies(s, n - 1) {
        var i :| 0 <= i < n - 1 && s[i] == FirstCopies(s, n - 1)[k] && s[i].Key() == k && FirstOfKey(s, i);
      } else if s[n - 1].Key() == k {
        assert FirstOfKey(s, n - 1);
      }
    }
  }

  lemma {:induction false} NewFirstIs(known: set<string>, s: seq<RewriteEntry>, n: nat, e: RewriteEntry)
    requires n <= |s| && e in NewFirsts(known, s, n)
    ensures e.Key() !in known && exists i :: 0 <= i < n && s[i] == e && FirstOfKey(s, i)
  {
    hide RewriteEntry.Key;
    if e in NewFirsts(known, s, n - 1) {
      NewFirstIs(known, s, n - 1, e);
    } else {
      FirstCopyIs(s, n - 1, e.Key());
      assert s[n - 1] == e && FirstOfKey(s, n - 1);
    }
  }

  lemma {:induction false} RemovedCount(s: seq<RewriteEntry>, removes: seq<RewriteEntry>)
    requires multiset(removes) <= multiset(s)
    ensures multiset(RemoveAll(s, removes)) == multiset(s) - multiset(removes)
  {
    if removes != [] {
      var n := |removes| - 1;
      assert removes == removes[..n] + [removes[n]];
      RemovedCount(s, removes[..n]);
      assert multiset(removes)[removes[n]] <= multiset(s)[removes[n]];
      assert multiset(removes) == multiset(removes[..n]) + multiset{removes[n]};
      assert multiset(RemoveAll(s, removes[..n]))[removes[n]] > 0;
      RemoveOneCopy(RemoveAll(s, removes[..n]), removes[n]);
    }
  }

  // What stays on the replica are first copies.
  lemma StayersAreFirsts(current: seq<RewriteEntry>, origin: seq<RewriteEntry>, removes: seq<RewriteEntry>,
                         adds: seq<RewriteEntry>, e: RewriteEntry)
    requires IsRewriteMerge(current, origin, removes, adds) && e in RemoveAll(current, removes)
    ensures e.Key() in FirstCopies(current, |current|) && FirstCopies(current, |current|)[e.Key()] == e
  {
    MergeIsDiff(current, origin, removes, adds);
    RemovedCount(current, removes);
    FirstsAreKept(current, |current|);
    hide FirstCopies, FurtherCopies, NewFirsts, EntryListing, RemoveAll, IsRewriteDiff, KeysKept;
    var unmatched := UnmatchedFirsts(current, origin);
    var tail :| EntryListing(tail, unmatched) && removes == FurtherCopies(current, |current|) + tail;
    ListingEntries(tail, unmatched);
    assert current[..|current|] == current;
    assert multiset(RemoveAll(current, removes))[e] > 0;
  }

  lemma StayerIsFirst(current: seq<RewriteEntry>, origin: seq<RewriteEntry>, e: RewriteEntry)
    requires e.Key() in FirstCopies(current, |current|) && FirstCopies(current, |current|)[e.Key()] == e
    ensures var all := current + origin; exists i :: 0 <= i < |all| && all[i] == e && FirstOfKey(all, i)
  {
    FirstCopyIs(current, |current|, e.Key());
    hide FirstCopies, RewriteEntry.Key;
    var i :| 0 <= i < |current| && current[i] == e && FirstOfKey(current, i);
    var all := current + origin;
    assert forall h | 0 <= h <= i :: all[h] == current[h];
    assert FirstOfKey(all, i);
  }

  lemma AddedIsFirst(current: seq<RewriteEntry>, origin: seq<RewriteEntry>, e: RewriteEntry)
    requires e in NewFirsts(FirstCopies(current, |current|).Keys, origin, |origin|)
    ensures var all := current + origin; exists i :: 0 <= i < |all| && all[i] == e && FirstOfKey(all, i)
  {
    hide FirstCopies, NewFirsts, RewriteEntry.Key, FirstOfKey;
    NewFirstIs(FirstCopies(current, |current|).Keys, origin, |origin|, e);
    FirstCopyIs(current, |current|, e.Key());
    var i :| 0 <= i < |origin| && origin[i] == e && FirstOfKey(origin, i);
    FirstAfter(current, origin, i);
  }

  lemma FirstAfter(current: seq<RewriteEntry>, origin: seq<RewriteEntry>, i: nat)
    requires i < |origin| && FirstOfKey(origin, i)
    requires forall h | 0 <= h < |current| :: current[h].Key() != origin[i].Key()
    ensures var all, n := current + origin, |current|; all[n + i] == origin[i] && FirstOfKey(all, n + i)
  {
    hide RewriteEntry.Key;
    var all, n := current + origin, |current|;
    forall h | 0 <= h < n + i ensures all[h].Key() != origin[i].Key() {
      if h >= n { assert all[h] == origin[h - n]; }
    }
  }

  lemma LeftAreFirsts(current: seq<RewriteEntry>, origin: seq<RewriteEntry>, removes: seq<RewriteEntry>,
                      adds: seq<RewriteEntry>)
    requires IsRewriteMerge(current, origin, removes, adds)
    ensures OnlyFirsts(RemoveAll(current, removes) + adds, current + origin)
  {
    hide FirstOfKey, RewriteEntry.Key, RemoveAll;
    var all := current + origin;
    forall e | e in RemoveAll(current, removes) + adds
      ensures exists i :: 0 <= i < |all| && all[i] == e && FirstOfKey(all, i)
    {
      if e in RemoveAll(current, removes) {
        StayersAreFirsts(current, origin, removes, adds, e);
        StayerIsFirst(current, origin, e);
      } else {
        AddedIsFirst(current, origin, e);
      }
    }
  }

  // ---- From keys to what entries say ----

  predicate HoldsKey(s: seq<RewriteEntry>, key: string)
  {
    exists i :: 0 <= i < |s| && s[i].Key() == key
  }

  // The keys of the origin, each once.
  ghost predicate KeysExactly(now: seq<RewriteEntry>, origin: seq<RewriteEntry>)
  {
    && (forall key :: HoldsKey(now, key) <==> HoldsKey(origin, key))
    && (forall i, j | 0 <= i < j < |now| :: now[i].Key() != now[j].Key())
  }

  lemma TwiceCounts(s: seq<RewriteEntry>, i: nat, j: nat)
    requires i < j < |s| && s[i].Key() == s[j].Key()
    ensures KeyBag(s)[s[i].Key()] > 1
  {
    hide KeyBag, RewriteEntry.Key;
    assert s == s[..j] + ([s[j]] + s[j + 1..]);
    KeyBagConcat(s[..j], [s[j]] + s[j + 1..]);
    KeyIsCounted(s[..j], i);
    KeyIsCounted([s[j]] + s[j + 1..], 0);
  }

  lemma KeyIsCounted(s: seq<RewriteEntry>, i: nat)
    requires i < |s|
    ensures KeyBag(s)[s[i].Key()] > 0
  {
    KeyAmong(s, |s|, s[i].Key());
  }

  lemma KeyIsThere(s: seq<RewriteEntry>, key: string)
    ensures key in KeyBag(s) <==> HoldsKey(s, key)
  {
    KeyAmong(s, |s|, key);
  }

  lemma OnceMeansExactly(now: seq<RewriteEntry>, origin: seq<RewriteEntry>)
    requires KeyBag(now) == KeyOnce(origin)
    ensures KeysExactly(now, origin)
  {
    KeyOnceCounts(origin);
    hide RewriteEntry.Key, KeyBag, KeyOnce, HoldsKey;
    forall key ensures HoldsKey(now, key) <==> HoldsKey(origin, key) {
      KeyIsThere(now, key);
      KeyIsThere(origin, key);
    }
    forall i, j | 0 <= i < j < |now| ensures now[i].Key() != now[j].Key() {
      if now[i].Key() == now[j].Key() { TwiceCounts(now, i, j); }
    }
  }

  lemma KeyOnceCounts(s: seq<RewriteEntry>)
    ensures forall k :: KeyOnce(s)[k] == if k in KeyBag(s) then 1 else 0
  {
    hide KeyBag;
  }

  lemma SameSayingSameKey(a: RewriteEntry, b: RewriteEntry)
    requires Saying(a) == Saying(b)
    ensures a.Key() == b.Key()
  {}

  lemma SameKeySameSaying(now: seq<RewriteEntry>, current: seq<RewriteEntry>, origin: seq<RewriteEntry>, i: nat, j: nat)
    requires OnlyFirsts(now, current + origin) && FirstsSayIt(current, origin)
    requires i < |origin| && j < |now| && origin[i].Key() == now[j].Key()
    ensures Saying(now[j]) == Saying(origin[i])
  {
    hide RewriteEntry.Key, Saying, FirstOfKey;
    var all := current + origin;
    assert now[j] in now;
    var h :| 0 <= h < |all| && all[h] == now[j] && FirstOfKey(all, h);
  }

  lemma EverySaying(now: seq<RewriteEntry>, current: seq<RewriteEntry>, origin: seq<RewriteEntry>,
                    pair: (string, string))
    requires KeysExactly(now, origin) && OnlyFirsts(now, current + origin) && FirstsSayIt(current, origin)
    ensures Says(now, pair) <==> Says(origin, pair)
  {
    hide RewriteEntry.Key, Saying, FirstsSayIt, OnlyFirsts;
    if Says(origin, pair) {
      var i :| 0 <= i < |origin| && Saying(origin[i]) == pair;
      assert HoldsKey(now, origin[i].Key());
      var j :| 0 <= j < |now| && now[j].Key() == origin[i].Key();
      SameKeySameSaying(now, current, origin, i, j);
    }
    if Says(now, pair) {
      var j :| 0 <= j < |now| && Saying(now[j]) == pair;
      assert HoldsKey(origin, now[j].Key());
      var i :| 0 <= i < |origin| && origin[i].Key() == now[j].Key();
      SameKeySameSaying(now, current, origin, i, j);
    }
  }

  lemma SayingsFromKeys(now: seq<RewriteEntry>, current: seq<RewriteEntry>, origin: seq<RewriteEntry>)
    requires KeysExactly(now, origin) && OnlyFirsts(now, current + origin) && FirstsSayIt(current, origin)
    ensures SaysExactly(now, origin)
  {
    hide RewriteEntry.Key, Saying, FirstsSayIt, OnlyFirsts, Says, HoldsKey;
    forall pair ensures Says(now, pair) <==> Says(origin, pair) { EverySaying(now, current, origin, pair); }
    forall i, j | 0 <= i < j < |now| ensures Saying(now[i]) != Saying(now[j]) {
      if Saying(now[i]) == Saying(now[j]) { SameSayingSameKey(now[i], now[j]); }
    }
  }

  lemma KeysFromSayings(now: seq<RewriteEntry>, current: seq<RewriteEntry>, origin: seq<RewriteEntry>)
    requires SaysExactly(now, origin) && OnlyFirsts(now, current + origin)
    ensures FirstsSayIt(current, origin)
  {
    hide RewriteEntry.Key, Saying, FirstOfKey;
    var all := current + origin;
    forall i, j | 0 <= i < |all| && 0 <= j < |origin| && all[i].Key() == origin[j].Key() && FirstOfKey(all, i)
      ensures Saying(all[i]) == Saying(origin[j])
    {
      assert Says(origin, Saying(origin[j]));
      var m :| 0 <= m < |now| && Saying(now[m]) == Saying(origin[j]);
      SameSayingSameKey(now[m], origin[j]);
      assert now[m] in now;
      var h :| 0 <= h < |all| && all[h] == now[m] && FirstOfKey(all, h);
      OneFirst(all, h, i);
    }
  }

  lemma OneFirst(all: seq<RewriteEntry>, h: nat, i: nat)
    requires h < |all| && i < |all| && FirstOfKey(all, h) && FirstOfKey(all, i) && all[h].Key() == all[i].Key()
    ensures h == i
  {
    hide RewriteEntry.Key;
  }

  // An error-free execution leaves the origin's pairs of domain and answer, each once,
  // exactly when every origin entry says what the first entry of its key says.
  lemma SayingsConvergeExactly(ctx: Context, run: ActionRun)
    requires ValidRun(ctx, run) && run.act.RewritesAction? && AllOk(run.events)
    ensures SaysExactly(run.s1.rewrites, run.o0.rewrites) <==> FirstsSayIt(run.s0.rewrites, run.o0.rewrites)
  {
    hide SaysExactly, FirstsSayIt, OnlyFirsts, KeysExactly, IsRewriteMerge, KeyBag, KeyOnce, RemoveAll;
    RewritesConverge(ctx, run);
    OnceMeansExactly(run.s1.rewrites, run.o0.rewrites);
    var removes, adds := RewritesLeft(ctx, run);
    hide ValidRun;
    LeftAreFirsts(run.s0.rewrites, run.o0.rewrites, removes, adds);
    if FirstsSayIt(run.s0.rewrites, run.o0.rewrites) {
      SayingsFromKeys(run.s1.rewrites, run.s0.rewrites, run.o0.rewrites);
    }
    if SaysExactly(run.s1.rewrites, run.o0.rewrites) {
      KeysFromSayings(run.s1.rewrites, run.s0.rewrites, run.o0.rewrites);
    }
  }

  // No domain name holds a '#', so in practice it always does.
  lemma PlainSayingsConverge(ctx: Context, run: ActionRun)
    requires ValidRun(ctx, run) && run.act.RewritesAction? && AllOk(run.events)
    requires forall e | e in run.s0.rewrites || e in run.o0.rewrites :: PlainEntry(e)
    ensures SaysExactly(run.s1.rewrites, run.o0.rewrites)
  {
    hide ValidRun, SaysExactly, PlainEntry, Saying, RewriteEntry.Key, FirstOfKey;
    forall a, b | PlainEntry(a) && PlainEntry(b) && a.Key() == b.Key() ensures Saying(a) == Saying(b) {
      KeyTells(a, b);
    }
    assert FirstsSayIt(run.s0.rewrites, run.o0.rewrites);
    SayingsConvergeExactly(ctx, run);
  }

  // ---- Every state on the way ----

  lemma PlannedAdds(act: Action, ctx: Context, o: Origin, s: Instance, plan: seq<Step>, j: nat)
    requires IsPlan(act, ctx, o, s, plan) && j < |plan| && plan[j].call.AddRewrite?
    ensures plan[j].call.entry in o.rewrites
  {
    PlanOwned(act, ctx, o, s, plan);
    assert Owns(act, plan[j].call);
    assert IsRewritesPlan(o, s, plan);
    hide IsPlan;
    var removes, adds := RewritesPlanIsDiff(o, s, plan);
    hide IsRewritesPlan, KeyBag;
    assert adds[j - |removes|] in multiset(adds);
  }

  lemma AddsAreOrigins(ctx: Context, run: ActionRun, j: nat)
    requires ValidRun(ctx, run) && j < |run.events| && run.events[j].call.AddRewrite?
    ensures run.events[j].call.entry in run.o0.rewrites
  {
    hide IsPlan, Executes, Replay, OriginAfter, Typed, Filed;
    var n := Reads(run.act, run.o0);
    ExecutesCalls(run.plan, run.events[n..], run.err);
    assert run.events[j] == run.events[n..][j - n];
    PlannedAdds(run.act, ctx, run.o0, run.s0, run.plan, j - n);
  }

  // Entries come from nowhere else.
  lemma {:induction false} EntriesFrom(s: Instance, events: seq<Event>, all: seq<RewriteEntry>)
    requires forall e | e in s.rewrites :: e in all
    requires forall i | 0 <= i < |events| && events[i].call.AddRewrite? :: events[i].call.entry in all
    ensures forall e | e in Replay(s, events).rewrites :: e in all
  {
    hide Configured, Changed;
    if events != [] {
      var n := |events| - 1;
      EntriesFrom(s, events[..n], all);
      if events[n].call.DeleteRewrite? { RemovedAmong(Replay(s, events[..n]).rewrites, events[n].call.entry); }
    }
  }

  lemma {:induction false} RemovedAmong(s: seq<RewriteEntry>, e: RewriteEntry)
    ensures forall x | x in RemoveOne(s, e) :: x in s
  {
    if s != [] && s[0] != e { RemovedAmong(s[1..], e); }
  }

  lemma VisitAdds(cfg: Config, o: Origin, run: SyncRun, k: nat)
    requires ValidSync(cfg, run) && SameNames(o, run.o0) && k < |Trace(run)| && Trace(run)[k].call.AddRewrite?
    ensures Trace(run)[k].call.entry in o.rewrites
  {
    hide ValidSync, ValidRun, SameNames, Trace;
    CallsAreFlagged(cfg, run, k);
    NoAddInGreeting(cfg, run, k);
    var i, j := ActionEvent(cfg, run, k);
    AddsAreOrigins(ContextFor(cfg, run.inst, run.s0), run.runs[i], j);
    RewritesInMemory(cfg, o, run, i);
  }

  lemma NoAddInGreeting(cfg: Config, run: SyncRun, k: nat)
    requires ValidSync(cfg, run) && k < |Trace(run)| && Trace(run)[k].call.AddRewrite?
    ensures k >= |run.hello|
  {
    hide Chained, Disciplined, ActionList;
    if k < |run.hello| { GreetingCalls(cfg.features, run.inst.autoSetup, run.hello, run.connected, k); }
  }

  lemma RewritesInMemory(cfg: Config, o: Origin, run: SyncRun, i: nat)
    requires ValidSync(cfg, run) && SameNames(o, run.o0) && i < |run.runs|
    ensures run.runs[i].o0.rewrites == o.rewrites
  {
    hide Chained, Greeting, ActionList, ValidRun, Loosely;
    var ctx := ContextFor(cfg, run.inst, run.s0);
    ChainLink(ctx, run.o0, run.s0, run.runs, i);
    Guarantees.LikeItself(run.o0);
    OriginStaysLoose(ctx, run.o0, run.o0, run.s0, run.runs, i);
    LooseRewrites(run.o0, run.runs[i].o0);
  }

  lemma LooseRewrites(a: Origin, b: Origin)
    requires Loosely(a, b)
    ensures a.rewrites == b.rewrites
  {}

  lemma SayingByKey(s: seq<RewriteEntry>, e: RewriteEntry)
    requires PlainEntry(e) && forall x | x in s :: PlainEntry(x)
    ensures Says(s, Saying(e)) <==> e.Key() in KeyBag(s)
  {
    KeyIsThere(s, e.Key());
    hide KeyBag, RewriteEntry.Key, Saying, PlainEntry;
    forall i | 0 <= i < |s| ensures s[i].Key() == e.Key() <==> Saying(s[i]) == Saying(e) {
      assert s[i] in s;
      KeyTells(s[i], e);
    }
  }

  lemma BetweenSays(o: Origin, initial: Instance, s: Instance, e: RewriteEntry)
    requires KeysBetween(o, initial, s) && forall x | x in s.rewrites :: x in initial.rewrites || x in o.rewrites
    requires PlainEntry(e) && forall x | x in initial.rewrites || x in o.rewrites :: PlainEntry(x)
    ensures Says(s.rewrites, Saying(e)) ==> Says(initial.rewrites, Saying(e)) || Says(o.rewrites, Saying(e))
    ensures Says(initial.rewrites, Saying(e)) && Says(o.rewrites, Saying(e)) ==> Says(s.rewrites, Saying(e))
  {
    hide KeyBag, Says, Saying, PlainEntry;
    SayingByKey(s.rewrites, e);
    SayingByKey(initial.rewrites, e);
    SayingByKey(o.rewrites, e);
  }

  // Whatever fails: in every state of a visit a pair of domain and answer that origin and
  // replica share is there, and every pair there is one of the two had. No domain holds a '#'.
  lemma SayingsBetween(cfg: Config, o: Origin, run: SyncRun, k: nat, e: RewriteEntry)
    requires ValidSync(cfg, run) && SameNames(o, run.o0) && k <= |Trace(run)|
    requires PlainEntry(e) && forall x | x in run.s0.rewrites || x in o.rewrites :: PlainEntry(x)
    ensures var now := Replay(run.s0, Trace(run)[..k]).rewrites;
      && (Says(now, Saying(e)) ==> Says(run.s0.rewrites, Saying(e)) || Says(o.rewrites, Saying(e)))
      && (Says(run.s0.rewrites, Saying(e)) && Says(o.rewrites, Saying(e)) ==> Says(now, Saying(e)))
  {
    hide ValidSync, SameNames, PlainEntry, Saying, Says, KeysBetween, Trace;
    SyncIsSafe(cfg, o, run, k);
    var events := Trace(run)[..k];
    forall i | 0 <= i < k && events[i].call.AddRewrite? ensures events[i].call.entry in run.s0.rewrites + o.rewrites {
      VisitAdds(cfg, o, run, i);
    }
    EntriesFrom(run.s0, events, run.s0.rewrites + o.rewrites);
    BetweenSays(o, run.s0, Replay(run.s0, events), e);
  }
}
