// The client of one AdGuard Home instance. Any call may be answered in any way; what an
// answer means for the instance is the contract in Server.

module Api {
  import opened Sorting
  import opened Values
  import opened Server
  import opened Merging
  import opened Plans
  import opened Objects
  import opened Configs

  lemma NoEvents(plan: seq<Step>, s: Instance)
    ensures Underway(plan, []) && Executes([], [], false) && Replay(s, []) == s
  {}

  lemma OneMore(plan: seq<Step>, events: seq<Event>, e: Event)
    requires Underway(plan, events) && |events| < |plan| && e.call == plan[|events|].call
    ensures e.Ok() || plan[|events|].tolerated ==> Underway(plan, events + [e])
    ensures !e.Ok() && !plan[|events|].tolerated ==> Executes(plan, events + [e], true)
  {
    assert (events + [e])[..|events|] == events;
  }

  // A plan executed without error, then another.
  lemma ExecutesThen(p: seq<Step>, a: seq<Event>, q: seq<Step>, b: seq<Event>, err: bool)
    requires Executes(p, a, false) && Executes(q, b, err)
    ensures Executes(p + q, a + b, err)
  {
    if err {
      assert (a + b)[..|a + b| - 1] == a + b[..|b| - 1];
    }
  }

  // A plan that failed ends the action.
  lemma ExecutesStops(p: seq<Step>, a: seq<Event>, q: seq<Step>)
    requires Executes(p, a, true)
    ensures Executes(p + q, a, true)
  {}

  lemma ReplayThen(s: Instance, a: seq<Event>, b: seq<Event>)
    ensures Replay(Replay(s, a), b) == Replay(s, a + b)
  {
    ReplayConcat(s, a, b);
  }

  lemma ChangesSplit(list: ListId, removes: seq<Item>, adds: seq<Item>, updates: seq<Item>, tolerated: bool)
    ensures Steps(Changes(list, removes, adds, updates), tolerated) ==
            Steps(Changes(list, removes, [], []), tolerated) + Steps(Changes(list, [], adds, []), tolerated)
            + Steps(Changes(list, [], [], updates), tolerated)
  {
    assert Changes(list, removes, adds, updates)
        == Changes(list, removes, [], []) + Changes(list, [], adds, []) + Changes(list, [], [], updates);
  }

  // Listing and indexing a list by key are inverse.
  lemma ListingIsIndex(items: seq<Item>, m: map<string, Item>)
    requires Listing(items, m) && forall k | k in m :: m[k].Key() == k
    ensures ByKey(items) == m
  {
    forall k ensures k in ByKey(items) <==> k in m {
      IndexHas(items, |items|, k);
      if k in m { var i :| 0 <= i < |items| && items[i].Key() == k; }
    }
    forall k | k in m ensures ByKey(items)[k] == m[k] {
      IndexHas(items, |items|, k);
    }
  }

  lemma PartIsFiled(s: Instance, list: ListId)
    requires Filed(s)
    ensures forall k | k in Part(s.lists, list) ::
              Part(s.lists, list)[k].Key() == k && Belongs(list, Part(s.lists, list)[k])
  {}

  // A decoded list, in any order; an empty list may be nil.
  method DecodeList(m: map<string, Item>) returns (items: Option<seq<Item>>)
    requires forall k | k in m :: m[k].Key() == k
    ensures Listing(OrEmpty(items), m)
  {
    var some := RangeOver(m);
    var nil: bool := *;
    items := if nil && some == [] then None else Some(some);
  }

  // Decoded clients: one new object each.
  method InMemory(items: seq<Item>) returns (objects: seq<PersistentClient>)
    requires forall i | 0 <= i < |items| :: items[i].Client?
    ensures Views(objects) == items && Distinct(objects) && fresh(objects)
  {
    objects := [];
    for i := 0 to |items|
      invariant |objects| == i && forall j | 0 <= j < i :: objects[j].View() == items[j]
      invariant Distinct(objects) && fresh(objects)
    {
      var c := new PersistentClient(items[i]);
      objects := objects + [c];
    }
  }

  class ApiClient {
    var server: Instance
    ghost var trace: seq<Event>

    // Since the start of the calling method the client has made these calls.
    twostate predicate Moved(events: seq<Event>)
      reads this
    {
      server == Replay(old(server), events) && trace == old(trace) + events
    }

    // One call, answered in any way.
    method Do(call: Call) returns (reply: Reply, ghost e: Event)
      modifies this
      ensures e.call == call && e.reply == reply
      ensures server == After(old(server), e) && trace == old(trace) + [e]
    {
      reply := *;
      var given: bool := *;
      e := Event(call, reply, given);
      if reply.Done? { server := Effect(server, call, given); }
      trace := trace + [e];
    }

    // A read. What it answers is what the instance holds.
    method Read(what: Resource) returns (reply: Reply, s: Instance, ghost e: Event)
      modifies this
      ensures e.call == Call.Get(what) && e.reply == reply
      ensures server == old(server) && trace == old(trace) + [e]
      ensures reply.Done? ==> s == server
    {
      reply, e := Do(Call.Get(what));
      s := server;
    }

    method Get(what: Resource) returns (err: bool, s: Instance, ghost e: Event)
      modifies this
      ensures e.call == Call.Get(what) && err == !e.Ok()
      ensures server == old(server) && trace == old(trace) + [e]
      ensures !err ==> s == server
    {
      var reply;
      reply, s, e := Read(what);
      err := !reply.Done?;
    }

    // The clients of the instance, in any order.
    method Clients() returns (err: bool, clients: seq<PersistentClient>, ghost e: Event)
      requires Filed(server)
      modifies this
      ensures e.call == Call.Get(ClientList) && err == !e.Ok()
      ensures server == old(server) && trace == old(trace) + [e]
      ensures Distinct(clients) && fresh(clients)
      ensures !err ==> Listing(Views(clients), Part(server.lists, ListId.Clients))
    {
      var s;
      err, s, e := Get(ClientList);
      clients := [];
      if !err {
        var items := RangeOver(Part(s.lists, ListId.Clients));
        clients := InMemory(items);
      }
    }

    // Both filter lists of the instance.
    method Filters() returns (err: bool, block: Option<seq<Item>>, allow: Option<seq<Item>>, s: Instance,
                              ghost e: Event)
      requires Filed(server)
      modifies this
      ensures e.call == Call.Get(Filtering) && err == !e.Ok()
      ensures server == old(server) && trace == old(trace) + [e]
      ensures !err ==> s == server && Listing(OrEmpty(block), Part(server.lists, BlockLists))
                       && Listing(OrEmpty(allow), Part(server.lists, AllowLists))
    {
      err, s, e := Get(Filtering);
      block, allow := None, None;
      if !err {
        block := DecodeList(Part(s.lists, BlockLists));
        allow := DecodeList(Part(s.lists, AllowLists));
      }
    }

    // The static leases of the instance, in any order.
    method DhcpConfig() returns (err: bool, dhcp: DhcpStatus, ghost e: Event)
      requires Filed(server)
      modifies this
      ensures e.call == Call.Get(Resource.DhcpConfig) && err == !e.Ok()
      ensures server == old(server) && trace == old(trace) + [e] && fresh(dhcp)
      ensures !err ==>
                dhcp.View() == server.settings.dhcp && Listing(OrEmpty(dhcp.staticLeases), Part(server.lists, Leases))
    {
      var s;
      err, s, e := Get(Resource.DhcpConfig);
      var leases := None;
      if !err { leases := DecodeList(Part(s.lists, Leases)); }
      dhcp := new DhcpStatus(s.settings.dhcp, leases);
    }

    // One call if it is needed.
    method DoIf(needed: bool, call: Call, tolerated: bool) returns (err: bool, ghost events: seq<Event>)
      modifies this
      ensures Executes(OneStep(needed, call, tolerated), events, err) && Moved(events)
    {
      ghost var plan := OneStep(needed, call, tolerated);
      NoEvents(plan, server);
      err, events := false, [];
      if needed {
        ghost var e;
        var reply;
        reply, e := Do(call);
        OneMore(plan, [], e);
        ReplayOne(old(server), [], e);
        events := [] + [e];
        err := !reply.Done? && !tolerated;
      }
    }

    // One call of a loop; "before" are the calls made so far.
    method Next(call: Call, tolerated: bool, ghost plan: seq<Step>, ghost s0: Instance, ghost t0: seq<Event>,
                ghost before: seq<Event>)
      returns (stop: bool, ghost events: seq<Event>)
      requires Underway(plan, before) && |before| < |plan| && plan[|before|] == Step(call, tolerated)
      requires server == Replay(s0, before) && trace == t0 + before
      modifies this
      ensures |events| == |before| + 1 && server == Replay(s0, events) && trace == t0 + events
      ensures if stop then Executes(plan, events, true) else Underway(plan, events)
    {
      ghost var e;
      var reply;
      reply, e := Do(call);
      OneMore(plan, before, e);
      ReplayOne(s0, before, e);
      events := before + [e];
      stop := !reply.Done? && !tolerated;
    }

    // Deletes, adds and updates entries one by one. A failure is logged and ends the loop
    // unless errors are tolerated.
    method DeleteEach(list: ListId, items: seq<Item>, tolerated: bool) returns (err: bool, ghost events: seq<Event>)
      modifies this
      ensures Executes(Steps(Changes(list, items, [], []), tolerated), events, err) && Moved(events)
    {
      hide Replay;
      ghost var plan := Steps(Changes(list, items, [], []), tolerated);
      NoEvents(plan, server);
      events := [];
      for i := 0 to |items|
        invariant |events| == i && Underway(plan, events) && Moved(events)
      {
        err,
            events := Next(ListChange(Remove(Slot(list, items[i].Key()), items[i])), tolerated, plan, old(server),
                           old(trace), events);
        if err { return; }
      }
      err := false;
    }

    method AddEach(list: ListId, items: seq<Item>, tolerated: bool) returns (err: bool, ghost events: seq<Event>)
      modifies this
      ensures Executes(Steps(Changes(list, [], items, []), tolerated), events, err) && Moved(events)
    {
      hide Replay;
      ghost var plan := Steps(Changes(list, [], items, []), tolerated);
      NoEvents(plan, server);
      events := [];
      for i := 0 to |items|
        invariant |events| == i && Underway(plan, events) && Moved(events)
      {
        err,
            events := Next(ListChange(Add(Slot(list, items[i].Key()), items[i])), tolerated, plan, old(server),
                           old(trace), events);
        if err { return; }
      }
      err := false;
    }

    method UpdateEach(list: ListId, items: seq<Item>, tolerated: bool) returns (err: bool, ghost events: seq<Event>)
      modifies this
      ensures Executes(Steps(Changes(list, [], [], items), tolerated), events, err) && Moved(events)
    {
      hide Replay;
      ghost var plan := Steps(Changes(list, [], [], items), tolerated);
      NoEvents(plan, server);
      events := [];
      for i := 0 to |items|
        invariant |events| == i && Underway(plan, events) && Moved(events)
      {
        err,
            events := Next(ListChange(Update(Slot(list, items[i].Key()), items[i])), tolerated, plan, old(server),
                           old(trace), events);
        if err { return; }
      }
      err := false;
    }

    // The three loops of a list: deletes, then adds, then updates.
    method ApplyDiff(list: ListId, removes: seq<Item>, adds: seq<Item>, updates: seq<Item>, tolerated: bool)
      returns (err: bool, ghost events: seq<Event>)
      modifies this
      ensures Executes(Steps(Changes(list, removes, adds, updates), tolerated), events, err) && Moved(events)
    {
      hide Replay, Executes, Changes, Steps;
      ghost var p := Steps(Changes(list, removes, [], []), tolerated);
      ghost var q := Steps(Changes(list, [], adds, []), tolerated);
      ghost var r := Steps(Changes(list, [], [], updates), tolerated);
      ChangesSplit(list, removes, adds, updates, tolerated);
      err, events := DeleteEach(list, removes, tolerated);
      if err {
        ExecutesStops(p, events, q);
        ExecutesStops(p + q, events, r);
        return;
      }
      ghost var more;
      err, more := AddEach(list, adds, tolerated);
      ReplayThen(old(server), events, more);
      ExecutesThen(p, events, q, more, err);
      events := events + more;
      if err {
        ExecutesStops(p + q, events, r);
        return;
      }
      err, more := UpdateEach(list, updates, tolerated);
      ReplayThen(old(server), events, more);
      ExecutesThen(p + q, events, r, more, err);
      events := events + more;
    }

    method DeleteRewriteEntries(entries: seq<RewriteEntry>) returns (err: bool, ghost events: seq<Event>)
      modifies this
      ensures Executes(RewriteSteps(entries, []), events, err) && Moved(events)
    {
      hide Replay;
      ghost var plan := RewriteSteps(entries, []);
      NoEvents(plan, server);
      events := [];
      for i := 0 to |entries|
        invariant |events| == i && Underway(plan, events) && Moved(events)
      {
        err, events := Next(DeleteRewrite(entries[i]), false, plan, old(server), old(trace), events);
        if err { return; }
      }
      err := false;
    }

    method AddRewriteEntries(entries: seq<RewriteEntry>) returns (err: bool, ghost events: seq<Event>)
      modifies this
      ensures Executes(RewriteSteps([], entries), events, err) && Moved(events)
    {
      hide Replay;
      ghost var plan := RewriteSteps([], entries);
      NoEvents(plan, server);
      events := [];
      for i := 0 to |entries|
        invariant |events| == i && Underway(plan, events) && Moved(events)
      {
        err, events := Next(AddRewrite(entries[i]), false, plan, old(server), old(trace), events);
        if err { return; }
      }
      err := false;
    }

    method DeleteAndAddRewrites(removes: seq<RewriteEntry>, adds: seq<RewriteEntry>)
      returns (err: bool, ghost events: seq<Event>)
      modifies this
      ensures Executes(RewriteSteps(removes, adds), events, err) && Moved(events)
    {
      hide Replay, Executes;
      ghost var p, q := RewriteSteps(removes, []), RewriteSteps([], adds);
      assert RewriteSteps(removes, adds) == p + q;
      hide RewriteSteps;
      err, events := DeleteRewriteEntries(removes);
      if err {
        ExecutesStops(p, events, q);
        return;
      }
      ghost var more;
      err, more := AddRewriteEntries(adds);
      ReplayThen(old(server), events, more);
      ExecutesThen(p, events, q, more, err);
      events := events + more;
    }
  }
}
