// The objects of the configuration that comparisons change in place.

module Objects {
  import opened Sorting
  import opened Values
  import opened Merging
  import opened Plans

  // A client in memory. Comparing sorts its lists and writes its schedule's time zone.
  class PersistentClient {
    const name: string
    var ids: Option<seq<string>>
    var tags: Option<seq<string>>
    var blockedServices: Option<seq<string>>
    var upstreams: Option<seq<string>>
    var schedule: Option<Schedule>
    const rest: Json

    constructor (c: Item)
      requires c.Client?
      ensures View() == c
    {
      name, ids, tags := c.clientName, c.ids, c.tags;
      blockedServices, upstreams, schedule, rest := c.blockedServices, c.upstreams, c.schedule, c.rest;
    }

    function View(): (c: Item)
      reads this
      ensures c.Client? && c.Key() == name
    {
      Item.Client(name, ids, tags, blockedServices, upstreams, schedule, rest)
    }

    method Sort()
      modifies this
      ensures View() == SortLists(old(View()))
    {
      ids := SortOpt(ids);
      tags := SortOpt(tags);
      blockedServices := SortOpt(blockedServices);
      upstreams := SortOpt(upstreams);
    }

    // Takes the time zone out of a schedule without a day, and returns it.
    method PrepareDiff() returns (tz: Option<string>)
      modifies this`schedule
      ensures View() == if HasDay(old(View())) then old(View()) else WithoutZone(old(View()))
      ensures tz == if schedule.Some? && !HasDay(old(View())) then old(schedule.value.timeZone) else None
    {
      tz := None;
      if schedule.Some? && !schedule.value.HasDay() {
        tz := schedule.value.timeZone;
        schedule := Some(schedule.value.(timeZone := None));
      }
    }

    // Writes a time zone back, whatever the schedule.
    method AfterDiff(tz: Option<string>)
      modifies this`schedule
      ensures schedule == if old(schedule).Some? then Some(old(schedule).value.(timeZone := tz)) else None
    {
      if schedule.Some? {
        schedule := Some(schedule.value.(timeZone := tz));
      }
    }

    // Compares two clients and leaves both as a comparison leaves them.
    method Equals(o: PersistentClient) returns (eq: bool)
      requires this != o
      modifies this, o
      ensures eq <==> ClientEq(old(View()), old(o.View()))
      ensures View() == Touched(old(View())) && o.View() == Touched(old(o.View()))
    {
      Sort();
      o.Sort();
      var tz := PrepareDiff();
      var tzO := o.PrepareDiff();
      eq := View() == o.View();
      AfterDiff(tz);
      o.AfterDiff(tzO);
    }
  }

  // ---- Lists of clients ----

  function Views(objects: seq<PersistentClient>): (r: seq<Item>)
    reads objects
    ensures |r| == |objects| && AllBelong(Clients, r)
    ensures forall i | 0 <= i < |objects| :: r[i] == objects[i].View()
  {
    if objects == [] then [] else Views(objects[..|objects| - 1]) + [objects[|objects| - 1].View()]
  }

  ghost predicate Distinct(objects: seq<PersistentClient>)
  {
    forall i, j | 0 <= i < j < |objects| :: objects[i] != objects[j]
  }

  // The first n objects by name; the last of a name wins.
  function ObjectIndex(objects: seq<PersistentClient>, n: nat): (m: map<string, PersistentClient>)
    requires n <= |objects|
    ensures forall k | k in m :: m[k].name == k
  {
    if n == 0 then map[] else ObjectIndex(objects, n - 1)[objects[n - 1].name := objects[n - 1]]
  }

  lemma {:induction false} ObjectIndexViews(objects: seq<PersistentClient>, n: nat)
    requires n <= |objects|
    ensures ObjectIndex(objects, n).Keys == Index(Views(objects), n).Keys
    ensures forall k | k in ObjectIndex(objects, n) :: ObjectIndex(objects, n)[k].View() == Index(Views(objects), n)[k]
  {
    if n > 0 { ObjectIndexViews(objects, n - 1); }
  }

  lemma {:induction false} ObjectIndexIn(objects: seq<PersistentClient>, n: nat, i: nat)
    requires i < n <= |objects|
    ensures objects[i].name in ObjectIndex(objects, n)
    ensures (forall j | i < j < n :: objects[j].name != objects[i].name) ==>
              ObjectIndex(objects, n)[objects[i].name] == objects[i]
  {
    if i < n - 1 { ObjectIndexIn(objects, n - 1, i); }
  }

  lemma {:induction false} ObjectIndexFrom(objects: seq<PersistentClient>, n: nat, k: string) returns (i: nat)
    requires n <= |objects| && k in ObjectIndex(objects, n)
    ensures i < n && objects[i] == ObjectIndex(objects, n)[k] && forall j | i < j < n :: objects[j].name != k
  {
    if objects[n - 1].name == k { i := n - 1; } else { i := ObjectIndexFrom(objects, n - 1, k); }
  }

  method IndexObjects(objects: seq<PersistentClient>) returns (m: map<string, PersistentClient>)
    ensures m == ObjectIndex(objects, |objects|)
  {
    m := map[];
    for i := 0 to |objects|
      invariant m == ObjectIndex(objects, i)
    {
      m := m[objects[i].name := objects[i]];
    }
  }

  // The objects of m under the given names, each once.
  ghost predicate Picks(objects: seq<PersistentClient>, m: map<string, PersistentClient>, names: set<string>)
  {
    && (forall i, j | 0 <= i < j < |objects| :: objects[i].name != objects[j].name)
    && (forall i | 0 <= i < |objects| :: objects[i].name in names && objects[i].name in m
          && m[objects[i].name] == objects[i])
    && (forall k | k in names :: exists i :: 0 <= i < |objects| && objects[i].name == k)
  }

  lemma PickOne(objects: seq<PersistentClient>, m: map<string, PersistentClient>, names: set<string>, k: string)
    requires Picks(objects, m, names) && k in m && m[k].name == k && k !in names
    ensures Picks(objects + [m[k]], m, names + {k})
  {
    var longer := objects + [m[k]];
    forall n | n in names + {k} ensures exists i :: 0 <= i < |longer| && longer[i].name == n {
      if n == k {
        assert longer[|objects|].name == n;
      } else {
        var i :| 0 <= i < |objects| && objects[i].name == n;
        assert longer[i].name == n;
      }
    }
  }

  lemma PicksList(objects: seq<PersistentClient>, m: map<string, PersistentClient>, names: set<string>,
                  items: map<string, Item>)
    requires Picks(objects, m, names) && items.Keys == names
    requires forall k | k in names && k in m :: m[k].View() == items[k]
    ensures Listing(Views(objects), items)
  {
    var views := Views(objects);
    forall k | k in items ensures HasKey(views, k) {
      var i :| 0 <= i < |objects| && objects[i].name == k;
      assert views[i].Key() == k;
    }
  }

  // A range loop over a map of objects, in any order.
  method RangeOverObjects(m: map<string, PersistentClient>) returns (objects: seq<PersistentClient>)
    requires forall k | k in m :: m[k].name == k
    ensures Picks(objects, m, m.Keys)
  {
    objects := [];
    var rest := m;
    while rest != map[]
      invariant forall k | k in rest :: k in m && rest[k] == m[k]
      invariant Picks(objects, m, m.Keys - rest.Keys)
      decreases |rest|
    {
      var k :| k in rest;
      PickOne(objects, m, m.Keys - rest.Keys, k);
      objects := objects + [rest[k]];
      assert m.Keys - (rest - {k}).Keys == m.Keys - rest.Keys + {k};
      assert (rest - {k}).Keys == rest.Keys - {k};
      rest := rest - {k};
    }
    assert m.Keys - rest.Keys == m.Keys;
  }

  ghost predicate Named(m: map<string, PersistentClient>)
  {
    forall k | k in m :: m[k].name == k
  }

  // No client is on both sides.
  ghost predicate Separate(a: map<string, PersistentClient>, b: map<string, PersistentClient>)
  {
    forall j, k | j in a && k in b :: a[j] != b[k]
  }

  ghost function ViewMap(m: map<string, PersistentClient>): (v: map<string, Item>)
    reads m.Values
    ensures v.Keys == m.Keys && forall k | k in m :: v[k] == m[k].View()
  {
    map k | k in m :: m[k].View()
  }

  // The names in done have been dealt with: where both sides have one, both clients are
  // left as a comparison leaves them; all others are as they were.
  ghost predicate ComparedSoFar(initial: map<string, PersistentClient>, expected: map<string, PersistentClient>,
                                cur: map<string, Item>, exp: map<string, Item>, done: set<string>)
    reads initial.Values, expected.Values
    requires initial.Keys == cur.Keys && expected.Keys == exp.Keys
    requires forall k | k in exp :: exp[k].Client?
  {
    && (forall k | k in expected :: expected[k].View() == if k in done && k in initial then Touched(exp[k]) else exp[k])
    && (forall k | k in initial && k !in done :: initial[k].View() == cur[k])
  }

  method CompareOne(initial: map<string, PersistentClient>, expected: map<string, PersistentClient>, k: string,
                    ghost cur: map<string, Item>, ghost exp: map<string, Item>, ghost done: set<string>)
    returns (eq: bool)
    requires Named(initial) && Named(expected) && Separate(initial, expected)
    requires initial.Keys == cur.Keys && expected.Keys == exp.Keys
    requires forall k | k in exp :: exp[k].Client?
    requires k in initial && k in expected && k !in done
    requires ComparedSoFar(initial, expected, cur, exp, done)
    modifies initial[k], expected[k]
    ensures ComparedSoFar(initial, expected, cur, exp, done + {k})
    ensures cur[k].Client? && (eq <==> ClientEq(exp[k], cur[k]))
  {
    hide ClientEq, Touched, PersistentClient.View;
    var cl, oc := expected[k], initial[k];
    assert forall j | j in expected && j != k :: expected[j] != cl && expected[j] != oc;
    assert forall j | j in initial && j != k :: initial[j] != cl && initial[j] != oc;
    eq := cl.Equals(oc);
  }

  // The names that occur on both sides with clients that differ.
  ghost function Differing(cur: map<string, Item>, exp: map<string, Item>, done: set<string>): set<string>
  {
    set k | k in done && k in cur && k in exp && !Same(cur[k], exp[k])
  }

  lemma DifferingOne(cur: map<string, Item>, exp: map<string, Item>, done: set<string>, k: string)
    requires k in cur && k in exp && k !in done && cur[k].Client? && exp[k].Client?
    ensures Differing(cur, exp, done + {k}) ==
            if ClientEq(exp[k], cur[k]) then Differing(cur, exp, done) else Differing(cur, exp, done) + {k}
    ensures k !in Differing(cur, exp, done)
  {}

  lemma DifferingNone(cur: map<string, Item>, exp: map<string, Item>, done: set<string>, k: string)
    requires k !in cur
    ensures Differing(cur, exp, done + {k}) == Differing(cur, exp, done)
  {}

  // What the loop over the expected clients has sorted out once the names in done are
  // dealt with.
  ghost predicate SortedOut(initial: map<string, PersistentClient>, expected: map<string, PersistentClient>,
                            cur: map<string, Item>, exp: map<string, Item>, done: set<string>, rest: map<string,
      PersistentClient>, current: map<string, PersistentClient>, adds: seq<PersistentClient>,
      updates: seq<PersistentClient>)
  {
    && rest == expected - done && done <= expected.Keys && current == initial - done
    && Picks(adds, expected, done - initial.Keys) && Picks(updates, expected, Differing(cur, exp, done))
  }

  lemma NothingSortedOut(initial: map<string, PersistentClient>, expected: map<string, PersistentClient>,
                         cur: map<string, Item>, exp: map<string, Item>)
    ensures SortedOut(initial, expected, cur, exp, {}, expected, initial, [], [])
  {
    NewNames({}, initial.Keys, "");
    DifferingEmpty(cur, exp);
    PickNone(expected);
  }

  lemma SortMatched(initial: map<string, PersistentClient>, expected: map<string, PersistentClient>, cur: map<string,
                    Item>, exp: map<string, Item>, done: set<string>, rest: map<string, PersistentClient>,
      current: map<string, PersistentClient>, adds: seq<PersistentClient>, updates: seq<PersistentClient>, k: string)
    requires SortedOut(initial, expected, cur, exp, done, rest, current, adds, updates) && Named(expected)
    requires k in rest && k in current && k in cur && k in exp && cur[k].Client? && exp[k].Client?
    ensures SortedOut(initial, expected, cur, exp, done + {k}, rest - {k}, current - {k}, adds,
              if ClientEq(exp[k], cur[k]) then updates else updates + [rest[k]])
  {
    hide Picks, ClientEq, Differing;
    MinusOne(expected, done, k);
    MinusOne(initial, done, k);
    NewNames(done, initial.Keys, k);
    DifferingOne(cur, exp, done, k);
    if !ClientEq(exp[k], cur[k]) { PickOne(updates, expected, Differing(cur, exp, done), k); }
  }

  lemma SortNew(initial: map<string, PersistentClient>, expected: map<string, PersistentClient>, cur: map<string, Item>,
                exp: map<string, Item>, done: set<string>, rest: map<string, PersistentClient>, current: map<string,
      PersistentClient>, adds: seq<PersistentClient>, updates: seq<PersistentClient>, k: string)
    requires SortedOut(initial, expected, cur, exp, done, rest, current, adds, updates) && Named(expected)
    requires k in rest && k !in current && initial.Keys == cur.Keys
    ensures SortedOut(initial, expected, cur, exp, done + {k}, rest - {k}, current, adds + [rest[k]], updates)
  {
    hide Picks, Differing;
    MinusOne(expected, done, k);
    MinusOne(initial, done, k);
    NewNames(done, initial.Keys, k);
    DifferingNone(cur, exp, done, k);
    PickOne(adds, expected, done - initial.Keys, k);
  }

  // Compares the expected clients, in any order, with the current ones of the same name.
  method CompareExpected(initial: map<string, PersistentClient>, expected: map<string, PersistentClient>,
                         ghost cur: map<string, Item>, ghost exp: map<string, Item>)
    returns (adds: seq<PersistentClient>, updates: seq<PersistentClient>, current: map<string, PersistentClient>)
    requires Named(initial) && Named(expected) && Separate(initial, expected)
    requires cur == ViewMap(initial) && exp == ViewMap(expected)
    modifies initial.Values, expected.Values
    ensures SortedOut(initial, expected, cur, exp, expected.Keys, map[], current, adds, updates)
    ensures ComparedSoFar(initial, expected, cur, exp, expected.Keys)
    ensures Named(current)
  {
    hide SortedOut, ClientEq, PersistentClient.View, ComparedSoFar;
    adds, updates, current := [], [], initial;
    var rest := expected;
    ghost var done: set<string> := {};
    NothingSortedOut(initial, expected, cur, exp);
    NothingCompared(initial, expected);
    while rest != map[]
      invariant SortedOut(initial, expected, cur, exp, done, rest, current, adds, updates)
      invariant ComparedSoFar(initial, expected, cur, exp, done)
      decreases |rest|
    {
      var k :| k in rest;
      var cl := rest[k];
      SortedKey(initial, expected, cur, exp, done, rest, current, adds, updates, k);
      if k in current {
        SortMatched(initial, expected, cur, exp, done, rest, current, adds, updates, k);
        var eq := CompareOne(initial, expected, k, cur, exp, done);
        if !eq {
          updates := updates + [cl];
        }
        current := current - {k};
      } else {
        SortNew(initial, expected, cur, exp, done, rest, current, adds, updates, k);
        NotCurrent(initial, expected, cur, exp, done, k);
        adds := adds + [cl];
      }
      done := done + {k};
      rest := rest - {k};
    }
    AllSortedOut(initial, expected, cur, exp, done, rest, current, adds, updates);
  }

  lemma SortedKey(initial: map<string, PersistentClient>, expected: map<string, PersistentClient>, cur: map<string,
                  Item>, exp: map<string, Item>, done: set<string>, rest: map<string, PersistentClient>,
      current: map<string, PersistentClient>, adds: seq<PersistentClient>, updates: seq<PersistentClient>, k: string)
    requires SortedOut(initial, expected, cur, exp, done, rest, current, adds, updates) && k in rest
    ensures k in expected && k !in done && rest[k] == expected[k] && |rest - {k}| < |rest|
    ensures k in current <==> k in initial
    ensures k in current ==> current[k] == initial[k]
  {
    MinusOne(expected, done, k);
  }

  lemma AllSortedOut(initial: map<string, PersistentClient>, expected: map<string, PersistentClient>, cur: map<string,
                     Item>, exp: map<string, Item>, done: set<string>, rest: map<string, PersistentClient>,
      current: map<string, PersistentClient>, adds: seq<PersistentClient>, updates: seq<PersistentClient>)
    requires SortedOut(initial, expected, cur, exp, done, rest, current, adds, updates) && rest == map[]
    requires Named(initial)
    ensures done == expected.Keys && Named(current)
  {
    forall k | k in expected ensures k in done { assert k !in rest; }
  }

  lemma NothingCompared(initial: map<string, PersistentClient>, expected: map<string, PersistentClient>)
    ensures ComparedSoFar(initial, expected, ViewMap(initial), ViewMap(expected), {})
  {}

  lemma NewNames(done: set<string>, names: set<string>, k: string)
    ensures done + {k} - names == if k in names then done - names else done - names + {k}
    ensures {} - names == {}
  {}

  lemma MinusOne<T>(m: map<string, T>, done: set<string>, k: string)
    ensures m - (done + {k}) == if k in m - done then (m - done) - {k} else m - done
    ensures k in m - done ==> |(m - done) - {k}| < |m - done|
  {
    if k in m - done { assert ((m - done) - {k}).Keys == (m - done).Keys - {k}; }
  }

  lemma NotCurrent(initial: map<string, PersistentClient>, expected: map<string, PersistentClient>, cur: map<string,
                   Item>, exp: map<string, Item>, done: set<string>, k: string)
    requires initial.Keys == cur.Keys && expected.Keys == exp.Keys
    requires forall k | k in exp :: exp[k].Client?
    requires k !in initial && ComparedSoFar(initial, expected, cur, exp, done)
    ensures ComparedSoFar(initial, expected, cur, exp, done + {k})
  {}

  lemma DifferingEmpty(cur: map<string, Item>, exp: map<string, Item>)
    ensures Differing(cur, exp, {}) == {}
  {}

  lemma PickNone(m: map<string, PersistentClient>)
    ensures Picks([], m, {})
  {}

  // ---- Clients.Merge ----

  lemma IndexWithin(objects: seq<PersistentClient>)
    ensures ObjectIndex(objects, |objects|).Values <= set c | c in objects
  {
    forall c | c in ObjectIndex(objects, |objects|).Values ensures c in objects {
      var k :| k in ObjectIndex(objects, |objects|) && ObjectIndex(objects, |objects|)[k] == c;
      var i := ObjectIndexFrom(objects, |objects|, k);
    }
  }

  lemma IndexesSeparate(replica: seq<PersistentClient>, other: seq<PersistentClient>)
    requires Distinct(replica + other)
    ensures Separate(ObjectIndex(replica, |replica|), ObjectIndex(other, |other|))
  {
    var a, b := ObjectIndex(replica, |replica|), ObjectIndex(other, |other|);
    forall j, k | j in a && k in b ensures a[j] != b[k] {
      var x := ObjectIndexFrom(replica, |replica|, j);
      var y := ObjectIndexFrom(other, |other|, k);
      assert (replica + other)[x] == a[j] && (replica + other)[|replica| + y] == b[k];
    }
  }

  lemma IndexedViews(objects: seq<PersistentClient>)
    ensures ViewMap(ObjectIndex(objects, |objects|)) == ByKey(Views(objects))
  {
    ObjectIndexViews(objects, |objects|);
  }

  lemma Apart(replica: seq<PersistentClient>, other: seq<PersistentClient>)
    requires Distinct(replica + other)
    ensures forall i, j | 0 <= i < j < |other| :: other[i] != other[j]
    ensures forall i, j | 0 <= i < |replica| && 0 <= j < |other| :: replica[i] != other[j]
  {
    forall i, j | 0 <= i < j < |other| ensures other[i] != other[j] {
      assert (replica + other)[|replica| + i] == other[i] && (replica + other)[|replica| + j] == other[j];
    }
    forall i, j | 0 <= i < |replica| && 0 <= j < |other| ensures replica[i] != other[j] {
      assert (replica + other)[i] == replica[i] && (replica + other)[|replica| + j] == other[j];
    }
  }

  // Is the i-th client not the last of its name?
  predicate Shadowed(objects: seq<PersistentClient>, i: nat)
    requires i < |objects|
  {
    exists j :: i < j < |objects| && objects[j].name == objects[i].name
  }

  // Such a client is not in the index.
  lemma ShadowedNotIndexed(replica: seq<PersistentClient>, other: seq<PersistentClient>, i: nat)
    requires Distinct(replica + other) && i < |other| && Shadowed(other, i)
    ensures other[i] !in ObjectIndex(replica, |replica|).Values && other[i] !in ObjectIndex(other, |other|).Values
  {
    var m := ObjectIndex(other, |other|);
    Apart(replica, other);
    IndexWithin(replica);
    forall k | k in m ensures m[k] != other[i] {
      var x := ObjectIndexFrom(other, |other|, k);
    }
  }

  // What is left of the origin's clients, given how the indexed ones look.
  lemma MergedViews(replica: seq<PersistentClient>, other: seq<PersistentClient>, before: seq<Item>, cur: map<string,
                    Item>, exp: map<string, Item>)
    requires Distinct(replica + other) && AllBelong(Clients, before) && |before| == |other|
    requires forall i | 0 <= i < |other| :: before[i].Key() == other[i].name
    requires var initial, expected := ObjectIndex(replica, |replica|), ObjectIndex(other, |other|);
      && initial.Keys == cur.Keys && expected.Keys == exp.Keys
      && (forall k | k in exp :: exp[k].Client?)
      && ComparedSoFar(initial, expected, cur, exp, expected.Keys)
      && (forall i | 0 <= i < |other| && other[i] !in initial.Values && other[i] !in expected.Values ::
            other[i].View() == before[i])
      && (forall i | 0 <= i < |other| && other[i].name in expected && expected[other[i].name] == other[i] ::
            exp[other[i].name] == before[i])
    ensures Views(other) == MergedClients(before, cur)
  {
    hide ObjectIndex, ClientEq, Touched, Distinct;
    forall i | 0 <= i < |other|
      ensures other[i].View() == if Compared(before, cur, i) then Touched(before[i]) else before[i]
    {
      if Shadowed(other, i) {
        ShadowedNotIndexed(replica, other, i);
      } else {
        ObjectIndexIn(other, |other|, i);
      }
    }
  }

  // The two maps of Merge, of clients on one side each.
  method IndexBoth(replica: seq<PersistentClient>, other: seq<PersistentClient>)
    returns (current: map<string, PersistentClient>, expected: map<string, PersistentClient>)
    requires Distinct(replica + other)
    ensures current == ObjectIndex(replica, |replica|) && expected == ObjectIndex(other, |other|)
    ensures Named(current) && Named(expected) && Separate(current, expected)
    ensures ViewMap(current) == ByKey(Views(replica)) && ViewMap(expected) == ByKey(Views(other))
    ensures current.Values <= (set c | c in replica) && expected.Values <= (set c | c in other)
  {
    hide Separate, Distinct, ByKey, ViewMap;
    current := IndexObjects(replica);
    expected := IndexObjects(other);
    IndexedViews(replica);
    IndexedViews(other);
    IndexesSeparate(replica, other);
    IndexWithin(replica);
    IndexWithin(other);
  }

  // Clients.Merge: what to add, update and remove, comparing the last client of each
  // name. The origin's compared clients are left as the comparison leaves them.
  method MergeClients(replica: seq<PersistentClient>, other: seq<PersistentClient>)
    returns (adds: seq<PersistentClient>, updates: seq<PersistentClient>, removes: seq<PersistentClient>)
    requires Distinct(replica + other)
    modifies replica, other
    ensures IsDiff(ByKey(old(Views(replica))), ByKey(old(Views(other))), Views(removes), Views(adds), Views(updates))
    ensures Views(other) == MergedClients(old(Views(other)), ByKey(old(Views(replica))))
  {
    hide Separate, Distinct, ByKey, ObjectIndex, SortedOut, ComparedSoFar, IsDiff, MergedClients;
    var initial, expected := IndexBoth(replica, other);
    ghost var before := Views(other);
    ghost var cur, exp := ViewMap(initial), ViewMap(expected);
    var current;
    adds, updates, current := CompareExpected(initial, expected, cur, exp);
    removes := RangeOverObjects(current);
    DiffFromPicks(initial, expected, cur, exp, current, adds, updates, removes);
    MergedViews(replica, other, before, cur, exp);
  }

  lemma DiffFromPicks(initial: map<string, PersistentClient>, expected: map<string, PersistentClient>, cur: map<string,
                      Item>, exp: map<string, Item>, current: map<string, PersistentClient>,
      adds: seq<PersistentClient>, updates: seq<PersistentClient>, removes: seq<PersistentClient>)
    requires initial.Keys == cur.Keys && expected.Keys == exp.Keys
    requires forall k | k in exp :: exp[k].Client?
    requires SortedOut(initial, expected, cur, exp, expected.Keys, map[], current, adds, updates)
    requires ComparedSoFar(initial, expected, cur, exp, expected.Keys)
    requires Picks(removes, current, current.Keys)
    ensures IsDiff(cur, exp, Views(removes), Views(adds), Views(updates))
  {
    hide Picks, Listing, Same, Touched;
    PicksList(removes, current, current.Keys, Removed(cur, exp));
    PicksList(adds, expected, expected.Keys - initial.Keys, Added(cur, exp));
    PicksList(updates, expected, Differing(cur, exp, expected.Keys), Updated(cur, exp));
  }
}
