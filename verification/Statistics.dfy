// The consolidated statistics of all hosts.

module Statistics {
  import opened Sorting

  const STATS_TOTAL := "total"
  const HOURS := 24

  datatype Counter = NumBlocked | NumSafebrowsing | NumQueries | NumSafesearch | NumParental
  datatype Series = Blocked | Queries | Parental | Safebrowsing

  // What the fields of a Stats object hold.
  datatype Figures = Figures(
    numBlocked: Option<int>, numSafebrowsing: Option<int>, numQueries: Option<int>, numSafesearch: Option<int>,
    numParental: Option<int>, blocked: Option<seq<int>>, queries: Option<seq<int>>, parental: Option<seq<int>>,
    safebrowsing: Option<seq<int>>)
  {
    function Count(c: Counter): Option<int> {
      match c
      case NumBlocked => numBlocked
      case NumSafebrowsing => numSafebrowsing
      case NumQueries => numQueries
      case NumSafesearch => numSafesearch
      case NumParental => numParental
    }

    function Slots(s: Series): Option<seq<int>> {
      match s
      case Blocked => blocked
      case Queries => queries
      case Parental => parental
      case Safebrowsing => safebrowsing
    }
  }

  function Zeros(): seq<int> { seq(HOURS, i => 0) }

  const ZERO := Figures(Some(0), Some(0), Some(0), Some(0), Some(0), Some(Zeros()), Some(Zeros()), Some(Zeros()),
                        Some(Zeros()))

  // ---- Adding ----

  // Nothing absent is dereferenced.
  predicate CountFits(t: Option<int>, o: Option<int>) { o.Some? ==> t.Some? }

  // Nothing absent is dereferenced, and no slot is read beyond the end of the summand.
  predicate SeriesFits(t: Option<seq<int>>, o: Option<seq<int>>)
  {
    o.Some? ==> t.Some? && |o.value| >= |t.value|
  }

  ghost predicate Addable(t: Figures, o: Figures)
  {
    && (forall c :: CountFits(t.Count(c), o.Count(c)))
    && (forall s :: SeriesFits(t.Slots(s), o.Slots(s)))
  }

  // The slots of r are those of t, each with the slot of o added; without an o, r is t.
  ghost predicate IsSum(t: Option<seq<int>>, o: Option<seq<int>>, r: Option<seq<int>>)
  {
    if o.None? then r == t
    else
      && SeriesFits(t, o) && r.Some? && |r.value| == |t.value|
      && forall i | 0 <= i < |t.value| :: r.value[i] == t.value[i] + o.value[i]
  }

  // The sum as a value; t itself where nothing is added.
  function CountPlus(t: Option<int>, o: Option<int>): Option<int>
  {
    if o.Some? && t.Some? then Some(t.value + o.value) else t
  }

  function SeriesPlus(t: Option<seq<int>>, o: Option<seq<int>>): (r: Option<seq<int>>)
    ensures SeriesFits(t, o) ==> IsSum(t, o, r)
  {
    if o.Some? && SeriesFits(t, o) then
      Some(seq(|t.value|, i requires 0 <= i < |t.value| => t.value[i] + o.value[i]))
    else t
  }

  function Plus(t: Figures, o: Figures): (r: Figures)
    ensures forall c :: r.Count(c) == CountPlus(t.Count(c), o.Count(c))
    ensures forall s :: r.Slots(s) == SeriesPlus(t.Slots(s), o.Slots(s))
  {
    Figures(CountPlus(t.numBlocked, o.numBlocked), CountPlus(t.numSafebrowsing, o.numSafebrowsing),
            CountPlus(t.numQueries, o.numQueries), CountPlus(t.numSafesearch, o.numSafesearch),
        CountPlus(t.numParental, o.numParental), SeriesPlus(t.blocked, o.blocked), SeriesPlus(t.queries, o.queries),
        SeriesPlus(t.parental, o.parental), SeriesPlus(t.safebrowsing, o.safebrowsing))
  }

  // addInt.
  method AddInt(t: Option<int>, add: Option<int>) returns (ok: bool, r: Option<int>)
    ensures ok <==> CountFits(t, add)
    ensures ok ==> r == CountPlus(t, add)
  {
    if add.None? { return true, t; }
    if t.None? { return false, None; }
    return true, Some(t.value + add.value);
  }

  // The guard of sumUp lets index i through.
  predicate LetThrough(oo: seq<int>, i: nat) { |oo| >= i }

  // It admits one index too many: the reads it admits are in range exactly when the summand
  // is at least as long as the total, and the read at its own length is out of range otherwise.
  lemma GuardAdmitsOneTooMany(tt: seq<int>, oo: seq<int>)
    ensures (forall i: nat | i < |tt| && LetThrough(oo, i) :: i < |oo|) <==> |oo| >= |tt|
    ensures |oo| < |tt| ==> LetThrough(oo, |oo|)
  {
    if |oo| < |tt| { assert LetThrough(oo, |oo|); }
  }

  // sumUp; without ok it read an absent or too short series.
  method SumUp(t: Option<seq<int>>, o: Option<seq<int>>) returns (ok: bool, r: Option<seq<int>>)
    ensures ok <==> SeriesFits(t, o)
    ensures ok ==> r == SeriesPlus(t, o)
  {
    if o.None? { return true, t; }
    if t.None? { return false, None; }
    var tt, oo := t.value, o.value;
    var sum: seq<int> := [];
    for i := 0 to |tt|
      invariant |sum| == i <= |oo| && forall j | 0 <= j < i :: sum[j] == tt[j] + oo[j]
    {
      if LetThrough(oo, i) {
        if i >= |oo| { return false, None; }
        sum := sum + [tt[i] + oo[i]];
      }
    }
    assert sum == SeriesPlus(t, o).value;
    return true, Some(sum);
  }

  class Stats {
    var numBlocked: Option<int>
    var numSafebrowsing: Option<int>
    var numQueries: Option<int>
    var numSafesearch: Option<int>
    var numParental: Option<int>
    var blocked: Option<seq<int>>
    var queries: Option<seq<int>>
    var parental: Option<seq<int>>
    var safebrowsing: Option<seq<int>>

    function View(): Figures
      reads this
    {
      Figures(numBlocked, numSafebrowsing, numQueries, numSafesearch, numParental, blocked, queries, parental,
              safebrowsing)
    }

    // NewStats: zero everywhere.
    constructor ()
      ensures View() == ZERO
    {
      numBlocked, numSafebrowsing, numQueries, numSafesearch, numParental := Some(0), Some(0), Some(0), Some(0),
          Some(0);
      var zeros := Some(Zeros());
      blocked, queries, parental, safebrowsing := zeros, zeros, zeros, zeros;
    }

    // Counter by counter and slot by slot, also to itself; what the other side does not have
    // adds nothing. It breaks off exactly when the other side does not fit.
    method Add(other: Stats) returns (ok: bool)
      modifies this
      ensures ok <==> Addable(old(View()), old(other.View()))
      ensures ok ==> View() == Plus(old(View()), old(other.View()))
    {
      OneByOne(View(), other.View());
      hide Addable, IsSum, SeriesPlus, SeriesFits;
      ok := AddCounters(other);
      if !ok { return; }
      ok, blocked := SumUp(blocked, other.blocked);
      if !ok { return; }
      ok, queries := SumUp(queries, other.queries);
      if !ok { return; }
      ok, parental := SumUp(parental, other.parental);
      if !ok { return; }
      ok, safebrowsing := SumUp(safebrowsing, other.safebrowsing);
    }

    method AddCounters(other: Stats) returns (ok: bool)
      modifies this`numBlocked, this`numSafebrowsing, this`numQueries, this`numSafesearch, this`numParental
      ensures ok <==> forall c :: CountFits(old(View()).Count(c), old(other.View()).Count(c))
      ensures ok ==> View() == old(View()).(
                                 numBlocked := CountPlus(old(numBlocked), old(other.numBlocked)),
                                 numSafebrowsing := CountPlus(old(numSafebrowsing), old(other.numSafebrowsing)),
                                 numQueries := CountPlus(old(numQueries), old(other.numQueries)),
                                 numSafesearch := CountPlus(old(numSafesearch), old(other.numSafesearch)),
                                 numParental := CountPlus(old(numParental), old(other.numParental)))
    {
      CountersOneByOne(View(), other.View());
      ok, numBlocked := AddInt(numBlocked, other.numBlocked);
      if !ok { return; }
      ok, numSafebrowsing := AddInt(numSafebrowsing, other.numSafebrowsing);
      if !ok { return; }
      ok, numQueries := AddInt(numQueries, other.numQueries);
      if !ok { return; }
      ok, numSafesearch := AddInt(numSafesearch, other.numSafesearch);
      if !ok { return; }
      ok, numParental := AddInt(numParental, other.numParental);
    }
  }

  lemma CountersOneByOne(t: Figures, o: Figures)
    ensures (forall c :: CountFits(t.Count(c), o.Count(c))) <==>
            CountFits(t.numBlocked, o.numBlocked) && CountFits(t.numSafebrowsing, o.numSafebrowsing)
            && CountFits(t.numQueries, o.numQueries) && CountFits(t.numSafesearch, o.numSafesearch)
            && CountFits(t.numParental, o.numParental)
  {
    assert t.Count(NumBlocked) == t.numBlocked && t.Count(NumSafebrowsing) == t.numSafebrowsing;
    assert t.Count(NumQueries) == t.numQueries && t.Count(NumSafesearch) == t.numSafesearch;
    assert t.Count(NumParental) == t.numParental;
  }

  lemma OneByOne(t: Figures, o: Figures)
    ensures Addable(t, o) <==>
            (forall c :: CountFits(t.Count(c), o.Count(c)))
            && SeriesFits(t.blocked, o.blocked) && SeriesFits(t.queries, o.queries)
            && SeriesFits(t.parental, o.parental) && SeriesFits(t.safebrowsing, o.safebrowsing)
  {
    assert t.Slots(Blocked) == t.blocked && t.Slots(Queries) == t.queries;
    assert t.Slots(Parental) == t.parental && t.Slots(Safebrowsing) == t.safebrowsing;
  }

  // ---- Sums over hosts ----

  function OrZero(n: Option<int>): int
  {
    if n.Some? then n.value else 0
  }

  function HourOf(s: Option<seq<int>>, i: nat): int
  {
    if s.Some? && i < |s.value| then s.value[i] else 0
  }

  // The sum of the values of a map, in whatever order they are taken (SumTakes).
  ghost function Sum(m: map<string, int>): int
  {
    if m == map[] then 0
    else
      var k :| k in m;
      m[k] + Sum(m - {k})
  }

  // Any host can be taken first.
  lemma {:induction false} SumTakes(m: map<string, int>, k: string)
    requires k in m
    ensures Sum(m) == m[k] + Sum(m - {k})
    decreases |m|
  {
    var j :| j in m && Sum(m) == m[j] + Sum(m - {j});
    if j != k {
      assert (m - {j}).Keys == m.Keys - {j} && (m - {k}).Keys == m.Keys - {k};
      SumTakes(m - {j}, k);
      SumTakes(m - {k}, j);
      assert m - {j} - {k} == m - {k} - {j};
    }
  }

  // One of the figures: a counter, or an hour of a series.
  datatype Entry = Whole(counter: Counter) | Hourly(series: Series, hour: nat)

  function Value(v: Figures, f: Entry): int
  {
    match f
    case Whole(c) => OrZero(v.Count(c))
    case Hourly(s, i) => HourOf(v.Slots(s), i)
  }

  ghost function Values(vs: map<string, Figures>, f: Entry): (m: map<string, int>)
    ensures m.Keys == vs.Keys
    ensures forall h | h in vs :: m[h] == Value(vs[h], f)
  {
    map h | h in vs :: Value(vs[h], f)
  }

  ghost function Restrict(m: map<string, int>, keys: set<string>): map<string, int>
  {
    map k | k in m && k in keys :: m[k]
  }

  lemma RestrictOne(m: map<string, int>, keys: set<string>, k: string)
    requires k in m && k !in keys
    ensures Sum(Restrict(m, keys + {k})) == Sum(Restrict(m, keys)) + m[k]
  {
    var longer := Restrict(m, keys + {k});
    SumTakes(longer, k);
    assert longer - {k} == Restrict(m, keys);
  }

  lemma RestrictAll(m: map<string, int>)
    ensures Restrict(m, m.Keys) == m && Sum(Restrict(m, {})) == 0
  {
    assert Restrict(m, {}) == map[];
  }

  // ---- The loop over the hosts ----

  // An order in which a map is iterated.
  ghost predicate IsOrder(order: seq<string>, keys: set<string>)
  {
    && (forall i, j | 0 <= i < j < |order| :: order[i] != order[j])
    && (forall k :: k in order <==> k in keys)
  }

  // A host whose statistics are the same object as those of the host named like the total,
  // once that host has taken the place of the total.
  predicate IsTarget(twins: set<string>, order: seq<string>, n: nat)
    requires 0 < n <= |order|
  {
    order[n - 1] in twins && STATS_TOTAL in order[..n - 1]
  }

  // What the total holds after n hosts: a host that is itself named like the total takes
  // its place, and is added to itself, as is every further copy of it.
  function Total(vs: map<string, Figures>, twins: set<string>, order: seq<string>, n: nat): Figures
    requires n <= |order| && forall i | 0 <= i < n :: order[i] in vs
  {
    if n == 0 then ZERO
    else if order[n - 1] == STATS_TOTAL then Plus(vs[STATS_TOTAL], vs[STATS_TOTAL])
    else
      var before := Total(vs, twins, order, n - 1);
      Plus(before, if IsTarget(twins, order, n) then before else vs[order[n - 1]])
  }

  // The n-th addition does not break off.
  ghost predicate NextFits(vs: map<string, Figures>, twins: set<string>, order: seq<string>, n: nat)
    requires 0 < n <= |order| && forall i | 0 <= i < n :: order[i] in vs
  {
    || order[n - 1] == STATS_TOTAL || IsTarget(twins, order, n)
    || Addable(Total(vs, twins, order, n - 1), vs[order[n - 1]])
  }

  // None of the first n additions breaks off.
  ghost predicate AllFit(vs: map<string, Figures>, twins: set<string>, order: seq<string>, n: nat)
    requires n <= |order| && forall i | 0 <= i < n :: order[i] in vs
  {
    forall i | 0 < i <= n :: NextFits(vs, twins, order, i)
  }

  // The sum over some hosts, counter by counter and hour by hour.
  ghost predicate SumsTo(vs: map<string, Figures>, hosts: set<string>, v: Figures)
  {
    && (forall c :: v.Count(c) == Some(Sum(Restrict(Values(vs, Whole(c)), hosts))))
    && (forall s :: IsTotalSeries(v.Slots(s)))
    && (forall s, i | 0 <= i < HOURS :: v.Slots(s).value[i] == Sum(Restrict(Values(vs, Hourly(s, i)), hosts)))
  }

  predicate IsTotalSeries(s: Option<seq<int>>)
  {
    s.Some? && |s.value| == HOURS
  }

  // No series that is there is too short.
  ghost predicate LongEnough(v: Figures)
  {
    forall s :: v.Slots(s).Some? ==> |v.Slots(s).value| >= HOURS
  }

  lemma FitsTotal(vs: map<string, Figures>, hosts: set<string>, t: Figures, o: Figures)
    requires SumsTo(vs, hosts, t)
    ensures Addable(t, o) <==> LongEnough(o)
  {
    hide Sum, Restrict, Values;
    if Addable(t, o) {
      forall s | o.Slots(s).Some? ensures |o.Slots(s).value| >= HOURS { assert SeriesFits(t.Slots(s), o.Slots(s)); }
    }
  }

  lemma NoneAdded(vs: map<string, Figures>)
    ensures SumsTo(vs, {}, ZERO)
  {
    hide Sum, Values, Restrict;
    forall c ensures Sum(Restrict(Values(vs, Whole(c)), {})) == 0 { RestrictAll(Values(vs, Whole(c))); }
    forall s, i: nat ensures Sum(Restrict(Values(vs, Hourly(s, i)), {})) == 0 { RestrictAll(Values(vs, Hourly(s, i))); }
  }

  lemma OneMoreHost(vs: map<string, Figures>, hosts: set<string>, host: string, t: Figures)
    requires SumsTo(vs, hosts, t) && host in vs && host !in hosts && LongEnough(vs[host])
    ensures SumsTo(vs, hosts + {host}, Plus(t, vs[host]))
  {
    hide Sum, Restrict;
    var r := Plus(t, vs[host]);
    forall c ensures r.Count(c) == Some(Sum(Restrict(Values(vs, Whole(c)), hosts + {host}))) {
      RestrictOne(Values(vs, Whole(c)), hosts, host);
    }
    forall s ensures IsTotalSeries(r.Slots(s)) && SeriesFits(t.Slots(s), vs[host].Slots(s)) {}
    forall s, i | 0 <= i < HOURS
      ensures r.Slots(s).value[i] == Sum(Restrict(Values(vs, Hourly(s, i)), hosts + {host}))
    {
      RestrictOne(Values(vs, Hourly(s, i)), hosts, host);
    }
  }

  function Hosts(order: seq<string>, n: nat): set<string>
    requires n <= |order|
  {
    set i | 0 <= i < n :: order[i]
  }

  lemma OneMoreFits(vs: map<string, Figures>, twins: set<string>, order: seq<string>, n: nat)
    requires 0 < n <= |order| && forall i | 0 <= i < n :: order[i] in vs
    ensures AllFit(vs, twins, order, n) <==> AllFit(vs, twins, order, n - 1) && NextFits(vs, twins, order, n)
  {
    hide NextFits;
  }

  lemma OneMoreTotal(vs: map<string, Figures>, twins: set<string>, order: seq<string>, n: nat)
    requires 0 < n <= |order| && forall i | 0 <= i < n :: order[i] in vs
    ensures var before := Total(vs, twins, order, n - 1);
            Total(vs, twins, order, n) ==
            if order[n - 1] == STATS_TOTAL then Plus(vs[STATS_TOTAL], vs[STATS_TOTAL])
            else Plus(before, if IsTarget(twins, order, n) then before else vs[order[n - 1]])
  {}

  lemma OneMoreVisited(order: seq<string>, n: nat, keys: set<string>)
    requires IsOrder(order, keys) && 0 < n <= |order|
    ensures Hosts(order, n) == Hosts(order, n - 1) + {order[n - 1]} && order[n - 1] !in Hosts(order, n - 1)
    ensures order[n - 1] in keys
  {}

  // Without a host named like the total, the total after n hosts is the sum over them, and
  // nothing has broken off exactly when none of them is too short.
  lemma {:induction false} TotalSoFar(vs: map<string, Figures>, twins: set<string>, order: seq<string>, n: nat)
    requires n <= |order| && IsOrder(order, vs.Keys) && STATS_TOTAL !in vs
    ensures AllFit(vs, twins, order, n) <==> forall i | 0 <= i < n :: LongEnough(vs[order[i]])
    ensures AllFit(vs, twins, order, n) ==> SumsTo(vs, Hosts(order, n), Total(vs, twins, order, n))
  {
    hide SumsTo, Addable, LongEnough, Plus, Hosts, AllFit;
    if n == 0 {
      NoneFitted(vs, twins, order);
      NoneAdded(vs);
    } else {
      TotalSoFar(vs, twins, order, n - 1);
      OneMoreFits(vs, twins, order, n);
      OneMoreVisited(order, n, vs.Keys);
      assert !IsTarget(twins, order, n) && order[n - 1] != STATS_TOTAL by { NeverTarget(twins, order, n, vs.Keys); }
      if AllFit(vs, twins, order, n - 1) {
        FitsTotal(vs, Hosts(order, n - 1), Total(vs, twins, order, n - 1), vs[order[n - 1]]);
        if AllFit(vs, twins, order, n) {
          OneMoreHost(vs, Hosts(order, n - 1), order[n - 1], Total(vs, twins, order, n - 1));
        }
      }
    }
  }

  lemma NeverTarget(twins: set<string>, order: seq<string>, n: nat, keys: set<string>)
    requires 0 < n <= |order| && IsOrder(order, keys) && STATS_TOTAL !in keys
    ensures !IsTarget(twins, order, n) && order[n - 1] != STATS_TOTAL
  {
    assert order[n - 1] in keys;
    assert forall k | k in order[..n - 1] :: k in order;
  }

  lemma NoneFitted(vs: map<string, Figures>, twins: set<string>, order: seq<string>)
    ensures AllFit(vs, twins, order, 0) && Hosts(order, 0) == {} && Total(vs, twins, order, 0) == ZERO
  {}

  lemma BrokenOff(vs: map<string, Figures>, twins: set<string>, order: seq<string>, n: nat)
    requires n <= |order| && (forall k | k in order :: k in vs) && !AllFit(vs, twins, order, n)
    ensures !AllFit(vs, twins, order, |order|)
  {
    hide Addable, Total;
  }

  lemma FitsItself(v: Figures)
    ensures Addable(v, v)
  {}

  // Without a host of that name the total is, for every order of the iteration, the sum
  // over all hosts, and it is reached exactly when no series of any host is too short.
  lemma TotalIsSum(vs: map<string, Figures>, twins: set<string>, order: seq<string>)
    requires IsOrder(order, vs.Keys) && STATS_TOTAL !in vs
    ensures AllFit(vs, twins, order, |order|) <==> forall h | h in vs :: LongEnough(vs[h])
    ensures AllFit(vs, twins, order, |order|) ==> SumsTo(vs, vs.Keys, Total(vs, twins, order, |order|))
  {
    hide SumsTo, Addable, LongEnough, AllFit, Total, Hosts;
    TotalSoFar(vs, twins, order, |order|);
    AllVisited(order, vs.Keys);
    if AllFit(vs, twins, order, |order|) {
      forall h | h in vs ensures LongEnough(vs[h]) {
        var i :| 0 <= i < |order| && order[i] == h;
      }
    }
  }

  lemma AllVisited(order: seq<string>, keys: set<string>)
    requires IsOrder(order, keys)
    ensures Hosts(order, |order|) == keys
  {}

  // The order of the hosts does not matter, and consolidating the same hosts once more
  // gives the same total.
  lemma TotalForgetsOrder(vs: map<string, Figures>, twins: set<string>, order: seq<string>, other: seq<string>)
    requires IsOrder(order, vs.Keys) && IsOrder(other, vs.Keys) && STATS_TOTAL !in vs
    ensures AllFit(vs, twins, order, |order|) <==> AllFit(vs, twins, other, |other|)
    ensures AllFit(vs, twins, order, |order|) ==> Total(vs, twins, order, |order|) == Total(vs, twins, other, |other|)
  {
    hide AllFit, SumsTo, Total, LongEnough;
    TotalIsSum(vs, twins, order);
    TotalIsSum(vs, twins, other);
    if AllFit(vs, twins, order, |order|) {
      SumsAreOne(vs, vs.Keys, Total(vs, twins, order, |order|), Total(vs, twins, other, |other|));
    }
  }

  lemma SumsAreOne(vs: map<string, Figures>, hosts: set<string>, a: Figures, b: Figures)
    requires SumsTo(vs, hosts, a) && SumsTo(vs, hosts, b)
    ensures a == b
  {
    hide Sum, Restrict, Values;
    forall c ensures a.Count(c) == b.Count(c) {}
    forall s ensures a.Slots(s) == b.Slots(s) {
      assert a.Slots(s).value == b.Slots(s).value;
    }
    CountsAndSlots(a, b);
  }

  lemma CountsAndSlots(a: Figures, b: Figures)
    requires (forall c :: a.Count(c) == b.Count(c)) && forall s :: a.Slots(s) == b.Slots(s)
    ensures a == b
  {
    assert a.Count(NumBlocked) == b.Count(NumBlocked) && a.Count(NumSafebrowsing) == b.Count(NumSafebrowsing);
    assert a.Count(NumQueries) == b.Count(NumQueries) && a.Count(NumSafesearch) == b.Count(NumSafesearch);
    assert a.Count(NumParental) == b.Count(NumParental);
    assert a.Slots(Blocked) == b.Slots(Blocked) && a.Slots(Queries) == b.Slots(Queries);
    assert a.Slots(Parental) == b.Slots(Parental) && a.Slots(Safebrowsing) == b.Slots(Safebrowsing);
  }

  // ---- Which additions break off ----

  // The same counters and series are there, and the series are as long.
  ghost predicate SameShape(a: Figures, b: Figures)
  {
    && (forall c :: a.Count(c).Some? <==> b.Count(c).Some?)
    && (forall s :: a.Slots(s).Some? <==> b.Slots(s).Some?)
    && (forall s | a.Slots(s).Some? && b.Slots(s).Some? :: |a.Slots(s).value| == |b.Slots(s).value|)
  }

  // A sum has the shape of what was added to.
  lemma PlusKeepsShape(t: Figures, o: Figures)
    ensures SameShape(Plus(t, o), t)
  {}

  lemma ShapeDecides(a: Figures, b: Figures, o: Figures)
    requires SameShape(a, b)
    ensures Addable(a, o) <==> Addable(b, o)
  {
    forall c ensures CountFits(a.Count(c), o.Count(c)) <==> CountFits(b.Count(c), o.Count(c)) {}
    forall s ensures SeriesFits(a.Slots(s), o.Slots(s)) <==> SeriesFits(b.Slots(s), o.Slots(s)) {
      assert a.Slots(s).Some? <==> b.Slots(s).Some?;
    }
    hide CountFits, SeriesFits, SameShape;
  }

  lemma ZeroTakesLongEnough(o: Figures)
    ensures Addable(ZERO, o) <==> LongEnough(o)
  {
    NoneAdded(map[]);
    hide SumsTo, Addable, LongEnough;
    FitsTotal(map[], {}, ZERO, o);
  }

  // What the next host is added to has the shape of the host named like the total once
  // that has been visited, and the shape of a new total before.
  lemma {:induction false} ShapeOf(vs: map<string, Figures>, order: seq<string>, n: nat)
    requires n <= |order| && forall i | 0 <= i < n :: order[i] in vs
    ensures STATS_TOTAL !in order[..n] ==> SameShape(Total(vs, {}, order, n), ZERO)
    ensures STATS_TOTAL in order[..n] ==> SameShape(Total(vs, {}, order, n), vs[STATS_TOTAL])
  {
    hide SameShape, Plus;
    if n == 0 {
      SameShapeReflexive(ZERO);
    } else {
      ShapeOf(vs, order, n - 1);
      assert order[..n] == order[..n - 1] + [order[n - 1]];
      var before := Total(vs, {}, order, n - 1);
      if order[n - 1] == STATS_TOTAL {
        PlusKeepsShape(vs[STATS_TOTAL], vs[STATS_TOTAL]);
      } else {
        PlusKeepsShape(before, vs[order[n - 1]]);
        var like := if STATS_TOTAL in order[..n - 1] then vs[STATS_TOTAL] else ZERO;
        SameShapeTransitive(Plus(before, vs[order[n - 1]]), before, like);
      }
    }
  }

  lemma SameShapeReflexive(a: Figures)
    ensures SameShape(a, a)
  {}

  lemma SameShapeTransitive(a: Figures, b: Figures, c: Figures)
    requires SameShape(a, b) && SameShape(b, c)
    ensures SameShape(a, c)
  {}

  // Seen from the hosts: an addition fits if the series are long enough and the host named
  // like the total is not visited yet, or if they fit that host.
  lemma FitsByPlace(vs: map<string, Figures>, order: seq<string>, n: nat)
    requires 0 < n <= |order| && forall i | 0 <= i < n :: order[i] in vs
    ensures NextFits(vs, {}, order, n) <==>
            || order[n - 1] == STATS_TOTAL
            || (if STATS_TOTAL in order[..n - 1] then Addable(vs[STATS_TOTAL], vs[order[n - 1]])
                else LongEnough(vs[order[n - 1]]))
  {
    ShapeOf(vs, order, n - 1);
    ZeroTakesLongEnough(vs[order[n - 1]]);
    hide SameShape, Addable, LongEnough, Total;
    var like := if STATS_TOTAL in order[..n - 1] then vs[STATS_TOTAL] else ZERO;
    ShapeDecides(Total(vs, {}, order, n - 1), like, vs[order[n - 1]]);
  }

  // In whatever order the hosts come, no addition breaks off.
  ghost predicate NeverBreaks(vs: map<string, Figures>)
  {
    forall order: seq<string> | IsOrder(order, vs.Keys) :: AllFit(vs, {}, order, |order|)
  }

  // Each host fits wherever it comes.
  ghost predicate FitsAnywhere(vs: map<string, Figures>, host: string)
    requires host in vs
  {
    host != STATS_TOTAL ==> LongEnough(vs[host]) && (STATS_TOTAL in vs ==> Addable(vs[STATS_TOTAL], vs[host]))
  }

  lemma {:induction false} SomeOrder(keys: set<string>) returns (order: seq<string>)
    ensures IsOrder(order, keys)
  {
    if keys == {} {
      order := [];
    } else {
      var k :| k in keys;
      var rest := SomeOrder(keys - {k});
      order := First(k, rest, keys);
    }
  }

  lemma First(host: string, rest: seq<string>, keys: set<string>) returns (order: seq<string>)
    requires host in keys && IsOrder(rest, keys - {host})
    ensures IsOrder(order, keys) && order == [host] + rest
  {
    order := [host] + rest;
    forall j | 0 < j < |order| ensures order[j] != host { assert order[j] in rest; }
  }

  // No order breaks off if and only if no series of a host is too short, and every host has
  // only what a host named like the total has, in series at least as long; the latter
  // itself may have anything.
  lemma NeverBreaksExactly(vs: map<string, Figures>)
    ensures NeverBreaks(vs) <==> forall h | h in vs :: FitsAnywhere(vs, h)
  {
    hide AllFit, LongEnough, Addable;
    if forall h | h in vs :: FitsAnywhere(vs, h) {
      forall order: seq<string> | IsOrder(order, vs.Keys) ensures AllFit(vs, {}, order, |order|) {
        FitsInOrder(vs, order);
      }
    } else {
      var h :| h in vs && !FitsAnywhere(vs, h);
      var order := BreakingOrder(vs, h);
    }
  }

  lemma FitsInOrder(vs: map<string, Figures>, order: seq<string>)
    requires IsOrder(order, vs.Keys) && forall h | h in vs :: FitsAnywhere(vs, h)
    ensures AllFit(vs, {}, order, |order|)
  {
    InOrder(order, vs.Keys);
    hide NextFits, LongEnough, Addable, IsOrder;
    forall n | 0 < n <= |order| ensures NextFits(vs, {}, order, n) {
      FitsByPlace(vs, order, n);
      assert FitsAnywhere(vs, order[n - 1]);
      if STATS_TOTAL in order[..n - 1] { assert STATS_TOTAL in order; }
    }
  }

  // An order that breaks off: the host first, or the one named like the total before it.
  lemma BreakingOrder(vs: map<string, Figures>, host: string) returns (order: seq<string>)
    requires host in vs && !FitsAnywhere(vs, host)
    ensures IsOrder(order, vs.Keys) && !AllFit(vs, {}, order, |order|)
  {
    hide NextFits, LongEnough, Addable, IsOrder;
    if !LongEnough(vs[host]) {
      var rest := SomeOrder(vs.Keys - {host});
      order := First(host, rest, vs.Keys);
      InOrder(order, vs.Keys);
      assert order[..0] == [];
      FitsByPlace(vs, order, 1);
    } else {
      var rest := SomeOrder(vs.Keys - {STATS_TOTAL} - {host});
      var tail := First(host, rest, vs.Keys - {STATS_TOTAL});
      order := First(STATS_TOTAL, tail, vs.Keys);
      InOrder(order, vs.Keys);
      assert order[..1] == [STATS_TOTAL] && order[1] == host;
      FitsByPlace(vs, order, 2);
    }
  }

  // ---- A host named like the total ----

  // Does such a host have room for this figure?
  predicate HasRoom(v: Figures, f: Entry)
  {
    f.Hourly? && v.Slots(f.series).Some? ==> f.hour < |v.Slots(f.series).value|
  }

  // The hosts visited after position p, up to n.
  function HostsAfter(order: seq<string>, p: nat, n: nat): set<string>
    requires n <= |order|
  {
    set i | p < i < n :: order[i]
  }

  // A figure of a sum is the sum of the figures, where there is room.
  lemma PlusAdds(t: Figures, o: Figures, f: Entry)
    requires Addable(t, o)
    ensures Value(Plus(t, o), f) == if HasRoom(t, f) then Value(t, f) + Value(o, f) else 0
  {
    match f {
      case Whole(c) => assert CountFits(t.Count(c), o.Count(c));
      case Hourly(s, i) => assert SeriesFits(t.Slots(s), o.Slots(s));
    }
  }

  lemma RoomByShape(a: Figures, b: Figures, f: Entry)
    requires SameShape(a, b)
    ensures HasRoom(a, f) <==> HasRoom(b, f)
  {
    if f.Hourly? { assert a.Slots(f.series).Some? <==> b.Slots(f.series).Some?; }
  }

  // Such a host is counted twice, the hosts before it not at all; for hours its series do
  // not reach nothing is counted.
  lemma {:induction false} NamedTotal(vs: map<string, Figures>, order: seq<string>, p: nat, n: nat, f: Entry)
    requires p < n <= |order| && IsOrder(order, vs.Keys) && order[p] == STATS_TOTAL && AllFit(vs, {}, order, n)
    ensures Value(Total(vs, {}, order, n), f) ==
            if HasRoom(vs[STATS_TOTAL], f)
            then 2 * Value(vs[STATS_TOTAL], f) + Sum(Restrict(Values(vs, f), HostsAfter(order, p, n))) else 0
  {
    hide Sum, Restrict, Plus, AllFit, HostsAfter, Addable, Value, HasRoom, SameShape;
    OneMoreTotal(vs, {}, order, n);
    if n == p + 1 {
      NoneAfter(order, p);
      RestrictAll(Values(vs, f));
      FitsItself(vs[STATS_TOTAL]);
      PlusAdds(vs[STATS_TOTAL], vs[STATS_TOTAL], f);
    } else {
      OneMoreFits(vs, {}, order, n);
      NamedTotal(vs, order, p, n - 1, f);
      var host, before := order[n - 1], Total(vs, {}, order, n - 1);
      OneMoreAfter(order, p, n, vs.Keys);
      RestrictOne(Values(vs, f), HostsAfter(order, p, n - 1), host);
      assert order[..n - 1][p] == STATS_TOTAL;
      ShapeOf(vs, order, n - 1);
      RoomByShape(before, vs[STATS_TOTAL], f);
      PlusAdds(before, vs[host], f);
    }
  }

  lemma NoneAfter(order: seq<string>, p: nat)
    requires p < |order|
    ensures HostsAfter(order, p, p + 1) == {}
  {}

  lemma OneMoreAfter(order: seq<string>, p: nat, n: nat, keys: set<string>)
    requires IsOrder(order, keys) && p + 1 < n <= |order|
    ensures HostsAfter(order, p, n) == HostsAfter(order, p, n - 1) + {order[n - 1]}
    ensures order[n - 1] !in HostsAfter(order, p, n - 1) && order[n - 1] != order[p] && order[n - 1] in keys
  {}

  lemma {:induction false} SumSplits(m: map<string, int>, a: set<string>, b: set<string>)
    requires a !! b && b <= m.Keys
    ensures Sum(Restrict(m, a + b)) == Sum(Restrict(m, a)) + Sum(Restrict(m, b))
    decreases b
  {
    hide Sum, Restrict;
    if b == {} {
      assert a + b == a;
      RestrictAll(m);
    } else {
      var k :| k in b;
      SumSplits(m, a, b - {k});
      assert a + b == a + (b - {k}) + {k} && b == b - {k} + {k};
      RestrictOne(m, a + (b - {k}), k);
      RestrictOne(m, b - {k}, k);
    }
  }

  lemma BeforeAndAfter(order: seq<string>, p: nat, keys: set<string>)
    requires IsOrder(order, keys) && p < |order|
    ensures keys == Hosts(order, p) + {order[p]} + HostsAfter(order, p, |order|)
    ensures order[p] !in Hosts(order, p) && Hosts(order, p) + {order[p]} !! HostsAfter(order, p, |order|)
  {
    forall k | k in keys ensures k in Hosts(order, p) + {order[p]} + HostsAfter(order, p, |order|) {
      var i :| 0 <= i < |order| && order[i] == k;
    }
  }

  // The total of a figure is the sum over all hosts.
  ghost predicate IsRight(vs: map<string, Figures>, order: seq<string>, f: Entry)
    requires forall i | 0 <= i < |order| :: order[i] in vs
  {
    Value(Total(vs, {}, order, |order|), f) == Sum(Values(vs, f))
  }

  // One order: right exactly when that host alone counts as much as the hosts visited before
  // it together, or, for an hour it does not reach, when all hosts together count nothing.
  lemma NamedTotalIsSum(vs: map<string, Figures>, order: seq<string>, p: nat, f: Entry)
    requires p < |order| && IsOrder(order, vs.Keys) && order[p] == STATS_TOTAL && AllFit(vs, {}, order, |order|)
    ensures IsRight(vs, order, f) <==>
            if HasRoom(vs[STATS_TOTAL], f)
            then Value(vs[STATS_TOTAL], f) == Sum(Restrict(Values(vs, f), Hosts(order, p)))
            else Sum(Values(vs, f)) == 0
  {
    hide Sum, Restrict, AllFit, Total, Hosts, HostsAfter, Value;
    var before, after, m := Hosts(order, p), HostsAfter(order, p, |order|), Values(vs, f);
    NamedTotal(vs, order, p, |order|, f);
    BeforeAndAfter(order, p, vs.Keys);
    SumSplits(m, before + {STATS_TOTAL}, after);
    RestrictOne(m, before, STATS_TOTAL);
    RestrictAll(m);
  }

  lemma {:induction false} SumOfZeros(m: map<string, int>)
    requires forall k | k in m :: m[k] == 0
    ensures Sum(m) == 0
    decreases |m|
  {
    if m != map[] {
      var k :| k in m;
      SumTakes(m, k);
      assert (m - {k}).Keys == m.Keys - {k};
      SumOfZeros(m - {k});
    }
  }

  // Where the host named like the total comes first, and where one host comes before it.
  lemma TotalFirst(vs: map<string, Figures>, f: Entry) returns (order: seq<string>)
    requires STATS_TOTAL in vs && NeverBreaks(vs)
    ensures IsOrder(order, vs.Keys) && AllFit(vs, {}, order, |order|)
    ensures IsRight(vs, order, f) && HasRoom(vs[STATS_TOTAL], f) ==> Value(vs[STATS_TOTAL], f) == 0
    ensures IsRight(vs, order, f) && !HasRoom(vs[STATS_TOTAL], f) ==> Sum(Values(vs, f)) == 0
  {
    hide Sum, Restrict, AllFit, Total, HasRoom, Value, IsOrder, IsRight, Hosts;
    var rest := SomeOrder(vs.Keys - {STATS_TOTAL});
    order := First(STATS_TOTAL, rest, vs.Keys);
    InOrder(order, vs.Keys);
    NamedTotalIsSum(vs, order, 0, f);
    NoneFitted(vs, {}, order);
    RestrictAll(Values(vs, f));
  }

  lemma HostFirst(vs: map<string, Figures>, host: string, f: Entry) returns (order: seq<string>)
    requires STATS_TOTAL in vs && host in vs && host != STATS_TOTAL && NeverBreaks(vs)
    requires HasRoom(vs[STATS_TOTAL], f) && Value(vs[STATS_TOTAL], f) == 0
    ensures IsOrder(order, vs.Keys) && AllFit(vs, {}, order, |order|)
    ensures IsRight(vs, order, f) ==> Value(vs[host], f) == 0
  {
    hide Sum, Restrict, AllFit, Total, HasRoom, Value, IsOrder, IsRight, Hosts;
    var rest := SomeOrder(vs.Keys - {host} - {STATS_TOTAL});
    var tail := First(STATS_TOTAL, rest, vs.Keys - {host});
    order := First(host, tail, vs.Keys);
    InOrder(order, vs.Keys);
    NamedTotalIsSum(vs, order, 1, f);
    OneMoreVisited(order, 1, vs.Keys);
    NoneFitted(vs, {}, order);
    RestrictOne(Values(vs, f), {}, host);
    RestrictAll(Values(vs, f));
  }

  // Every order gives the sum.
  ghost predicate AlwaysRight(vs: map<string, Figures>, f: Entry)
  {
    forall order: seq<string> | IsOrder(order, vs.Keys) :: IsRight(vs, order, f)
  }

  ghost predicate CountsNothing(vs: map<string, Figures>, f: Entry)
    requires STATS_TOTAL in vs
  {
    if HasRoom(vs[STATS_TOTAL], f) then forall h | h in vs :: Value(vs[h], f) == 0 else Sum(Values(vs, f)) == 0
  }

  // With a host of that name, and hosts of which no order breaks off, every order gives the
  // sum of a figure if and only if no host counts anything there; for an hour that host's
  // series do not reach, if and only if the sum is nothing.
  lemma NamedTotalRightExactly(vs: map<string, Figures>, f: Entry)
    requires STATS_TOTAL in vs && NeverBreaks(vs)
    ensures AlwaysRight(vs, f) <==> CountsNothing(vs, f)
  {
    hide Sum, AllFit, IsRight, HasRoom, Value, Values;
    if CountsNothing(vs, f) {
      forall order: seq<string> | IsOrder(order, vs.Keys) ensures IsRight(vs, order, f) {
        NothingIsRight(vs, order, f);
      }
    }
    if AlwaysRight(vs, f) {
      var order := TotalFirst(vs, f);
      if HasRoom(vs[STATS_TOTAL], f) {
        forall h | h in vs ensures Value(vs[h], f) == 0 {
          if h != STATS_TOTAL { var other := HostFirst(vs, h, f); }
        }
      }
    }
  }

  lemma NothingIsRight(vs: map<string, Figures>, order: seq<string>, f: Entry)
    requires STATS_TOTAL in vs && IsOrder(order, vs.Keys) && AllFit(vs, {}, order, |order|) && CountsNothing(vs, f)
    ensures IsRight(vs, order, f)
  {
    InOrder(order, vs.Keys);
    hide Sum, AllFit, IsRight, HasRoom, Value;
    assert STATS_TOTAL in order;
    var p :| 0 <= p < |order| && order[p] == STATS_TOTAL;
    NamedTotalIsSum(vs, order, p, f);
    if HasRoom(vs[STATS_TOTAL], f) { SumOfZeros(Restrict(Values(vs, f), Hosts(order, p))); }
  }

  // Consolidating can be relied on: no order breaks off, and each gives all 5 counters and
  // all 24 hours of each series as the sums over all hosts.
  ghost predicate Reliable(vs: map<string, Figures>)
  {
    NeverBreaks(vs) && forall f: Entry | InDay(f) :: AlwaysRight(vs, f)
  }

  predicate InDay(f: Entry) { f.Hourly? ==> f.hour < HOURS }

  // Seen before the call: exactly when every host fits anywhere and, if one is named like
  // the total, nothing is counted anywhere.
  lemma ReliableExactly(vs: map<string, Figures>)
    ensures Reliable(vs) <==>
            && (forall h | h in vs :: FitsAnywhere(vs, h))
            && (STATS_TOTAL in vs ==> forall f: Entry | InDay(f) :: CountsNothing(vs, f))
  {
    NeverBreaksExactly(vs);
    hide FitsAnywhere, CountsNothing, InDay;
    if NeverBreaks(vs) {
      forall f: Entry | InDay(f) ensures AlwaysRight(vs, f) <==> (STATS_TOTAL in vs ==> CountsNothing(vs, f)) {
        if STATS_TOTAL in vs { NamedTotalRightExactly(vs, f); } else { UnnamedIsRight(vs, f); }
      }
    }
    hide NeverBreaks, AlwaysRight;
  }

  lemma UnnamedIsRight(vs: map<string, Figures>, f: Entry)
    requires STATS_TOTAL !in vs && NeverBreaks(vs) && InDay(f)
    ensures AlwaysRight(vs, f)
  {
    hide Sum, AllFit, Total, Restrict, Values;
    forall order: seq<string> | IsOrder(order, vs.Keys) ensures IsRight(vs, order, f) {
      InOrder(order, vs.Keys);
      TotalIsSum(vs, {}, order);
      RestrictAll(Values(vs, f));
      ValueOfSum(vs, vs.Keys, Total(vs, {}, order, |order|), f);
    }
  }

  lemma ValueOfSum(vs: map<string, Figures>, hosts: set<string>, v: Figures, f: Entry)
    requires SumsTo(vs, hosts, v) && InDay(f)
    ensures Value(v, f) == Sum(Restrict(Values(vs, f), hosts))
  {
    hide Sum, Restrict, Values;
  }

  // ---- The consolidated map ----

  ghost function Views(os: map<string, Stats>): (vs: map<string, Figures>)
    reads os.Values
    ensures vs.Keys == os.Keys
  {
    map h | h in os :: os[h].View()
  }

  // The hosts in the order in which the map happens to be iterated.
  method Iterated(os: map<string, Stats>) returns (order: seq<string>)
    ensures IsOrder(order, os.Keys)
  {
    var rest := os.Keys;
    order := [];
    while rest != {}
      invariant rest <= os.Keys && IsOrder(order, os.Keys - rest)
    {
      var host :| host in rest;
      order := order + [host];
      rest := rest - {host};
    }
  }

  // The hosts that share their statistics with the host named like the total.
  ghost function Twins(os: map<string, Stats>): set<string>
  {
    set h | h in os && h != STATS_TOTAL && STATS_TOTAL in os && os[h] == os[STATS_TOTAL]
  }

  // Some hosts have been copied, and only the target of the additions has changed.
  ghost predicate Copied(os: map<string, Stats>, vs: map<string, Figures>, done: set<string>, total: Stats,
                         consolidated: map<string, Stats>)
    reads os.Values
  {
    && consolidated.Keys == done + {STATS_TOTAL} && done <= os.Keys == vs.Keys
    && (forall h | h in done :: consolidated[h] == os[h])
    && (STATS_TOTAL !in done ==> consolidated[STATS_TOTAL] == total)
    && (forall h | h in os :: os[h] != total)
    && (forall h | h in os :: StillAsRead(os, done, h) ==> os[h].View() == vs[h])
  }

  // Nothing has been added to this host's statistics yet.
  predicate StillAsRead(os: map<string, Stats>, done: set<string>, host: string)
    requires host in os
  {
    STATS_TOTAL in os && STATS_TOTAL in done ==> os[host] != os[STATS_TOTAL]
  }

  // One round of the loop. The total is added to itself when the host is named like it, or
  // shares the statistics of that host after it.
  method AddNext(os: map<string, Stats>, ghost vs: map<string, Figures>, ghost done: set<string>, ghost total: Stats,
                 before: map<string, Stats>, host: string) returns (ok: bool, consolidated: map<string, Stats>)
    requires Copied(os, vs, done, total, before) && host in os && host !in done
    modifies if host == STATS_TOTAL then os[host] else before[STATS_TOTAL]
    ensures var own := host == STATS_TOTAL || (host in Twins(os) && STATS_TOTAL in done);
            var target := if host == STATS_TOTAL then vs[host] else old(before[STATS_TOTAL].View());
            && (ok <==> own || Addable(target, vs[host]))
            && (ok ==> Copied(os, vs, done + {host}, total, consolidated) && STATS_TOTAL in consolidated
                       && consolidated[STATS_TOTAL].View() == Plus(target, if own then target else vs[host]))
  {
    hide Addable, Plus;
    FitsItself(os[host].View());
    consolidated := before[host := os[host]];
    ok := consolidated[STATS_TOTAL].Add(os[host]);
  }

  // Every host as it is, and the total under its own name. Without ok an addition broke off.
  method Consolidate(os: map<string, Stats>) returns (ok: bool, consolidated: map<string, Stats>, order: seq<string>)
    modifies if STATS_TOTAL in os then {os[STATS_TOTAL]} else {}
    ensures IsOrder(order, os.Keys)
    ensures ok <==> AllFit(old(Views(os)), Twins(os), order, |order|)
    ensures ok ==> consolidated.Keys == os.Keys + {STATS_TOTAL} && forall h | h in os :: consolidated[h] == os[h]
    ensures ok ==> consolidated[STATS_TOTAL].View() == Total(old(Views(os)), Twins(os), order, |order|)
    ensures ok && STATS_TOTAL !in os ==> fresh(consolidated[STATS_TOTAL])
  {
    hide AllFit, Total, Addable, Hosts, Plus, Views, Copied, IsOrder, Twins;
    order := Iterated(os);
    ghost var vs, twins := Views(os), Twins(os);
    assert forall k :: k in order <==> k in vs by { InOrder(order, os.Keys); }
    var total := new Stats();
    consolidated := map[STATS_TOTAL := total];
    NoneFitted(vs, twins, order);
    NoneCopied(os, total);
    for n := 0 to |order|
      invariant AllFit(vs, twins, order, n)
      invariant Copied(os, vs, Hosts(order, n), total, consolidated)
      invariant STATS_TOTAL in consolidated && consolidated[STATS_TOTAL].View() == Total(vs, twins, order, n)
    {
      var host := order[n];
      OneMoreVisited(order, n + 1, os.Keys);
      OneMoreFits(vs, twins, order, n + 1);
      OneMoreTotal(vs, twins, order, n + 1);
      VisitedBefore(order, n);
      TargetIs(os, vs, Hosts(order, n), total, consolidated);
      ok, consolidated := AddNext(os, vs, Hosts(order, n), total, consolidated, host);
      if !ok {
        BrokenOff(vs, twins, order, n + 1);
        return;
      }
    }
    ok := true;
    AllVisited(order, os.Keys);
    TargetIs(os, vs, os.Keys, total, consolidated);
  }

  lemma InOrder(order: seq<string>, keys: set<string>)
    requires IsOrder(order, keys)
    ensures forall k :: k in order <==> k in keys
  {}

  lemma VisitedBefore(order: seq<string>, n: nat)
    requires n <= |order|
    ensures forall k :: k in order[..n] <==> k in Hosts(order, n)
  {}

  lemma NoneCopied(os: map<string, Stats>, total: Stats)
    requires forall h | h in os :: os[h] != total
    ensures Copied(os, Views(os), {}, total, map[STATS_TOTAL := total])
  {}

  // The total under construction is a new object, or the host of its name once that is copied.
  lemma TargetIs(os: map<string, Stats>, vs: map<string, Figures>, done: set<string>, total: Stats,
                 consolidated: map<string, Stats>)
    requires Copied(os, vs, done, total, consolidated)
    ensures consolidated.Keys == done + {STATS_TOTAL} && done <= os.Keys
    ensures forall h | h in done :: consolidated[h] == os[h]
    ensures consolidated[STATS_TOTAL] == if STATS_TOTAL in done then os[STATS_TOTAL] else total
  {}
}
