// What the comparisons, keys and derived values tell apart, field by field.

module Meanings {
  import opened Sorting
  import opened Values

  // ---- Keys with a mark in the middle ----

  lemma FirstMark(mark: char, a: string, b: string)
    requires mark !in a
    ensures (a + [mark] + b)[|a|] == mark && forall i | 0 <= i < |a| :: (a + [mark] + b)[i] != mark
    ensures (a + [mark] + b)[..|a|] == a && (a + [mark] + b)[|a| + 1..] == b
  {
    forall i | 0 <= i < |a| ensures (a + [mark] + b)[i] != mark { assert a[i] in a; }
  }

  // The first mark is the separator if nothing before it holds one.
  lemma SplitAtMark(mark: char, a: string, b: string, c: string, d: string)
    requires mark !in a && mark !in c
    ensures a + [mark] + b == c + [mark] + d <==> a == c && b == d
  {
    FirstMark(mark, a, b);
    FirstMark(mark, c, d);
  }

  // Nil counts as empty.
  function Text(s: Option<string>): string
  {
    if s == None then "" else s.value
  }

  // What a rewrite says: answer this domain with that.
  function Saying(e: RewriteEntry): (string, string)
  {
    (Text(e.domain), Text(e.answer))
  }

  // No domain name holds a '#'.
  predicate PlainEntry(e: RewriteEntry)
  {
    '#' !in Text(e.domain)
  }

  // The key of a rewrite tells domain and answer apart, up to nil and empty.
  lemma KeyTells(a: RewriteEntry, b: RewriteEntry)
    requires PlainEntry(a) && PlainEntry(b)
    ensures a.Key() == b.Key() <==> Saying(a) == Saying(b)
  {
    SplitAtMark('#', Text(a.domain), Text(a.answer), Text(b.domain), Text(b.answer));
  }

  // With a '#' in a domain it does not.
  lemma HashCollides()
    ensures var a, b := RewriteEntry(Some("a#b"), Some("c")), RewriteEntry(Some("a"), Some("b#c"));
            a.Key() == b.Key() && Saying(a) != Saying(b)
  {}

  // ---- Profiles ----

  // A profile is written exactly when the replica has a name and the origin another,
  // non-empty language; it has the replica's name, the origin's language, and the origin's
  // theme only if that is synchronized and not empty.
  lemma ProfileToWrite(p: Profile, o: Profile, withTheme: bool)
    ensures ShouldSyncFor(p, o, withTheme) ==
            if p.name != "" && o.language !in ["", p.language]
            then Some(Profile(p.name, o.language, if withTheme && o.theme != "" then o.theme else p.theme)) else None
  {}

  // ---- Safe search and access lists ----

  // On counts as on, off and absent as off.
  predicate On(flag: Option<bool>)
  {
    flag.Some? && flag.value
  }

  // The switch and the search engines that are compared; ecosia is not.
  function SafeSearchFlags(s: SafeSearch): seq<bool>
  {
    [On(s.enabled), On(s.bing), On(s.duckduckgo), On(s.google), On(s.pixabay), On(s.yandex), On(s.youtube)]
  }

  lemma SafeSearchEqMeans(a: SafeSearch, b: SafeSearch)
    ensures SafeSearchEq(a, b) <==> SafeSearchFlags(a) == SafeSearchFlags(b)
    ensures SafeSearchEq(a.(ecosia := b.ecosia), b) <==> SafeSearchEq(a, b)
  {
    var x, y := SafeSearchFlags(a), SafeSearchFlags(b);
    assert x == y <==> x[0] == y[0] && x[1] == y[1] && x[2] == y[2] && x[3] == y[3] && x[4] == y[4] && x[5] == y[5]
                       && x[6] == y[6];
  }

  // Both nil, or the same strings as often.
  predicate SameStrings(a: Option<seq<string>>, b: Option<seq<string>>)
  {
    (a == None && b == None) || (a.Some? && b.Some? && multiset(a.value) == multiset(b.value))
  }

  lemma ListEqMeans(a: Option<seq<string>>, b: Option<seq<string>>)
    ensures ListEq(a, b) <==> SameStrings(a, b)
  {
    SortOptForgetsOrder(a, b);
    if a.Some? && b.Some? { SortForgetsOrder(a.value, b.value); }
  }

  lemma AccessEqMeans(a: Access, b: Access)
    ensures AccessEq(a, b) <==>
              && SameStrings(a.allowed, b.allowed) && SameStrings(a.disallowed, b.disallowed)
              && SameStrings(a.blockedHosts, b.blockedHosts)
  {
    ListEqMeans(a.allowed, b.allowed);
    ListEqMeans(a.disallowed, b.disallowed);
    ListEqMeans(a.blockedHosts, b.blockedHosts);
    hide ListEq, SameStrings;
  }

  // A comparison sorts both sides of each list it reaches if neither is nil, and stops at
  // the first list in which they differ.
  lemma ComparedAccess(a: Access, other: Access)
    ensures var left := AccessTouched(a, other);
      && left.allowed == SortedIfReached(a.allowed, other.allowed, true)
      && left.disallowed == SortedIfReached(a.disallowed, other.disallowed, SameStrings(a.allowed, other.allowed))
      && left.blockedHosts == SortedIfReached(a.blockedHosts, other.blockedHosts,
                                      SameStrings(a.allowed, other.allowed)
                                      && SameStrings(a.disallowed, other.disallowed))
  {
    ListEqMeans(a.allowed, other.allowed);
    ListEqMeans(a.disallowed, other.disallowed);
    hide ListEq, SameStrings;
  }

  function SortedIfReached(a: Option<seq<string>>, other: Option<seq<string>>, reached: bool): Option<seq<string>>
  {
    if reached && a.Some? && other.Some? then Some(Sort(a.value)) else a
  }

  // ---- User rules ----

  predicate Spaceless(rules: seq<string>)
  {
    forall i | 0 <= i < |rules| :: ' ' !in rules[i]
  }

  lemma {:induction false} JoinTells(a: seq<string>, b: seq<string>)
    requires Spaceless(a) && Spaceless(b) && a != [] && b != []
    ensures Join(a, " ") == Join(b, " ") <==> a == b
    decreases |a|
  {
    if |a| > 1 && |b| > 1 {
      assert Spaceless(a[1..]) && Spaceless(b[1..]);
      JoinTells(a[1..], b[1..]);
      SplitAtMark(' ', a[0], Join(a[1..], " "), b[0], Join(b[1..], " "));
      assert a == [a[0]] + a[1..] && b == [b[0]] + b[1..];
    } else if |a| > 1 {
      FirstMark(' ', a[0], Join(a[1..], " "));
      assert Join(a, " ")[|a[0]|] in Join(a, " ");
    } else if |b| > 1 {
      FirstMark(' ', b[0], Join(b[1..], " "));
      assert Join(b, " ")[|b[0]|] in Join(b, " ");
    }
  }

  // No rule, or one without a text.
  predicate Blank(rules: seq<string>)
  {
    rules == [] || rules == [""]
  }

  lemma BlankJoins(rules: seq<string>)
    requires Spaceless(rules)
    ensures Join(rules, " ") == "" <==> Blank(rules)
  {
    if |rules| > 1 { FirstMark(' ', rules[0], Join(rules[1..], " ")); }
  }

  // Rules without spaces are written exactly when they differ, in order and number too,
  // but for a single empty rule; no rules and an empty list of rules differ.
  lemma RenderTells(a: Option<seq<string>>, b: Option<seq<string>>)
    requires (a.Some? ==> Spaceless(a.value)) && (b.Some? ==> Spaceless(b.value))
    ensures Render(a) == Render(b) <==> a == b || (a.Some? && b.Some? && Blank(a.value) && Blank(b.value))
  {
    if a.Some? && b.Some? {
      BlankJoins(a.value);
      BlankJoins(b.value);
      if a.value != [] && b.value != [] { JoinTells(a.value, b.value); }
      RenderInside(a.value);
      RenderInside(b.value);
    }
  }

  lemma RenderInside(rules: seq<string>)
    ensures var text := Render(Some(rules)); |text| >= 3 && text[2..|text| - 1] == Join(rules, " ")
  {}

  // With spaces, rules split differently look the same.
  lemma SpacesHideRules()
    ensures Render(Some(["a b"])) == Render(Some(["a", "b"]))
  {
    assert Join(["a", "b"], " ") == "a" + " " + Join(["a", "b"][1..], " ") == "a b";
  }

  // ---- Entries of the keyed lists ----

  // Filters by URL, name and flag, leases by MAC alone; for clients see ClientEqMeaning.
  lemma SameMeans(a: Item, b: Item)
    ensures a.Filter? ==> (Same(a, b) <==> b.Filter? && a.url == b.url && a.name == b.name && a.enabled == b.enabled)
    ensures a.Lease? ==> (Same(a, b) <==> b.Lease? && a.mac == b.mac)
    ensures a.Client? ==> (Same(a, b) <==> b.Client? && ClientEq(a, b))
  {}

  predicate Dayless(schedule: Schedule)
  {
    schedule.mon == schedule.tue == schedule.wed == schedule.thu == schedule.fri == schedule.sat == schedule.sun == None
  }

  function Alphabetical(a: Option<seq<string>>): Option<seq<string>>
  {
    if a == None then None else Some(Sort(a.value))
  }

  // A client as a comparison leaves it: its lists sorted, and no time zone beside a day.
  function Tidied(c: Item): Item
    requires c.Client?
  {
    c.(ids := Alphabetical(c.ids), tags := Alphabetical(c.tags), blockedServices := Alphabetical(c.blockedServices),
       upstreams := Alphabetical(c.upstreams),
       schedule := if c.schedule.Some? && !Dayless(c.schedule.value) then Some(c.schedule.value.(timeZone := None))
                   else c.schedule)
  }

  lemma TouchedIs(c: Item)
    requires c.Client?
    ensures Touched(c) == Tidied(c)
  {}

  // ---- DHCP ----

  predicate Given(s: Option<string>)
  {
    s != None && s != Some("")
  }

  // An IPv4 section with all four addresses, an IPv6 section with its one.
  predicate UsableV4(v4: Option<DhcpV4>)
  {
    v4.Some? && Given(v4.value.gatewayIp) && Given(v4.value.subnetMask) && Given(v4.value.rangeStart)
    && Given(v4.value.rangeEnd)
  }

  predicate UsableV6(v6: Option<DhcpV6>)
  {
    v6.Some? && Given(v6.value.rangeStart)
  }

  // Cleaning takes out the sections that are not usable and leaves the rest alone.
  lemma CleaningKeeps(d: Dhcp)
    ensures var c := d.Cleaned();
      && c.v4 == (if UsableV4(d.v4) then d.v4 else None) && c.v6 == (if UsableV6(d.v6) then d.v6 else None)
      && c.enabled == d.enabled && c.interfaceName == d.interfaceName && c.leases == d.leases
    ensures d.HasConfig() <==> UsableV4(d.v4) || UsableV6(d.v6)
    ensures d.Clean() <==> (d.v4.Some? ==> UsableV4(d.v4)) && (d.v6.Some? ==> UsableV6(d.v6))
  {}
}
