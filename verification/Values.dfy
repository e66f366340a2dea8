// The settings an AdGuard Home instance holds, as values, each with the comparison
// the program uses for it.

module Values {
  import opened Sorting

  // A part of the configuration that the program only moves and compares as JSON.
  type Json = string

  datatype DayRange = DayRange(start: Option<real>, end: Option<real>)

  datatype Schedule = Schedule(
    timeZone: Option<string>,
    mon: Option<DayRange>, tue: Option<DayRange>, wed: Option<DayRange>, thu: Option<DayRange>,
    fri: Option<DayRange>, sat: Option<DayRange>, sun: Option<DayRange>)
  {
    predicate HasDay() {
      mon.Some? || tue.Some? || wed.Some? || thu.Some? || fri.Some? || sat.Some? || sun.Some?
    }
  }

  // The entries of the keyed lists: filters by URL, leases by MAC, clients by name.
  datatype Item =
    | Filter(url: string, name: string, enabled: bool)
    | Lease(mac: string, ip: string, hostname: string)
    | Client(clientName: string, ids: Option<seq<string>>, tags: Option<seq<string>>,
             blockedServices: Option<seq<string>>, upstreams: Option<seq<string>>,
             schedule: Option<Schedule>, rest: Json)
  {
    function Key(): string {
      match this
      case Filter(url, _, _) => url
      case Lease(mac, _, _) => mac
      case Client(name, _, _, _, _, _, _) => name
    }
  }

  datatype ListId = BlockLists | AllowLists | Clients | Leases
  datatype Slot = Slot(list: ListId, key: string)

  predicate Belongs(list: ListId, it: Item)
  {
    match list
    case BlockLists => it.Filter?
    case AllowLists => it.Filter?
    case Clients => it.Client?
    case Leases => it.Lease?
  }

  // ---- Clients ----

  function SortLists(c: Item): (r: Item)
    requires c.Client?
    ensures r.Client? && r.Key() == c.Key()
  {
    c.(ids := SortOpt(c.ids), tags := SortOpt(c.tags),
       blockedServices := SortOpt(c.blockedServices), upstreams := SortOpt(c.upstreams))
  }

  function WithoutZone(c: Item): Item
    requires c.Client?
  {
    c.(schedule := if c.schedule.Some? then Some(c.schedule.value.(timeZone := None)) else None)
  }

  predicate HasDay(c: Item)
    requires c.Client?
  {
    c.schedule.Some? && c.schedule.value.HasDay()
  }

  // What a comparison sees of a client: the order of its lists does not count, nor
  // does the time zone of a schedule without a day.
  function Canon(c: Item): (r: Item)
    requires c.Client?
    ensures r.Client?
  {
    if HasDay(c) then SortLists(c) else WithoutZone(SortLists(c))
  }

  // What a comparison leaves behind of a client it has looked at.
  function Touched(c: Item): (r: Item)
    requires c.Client?
    ensures r.Client? && r.Key() == c.Key()
  {
    if HasDay(c) then WithoutZone(SortLists(c)) else SortLists(c)
  }

  // A schedule with both a day and a time zone: the case a comparison spoils.
  predicate Lossy(c: Item)
  {
    c.Client? && c.schedule.Some? && c.schedule.value.HasDay() && c.schedule.value.timeZone.Some?
  }

  predicate ClientEq(a: Item, b: Item)
    requires a.Client? && b.Client?
  {
    Canon(a) == Canon(b)
  }

  lemma SortListsTwice(c: Item)
    requires c.Client?
    ensures SortLists(SortLists(c)) == SortLists(c)
  {
    SortOptForgetsOrder(c.ids, c.ids);
    SortOptForgetsOrder(c.tags, c.tags);
    SortOptForgetsOrder(c.blockedServices, c.blockedServices);
    SortOptForgetsOrder(c.upstreams, c.upstreams);
  }

  // Being compared leaves a client equal to what it was, and equal to it up to the
  // order of its lists, exactly when it does not carry both a day and a time zone.
  lemma ComparingSpoilsExactlyLossy(c: Item)
    requires c.Client?
    ensures ClientEq(Touched(c), c) <==> !Lossy(c)
    ensures SortLists(Touched(c)) == SortLists(c) <==> !Lossy(c)
  {
    SortListsTwice(c);
  }

  // Equal clients have the same name and the same four lists up to order.
  lemma ClientEqMeaning(a: Item, b: Item)
    requires a.Client? && b.Client?
    ensures ClientEq(a, b) <==>
              && a.clientName == b.clientName && a.rest == b.rest
              && ListEq(a.ids, b.ids) && ListEq(a.tags, b.tags)
              && ListEq(a.blockedServices, b.blockedServices) && ListEq(a.upstreams, b.upstreams)
              && (a.schedule == b.schedule
                  || (a.schedule.Some? && b.schedule.Some? && !HasDay(a) && !HasDay(b)))
  {
    SortOptForgetsOrder(a.ids, b.ids);
    SortOptForgetsOrder(a.tags, b.tags);
    SortOptForgetsOrder(a.blockedServices, b.blockedServices);
    SortOptForgetsOrder(a.upstreams, b.upstreams);
  }

  // The Equals of each list: filters by all three fields, leases by MAC only.
  predicate Same(a: Item, b: Item)
  {
    match (a, b)
    case (Filter(_, _, _), Filter(_, _, _)) => a == b
    case (Lease(m, _, _), Lease(n, _, _)) => m == n
    case (Client(_, _, _, _, _, _, _), Client(_, _, _, _, _, _, _)) => ClientEq(a, b)
    case _ => false
  }

  // The body an update sends: the origin's entry as the comparison left it.
  function Sent(it: Item): (r: Item)
    ensures r.Key() == it.Key()
    ensures forall list :: Belongs(list, r) <==> Belongs(list, it)
  {
    if it.Client? then Touched(it) else it
  }

  // ---- Rewrites ----

  datatype RewriteEntry = RewriteEntry(domain: Option<string>, answer: Option<string>)
  {
    // Absent counts as empty, so different entries can share a key.
    function Key(): string {
      (if domain.Some? then domain.value else "") + "#" + (if answer.Some? then answer.value else "")
    }
  }

  // ---- The settings that are single values ----

  datatype SafeSearch = SafeSearch(
    enabled: Option<bool>, bing: Option<bool>, duckduckgo: Option<bool>, ecosia: Option<bool>,
    google: Option<bool>, pixabay: Option<bool>, yandex: Option<bool>, youtube: Option<bool>)

  // ptrEquals on flags: absent counts as false.
  predicate FlagEq(a: Option<bool>, b: Option<bool>)
  {
    (a == Some(true)) == (b == Some(true))
  }

  // Ecosia is not compared.
  predicate SafeSearchEq(a: SafeSearch, b: SafeSearch)
  {
    FlagEq(a.enabled, b.enabled) && FlagEq(a.bing, b.bing) && FlagEq(a.duckduckgo, b.duckduckgo) &&
    FlagEq(a.google, b.google) && FlagEq(a.pixabay, b.pixabay) && FlagEq(a.yandex, b.yandex) &&
    FlagEq(a.youtube, b.youtube)
  }

  datatype Profile = Profile(name: string, language: string, theme: string)

  predicate ProfileEq(a: Profile, b: Profile, withTheme: bool)
  {
    a.language == b.language && (withTheme ==> a.theme == b.theme)
  }

  // The profile to write to a replica that has p, when the origin has o.
  function ShouldSyncFor(p: Profile, o: Profile, withTheme: bool): Option<Profile>
  {
    if ProfileEq(p, o, withTheme) then None
    else
      var language := if o.language != "" then o.language else p.language;
      var theme := if withTheme && o.theme != "" then o.theme else p.theme;
      var merged := Profile(p.name, language, theme);
      if merged.name == "" || merged.language == "" || ProfileEq(merged, p, false) then None
      else Some(merged)
  }

  datatype Dns = Dns(
    upstream: Option<seq<string>>, bootstrap: Option<seq<string>>, localPtr: Option<seq<string>>,
    protection: Option<bool>, rest: Json)

  // DNSConfig.Sort: all three lists are sorted when there is an upstream list, none otherwise.
  function SortDns(d: Dns): Dns
  {
    if d.upstream.None? then d
    else d.(upstream := SortOpt(d.upstream), bootstrap := SortOpt(d.bootstrap), localPtr := SortOpt(d.localPtr))
  }

  predicate DnsEq(a: Dns, b: Dns)
  {
    SortDns(a) == SortDns(b)
  }

  // Sorting dereferences the two other lists when there is an upstream list.
  predicate Sortable(d: Dns)
  {
    d.upstream.Some? ==> d.bootstrap.Some? && d.localPtr.Some?
  }

  // With an upstream list, DNS configurations compare up to the order of the three
  // lists; without one, the order of the other two counts.
  lemma DnsEqMeaning(a: Dns, b: Dns)
    ensures DnsEq(a, b) <==>
              && a.protection == b.protection && a.rest == b.rest
              && (a.upstream.Some? <==> b.upstream.Some?)
              && (if a.upstream.Some? then ListEq(a.upstream, b.upstream)
                    && ListEq(a.bootstrap, b.bootstrap) && ListEq(a.localPtr, b.localPtr)
                  else a == b)
  {
    SortOptForgetsOrder(a.upstream, b.upstream);
    SortOptForgetsOrder(a.bootstrap, b.bootstrap);
    SortOptForgetsOrder(a.localPtr, b.localPtr);
  }

  datatype QueryLog = QueryLog(
    enabled: Option<bool>, interval: Option<real>, anonymizeClientIp: Option<bool>, rest: Json)
  {
    // The fields the log line before a write dereferences.
    predicate Loggable() { enabled.Some? && interval.Some? && anonymizeClientIp.Some? }
  }

  datatype FilteringConfig = FilteringConfig(enabled: Option<bool>, interval: Option<int>)

  // utils.PtrToString of the user rules: the text they are compared by.
  function Render(rules: Option<seq<string>>): string
  {
    if rules.None? then "" else "&[" + Join(rules.value, " ") + "]"
  }

  function Join(parts: seq<string>, separator: string): string
  {
    if parts == [] then ""
    else if |parts| == 1 then parts[0]
    else parts[0] + separator + Join(parts[1..], separator)
  }

  datatype Services = Services(ids: Option<seq<string>>, schedule: Option<Schedule>)

  datatype Access = Access(
    allowed: Option<seq<string>>, disallowed: Option<seq<string>>, blockedHosts: Option<seq<string>>)

  predicate AccessEq(a: Access, b: Access)
  {
    ListEq(a.allowed, b.allowed) && ListEq(a.disallowed, b.disallowed) &&
    ListEq(a.blockedHosts, b.blockedHosts)
  }

  // What AccessList.Equals leaves of one side: a list is sorted when it was reached
  // and neither side of it is nil.
  function AccessTouched(a: Access, other: Access): Access
  {
    var a1 := a.(allowed := if other.allowed.Some? then SortOpt(a.allowed) else a.allowed);
    if !ListEq(a.allowed, other.allowed) then a1
    else
      var a2 := a1.(disallowed := if other.disallowed.Some? then SortOpt(a.disallowed) else a.disallowed);
      if !ListEq(a.disallowed, other.disallowed) then a2
      else a2.(blockedHosts := if other.blockedHosts.Some? then SortOpt(a.blockedHosts) else a.blockedHosts)
  }

  // A comparison only reorders an access list.
  lemma AccessTouchedEq(a: Access, other: Access)
    ensures AccessEq(AccessTouched(a, other), a)
  {}

  datatype DhcpV4 = DhcpV4(
    gatewayIp: Option<string>, leaseDuration: Option<int>, rangeEnd: Option<string>,
    rangeStart: Option<string>, subnetMask: Option<string>)
  {
    predicate Valid() {
      Filled(gatewayIp) && Filled(subnetMask) && Filled(rangeStart) && Filled(rangeEnd)
    }
  }

  datatype DhcpV6 = DhcpV6(leaseDuration: Option<int>, rangeStart: Option<string>)
  {
    predicate Valid() { Filled(rangeStart) }
  }

  predicate Filled(s: Option<string>) { s.Some? && s.value != "" }

  // A DHCP status without its static leases, which are a keyed list of their own.
  datatype Dhcp = Dhcp(
    enabled: Option<bool>, interfaceName: Option<string>, leases: Json, v4: Option<DhcpV4>, v6: Option<DhcpV6>)
  {
    predicate HasConfig() { (v4.Some? && v4.value.Valid()) || (v6.Some? && v6.value.Valid()) }

    predicate Clean() { (v4.Some? ==> v4.value.Valid()) && (v6.Some? ==> v6.value.Valid()) }

    function Cleaned(): (r: Dhcp)
      ensures r.Clean() && (r.HasConfig() <==> HasConfig())
    {
      this.(v4 := if v4.Some? && !v4.value.Valid() then None else v4,
            v6 := if v6.Some? && !v6.value.Valid() then None else v6)
    }
  }

  // Everything that is a single value. The protection flag is also part of the DNS
  // configuration (see Instance.ReadDns).
  datatype Settings = Settings(
    protection: bool, parental: bool, safeBrowsing: bool, safeSearch: SafeSearch, profile: Profile,
    dns: Dns, queryLog: QueryLog, stats: Json, userRules: Option<seq<string>>, filtering: FilteringConfig,
    services: Services, access: Access, dhcp: Dhcp, tls: Json)
}
