// An AdGuard Home instance as the program sees it: the calls of its HTTP API and what
// each call does when it succeeds. The server itself is not part of the repository, so
// the function Effect is the contract the model assumes of it: a call that is answered
// with success has its effect, and any other call has none.

module Server {
  import opened Sorting
  import opened Values

  datatype Resource =
    | Status | ProfileInfo | Parental | SafeSearchConfig | SafeBrowsing | RewriteList
    | BlockedServices | Filtering | ClientList | QueryLogConfig | StatsConfig | AccessLists
    | DnsConfig | DhcpConfig | TlsConfig

  // A change of one entry of one keyed list.
  datatype Change =
    | Remove(slot: Slot, item: Item)
    | Add(slot: Slot, item: Item)
    | Update(slot: Slot, item: Item)

  datatype Call =
    | Get(what: Resource)
    | Setup
    | SetProfile(profile: Profile)
    | ToggleProtection(on: bool)
    | ToggleParental(on: bool)
    | SetSafeSearch(safeSearch: SafeSearch)
    | ToggleSafeBrowsing(on: bool)
    | SetDns(dns: Dns)
    | SetQueryLog(queryLog: QueryLog)
    | SetStats(stats: Json)
    | DeleteRewrite(entry: RewriteEntry)
    | AddRewrite(entry: RewriteEntry)
    | ListChange(change: Change)
    | RefreshFilters(whitelist: bool)
    | SetRules(rules: Option<seq<string>>)
    | ToggleFiltering(filtering: FilteringConfig)
    | SetServices(services: Services)
    | SetAccess(access: Access)
    | SetDhcp(dhcp: Dhcp)
    | SetTls(tls: Json)

  datatype Reply = Done | SetupNeeded | Failed(code: int)

  // One call and its answer. The request for a new filter carries no enabled flag;
  // "given" is the flag the server picks then.
  datatype Event = Event(call: Call, reply: Reply, given: bool)
  {
    predicate Ok() { reply.Done? }
  }

  datatype Instance = Instance(
    version: string, settings: Settings, rewrites: seq<RewriteEntry>, lists: map<Slot, Item>)
  {
    // /dns_info reports the protection flag; /dns_config sets it.
    function ReadDns(): Dns { settings.dns.(protection := Some(settings.protection)) }
  }

  // What a successful add stores.
  function Stored(it: Item, given: bool): (r: Item)
    ensures r.Key() == it.Key()
  {
    if it.Filter? then it.(enabled := given) else it
  }

  function Changed(lists: map<Slot, Item>, c: Change, given: bool): map<Slot, Item>
  {
    match c
    case Remove(slot, _) => lists - {slot}
    case Add(slot, it) => lists[slot := Stored(it, given)]
    case Update(slot, it) => lists[slot := it]
  }

  // Deletes one copy of an entry.
  function RemoveOne(s: seq<RewriteEntry>, e: RewriteEntry): seq<RewriteEntry>
  {
    if s == [] then []
    else if s[0] == e then s[1..]
    else [s[0]] + RemoveOne(s[1..], e)
  }

  function Rewritten(rewrites: seq<RewriteEntry>, call: Call): seq<RewriteEntry>
  {
    match call
    case DeleteRewrite(e) => RemoveOne(rewrites, e)
    case AddRewrite(e) => rewrites + [e]
    case _ => rewrites
  }

  function Configured(s: Settings, call: Call): Settings
  {
    match call
    case SetProfile(p) => s.(profile := p)
    case ToggleProtection(on) => s.(protection := on)
    case ToggleParental(on) => s.(parental := on)
    case SetSafeSearch(v) => s.(safeSearch := v)
    case ToggleSafeBrowsing(on) => s.(safeBrowsing := on)
    case SetDns(d) =>
      s.(dns := d.(protection := None),
         protection := if d.protection.Some? then d.protection.value else s.protection)
    case SetQueryLog(v) => s.(queryLog := v)
    case SetStats(v) => s.(stats := v)
    case SetRules(v) => s.(userRules := v)
    case ToggleFiltering(v) => s.(filtering := v)
    case SetServices(v) => s.(services := v)
    case SetAccess(v) => s.(access := v)
    case SetDhcp(d) => s.(dhcp := d.(leases := s.dhcp.leases))
    case SetTls(v) => s.(tls := v)
    case _ => s
  }

  // What a successful call does. Reads, the setup and a refresh change none of this.
  function Effect(s: Instance, call: Call, given: bool): Instance
  {
    s.(settings := Configured(s.settings, call),
       rewrites := Rewritten(s.rewrites, call),
       lists := if call.ListChange? then Changed(s.lists, call.change, given) else s.lists)
  }

  function After(s: Instance, e: Event): Instance
  {
    if e.Ok() then Effect(s, e.call, e.given) else s
  }

  // The state after a sequence of calls.
  function Replay(s: Instance, events: seq<Event>): Instance
  {
    if events == [] then s
    else After(Replay(s, events[..|events| - 1]), events[|events| - 1])
  }

  predicate AllOk(events: seq<Event>)
  {
    forall i | 0 <= i < |events| :: events[i].Ok()
  }

  predicate IsWrite(call: Call)
  {
    !call.Get?
  }

  lemma ReplayOne(s: Instance, events: seq<Event>, e: Event)
    ensures Replay(s, events + [e]) == After(Replay(s, events), e)
  {
    assert (events + [e])[..|events|] == events;
  }

  lemma {:induction false} ReplayConcat(s: Instance, a: seq<Event>, b: seq<Event>)
    ensures Replay(s, a + b) == Replay(Replay(s, a), b)
  {
    if b == [] {
      assert a + b == a;
    } else {
      var n := |b| - 1;
      ReplayConcat(s, a, b[..n]);
      assert (a + b)[..|a + b| - 1] == a + b[..n];
    }
  }

  lemma ReplayStep(s: Instance, events: seq<Event>, k: nat)
    requires k < |events|
    ensures Replay(s, events[..k + 1]) == After(Replay(s, events[..k]), events[k])
  {
    assert events[..k + 1] == events[..k] + [events[k]];
    ReplayOne(s, events[..k], events[k]);
  }

  // ---- Slots: a slot nobody touches keeps its entry ----

  predicate Touches(call: Call, slot: Slot)
  {
    call.ListChange? && call.change.slot == slot
  }

  predicate SameAt(a: map<Slot, Item>, b: map<Slot, Item>, slot: Slot)
  {
    (slot in a <==> slot in b) && (slot in a ==> a[slot] == b[slot])
  }

  lemma {:induction false} UntouchedSlot(s: Instance, events: seq<Event>, slot: Slot)
    requires forall i | 0 <= i < |events| :: !Touches(events[i].call, slot)
    ensures SameAt(Replay(s, events).lists, s.lists, slot)
  {
    if events != [] {
      UntouchedSlot(s, events[..|events| - 1], slot);
    }
  }

  // A slot touched once, at position k, holds what that call made of its old entry.
  lemma TouchedOnce(s: Instance, events: seq<Event>, k: nat)
    requires k < |events| && events[k].call.ListChange?
    requires forall i | 0 <= i < |events| && i != k :: !Touches(events[i].call, events[k].call.change.slot)
    ensures var slot := events[k].call.change.slot;
            SameAt(Replay(s, events).lists, After(Replay(s, events[..k]), events[k]).lists, slot) &&
            SameAt(Replay(s, events[..k]).lists, s.lists, slot)
  {
    var slot := events[k].call.change.slot;
    UntouchedSlot(s, events[..k], slot);
    ReplayStep(s, events, k);
    ReplayConcat(s, events[..k + 1], events[k + 1..]);
    assert events == events[..k + 1] + events[k + 1..];
    UntouchedSlot(Replay(s, events[..k + 1]), events[k + 1..], slot);
  }

  // ---- Rewrite keys ----

  // The keys of the first n entries, with repetitions.
  function KeysUpTo(s: seq<RewriteEntry>, n: nat): multiset<string>
    requires n <= |s|
  {
    if n == 0 then multiset{} else KeysUpTo(s, n - 1) + multiset{s[n - 1].Key()}
  }

  function KeyBag(s: seq<RewriteEntry>): multiset<string>
  {
    KeysUpTo(s, |s|)
  }

  lemma {:induction false} KeysOfPrefix(a: seq<RewriteEntry>, b: seq<RewriteEntry>, n: nat)
    requires n <= |a| && n <= |b| && a[..n] == b[..n]
    ensures KeysUpTo(a, n) == KeysUpTo(b, n)
  {
    if n > 0 {
      assert a[..n][n - 1] == b[..n][n - 1];
      assert a[..n][..n - 1] == a[..n - 1] && b[..n][..n - 1] == b[..n - 1];
      KeysOfPrefix(a, b, n - 1);
    }
  }

  lemma KeyBagEmpty()
    ensures KeyBag([]) == multiset{}
  {}

  lemma KeyBagOne(s: seq<RewriteEntry>, e: RewriteEntry)
    ensures KeyBag(s + [e]) == KeyBag(s) + multiset{e.Key()}
  {
    assert (s + [e])[..|s|] == s[..|s|];
    KeysOfPrefix(s + [e], s, |s|);
  }

  lemma {:induction false} KeyBagConcat(a: seq<RewriteEntry>, b: seq<RewriteEntry>)
    ensures KeyBag(a + b) == KeyBag(a) + KeyBag(b)
  {
    if b == [] {
      assert a + b == a;
    } else {
      var b', e := b[..|b| - 1], b[|b| - 1];
      KeyBagConcat(a, b');
      assert b == b' + [e] && a + b == a + b' + [e];
      KeyBagOne(b', e);
      KeyBagOne(a + b', e);
    }
  }

  lemma {:induction false} KeyAmong(s: seq<RewriteEntry>, n: nat, key: string)
    requires n <= |s|
    ensures key in KeysUpTo(s, n) <==> exists i :: 0 <= i < n && s[i].Key() == key
  {
    if n > 0 { KeyAmong(s, n - 1, key); }
  }

  lemma {:induction false} RemoveOneSplits(s: seq<RewriteEntry>, e: RewriteEntry) returns (i: nat)
    requires e in s
    ensures i < |s| && s[i] == e && RemoveOne(s, e) == s[..i] + s[i + 1..]
  {
    if s[0] == e {
      i := 0;
    } else {
      var j := RemoveOneSplits(s[1..], e);
      i := j + 1;
      assert [s[0]] + s[1..][..j] == s[..i] && s[1..][j + 1..] == s[i + 1..];
      assert [s[0]] + (s[1..][..j] + s[1..][j + 1..]) == s[..i] + s[i + 1..];
    }
  }

  // Deleting an entry that is there removes one copy of it, and one copy of its key.
  lemma RemoveOneCopy(s: seq<RewriteEntry>, e: RewriteEntry)
    requires e in s
    ensures multiset(RemoveOne(s, e)) == multiset(s) - multiset{e}
    ensures KeyBag(RemoveOne(s, e)) == KeyBag(s) - multiset{e.Key()}
  {
    hide KeyBag, RemoveOne, RewriteEntry.Key;
    var i := RemoveOneSplits(s, e);
    assert s == s[..i] + [e] + s[i + 1..];
    KeyBagConcat(s[..i] + [e], s[i + 1..]);
    KeyBagOne(s[..i], e);
    KeyBagConcat(s[..i], s[i + 1..]);
  }
}
