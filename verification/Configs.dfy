// The single-valued configurations that live in memory as objects: access lists, blocked
// services, DNS and DHCP configuration.

module Configs {
  import opened Sorting
  import opened Values
  import opened Meanings

  // A fresh slice with the same contents, or nil.
  method CopyOf(s: Option<seq<string>>) returns (a: array?<string>)
    ensures Deref(a) == s && (a != null ==> fresh(a))
  {
    if s.None? { return null; }
    a := new string[|s.value|](i requires 0 <= i < |s.value| => s.value[i]);
    assert a[..] == s.value;
  }

  // The slice behind a pointer, if there is one.
  ghost function Slice(a: array?<string>): set<object>
  {
    if a == null then {} else {a}
  }

  class AccessList {
    const allowed: array?<string>
    const disallowed: array?<string>
    const blockedHosts: array?<string>

    constructor (v: Access)
      ensures View() == v && Valid() && fresh(Slices())
    {
      var a := CopyOf(v.allowed);
      var d := CopyOf(v.disallowed);
      var b := CopyOf(v.blockedHosts);
      allowed, disallowed, blockedHosts := a, d, b;
    }

    ghost predicate Valid()
    {
      Slice(allowed) !! Slice(disallowed) !! Slice(blockedHosts)
    }

    ghost function Slices(): set<object>
    {
      Slice(allowed) + Slice(disallowed) + Slice(blockedHosts)
    }

    function View(): Access
      reads allowed, disallowed, blockedHosts
    {
      Access(Deref(allowed), Deref(disallowed), Deref(blockedHosts))
    }

    // Compares list by list and stops at the first difference; the lists compared so far
    // are left sorted on both sides.
    method Equals(o: AccessList) returns (eq: bool)
      requires Valid() && o.Valid() && Slices() !! o.Slices()
      modifies Slices(), o.Slices()
      ensures eq <==> AccessEq(old(View()), old(o.View()))
      ensures View() == AccessTouched(old(View()), old(o.View()))
      ensures o.View() == AccessTouched(old(o.View()), old(View()))
    {
      hide Sort, ListEq, SortOpt, Deref;
      ListEqSymmetric(Deref(allowed), Deref(o.allowed));
      ListEqSymmetric(Deref(disallowed), Deref(o.disallowed));
      eq := EqualsStringSlice(allowed, o.allowed, true);
      if eq {
        eq := EqualsStringSlice(disallowed, o.disallowed, true);
        if eq {
          eq := EqualsStringSlice(blockedHosts, o.blockedHosts, true);
        }
      }
    }
  }

  class BlockedServices {
    const ids: array?<string>
    const schedule: Option<Schedule>

    constructor (v: Services)
      ensures View() == v && fresh(Slice(ids))
    {
      var a := CopyOf(v.ids);
      ids, schedule := a, v.schedule;
    }

    function View(): Services
      reads ids
    {
      Services(Deref(ids), schedule)
    }

    // ServicesString, for the log: it sorts the ids in place.
    method ServicesString() returns (text: string)
      modifies Slice(ids)
      ensures View() == old(View()).(ids := SortOpt(old(View()).ids))
      ensures text == if ids == null then "[]" else "[" + Join(Sort(old(ids[..])), ",") + "]"
    {
      if ids == null { return "[]"; }
      SortInPlace(ids);
      text := "[" + Join(ids[..], ",") + "]";
    }
  }

  class DnsConfig {
    const upstream: array?<string>
    const bootstrap: array?<string>
    const localPtr: array?<string>
    const protection: Option<bool>
    const rest: Json

    constructor (v: Dns)
      ensures View() == v && Valid() && fresh(Slices())
    {
      var u := CopyOf(v.upstream);
      var b := CopyOf(v.bootstrap);
      var l := CopyOf(v.localPtr);
      upstream, bootstrap, localPtr, protection, rest := u, b, l, v.protection, v.rest;
    }

    ghost predicate Valid()
    {
      Slice(upstream) !! Slice(bootstrap) !! Slice(localPtr)
    }

    ghost function Slices(): set<object>
    {
      Slice(upstream) + Slice(bootstrap) + Slice(localPtr)
    }

    function View(): Dns
      reads upstream, bootstrap, localPtr
    {
      Dns(Deref(upstream), Deref(bootstrap), Deref(localPtr), protection, rest)
    }

    method Clone() returns (c: DnsConfig)
      ensures fresh(c) && c.View() == View() && c.Valid() && fresh(c.Slices())
    {
      c := new DnsConfig(View());
    }

    // All three lists are sorted when there is an upstream list. A list that is missing
    // then would be a nil dereference.
    method Sort()
      requires Valid() && Sortable(View())
      modifies Slices()
      ensures View() == SortDns(old(View()))
    {
      hide Sorting.Sort;
      if upstream != null { SortInPlace(upstream); }
      if upstream != null { SortInPlace(bootstrap); }
      if upstream != null { SortInPlace(localPtr); }
    }

    // Compares sorted copies: neither side is changed.
    method Equals(o: DnsConfig) returns (eq: bool)
      requires Sortable(View()) && Sortable(o.View())
      ensures eq <==> DnsEq(View(), o.View())
      ensures View() == old(View()) && o.View() == old(o.View())
    {
      hide SortDns, Sortable, Deref;
      var cc := Clone();
      var oo := o.Clone();
      cc.Sort();
      oo.Sort();
      eq := cc.View() == oo.View();
    }
  }

  class DhcpStatus {
    var enabled: Option<bool>
    var interfaceName: Option<string>
    const leases: Json
    var v4: Option<DhcpV4>
    var v6: Option<DhcpV6>
    const staticLeases: Option<seq<Item>>

    constructor (v: Dhcp, reserved: Option<seq<Item>>)
      ensures View() == v && staticLeases == reserved
    {
      enabled, interfaceName, leases, v4, v6, staticLeases := v.enabled, v.interfaceName, v.leases, v.v4, v.v6,
          reserved;
    }

    function View(): Dhcp
      reads this
    {
      Dhcp(enabled, interfaceName, leases, v4, v6)
    }

    predicate HasConfig()
      reads this
      ensures HasConfig() <==> View().HasConfig()
    {
      (v4.Some? && v4.value.Valid()) || (v6.Some? && v6.value.Valid())
    }

    method Clone() returns (c: DhcpStatus)
      ensures fresh(c) && c.View() == View() && c.staticLeases == staticLeases
    {
      c := new DhcpStatus(View(), staticLeases);
    }

    // Drops the sections that are not usable and nothing else.
    method CleanV4V6()
      modifies this`v4, this`v6
      ensures View() == old(View()).Cleaned()
      ensures v4 == if UsableV4(old(v4)) then old(v4) else None
      ensures v6 == if UsableV6(old(v6)) then old(v6) else None
    {
      if v4.Some? && !v4.value.Valid() { v4 := None; }
      if v6.Some? && !v6.value.Valid() { v6 := None; }
    }

    // Drops invalid sections on both sides and compares what is left, static leases included.
    method CleanAndEquals(o: DhcpStatus) returns (eq: bool)
      modifies this`v4, this`v6, o`v4, o`v6
      ensures eq <==> View() == o.View() && staticLeases == o.staticLeases
      ensures View() == old(View()).Cleaned() && o.View() == old(o.View()).Cleaned()
      ensures v4 == (if UsableV4(old(v4)) then old(v4) else None) && v6 == if UsableV6(old(v6)) then old(v6) else None
      ensures o.v4 == (if UsableV4(old(o.v4)) then old(o.v4) else None)
      ensures o.v6 == if UsableV6(old(o.v6)) then old(o.v6) else None
    {
      CleanV4V6();
      o.CleanV4V6();
      eq := View() == o.View() && staticLeases == o.staticLeases;
    }
  }
}
