// The origin's configuration as a run holds it in memory, shared by all its replicas.

module Memory {
  import opened Sorting
  import opened Values
  import opened Server
  import opened Merging
  import opened Plans
  import opened Objects
  import opened Configs
  import opened Api

  // What stands for a part that has not been read.
  const NO_ACCESS := Access(None, None, None)
  const NO_SERVICES := Services(None, None)
  const NO_DNS := Dns(None, None, None, None, "")
  const NO_QUERY_LOG := QueryLog(None, None, None, "")
  const NO_DHCP := Dhcp(None, None, "", None, None)

  const NO_SETTINGS := Settings(
    false, false, false, SafeSearch(None, None, None, None, None, None, None, None), Profile("", "", ""),
    NO_DNS, NO_QUERY_LOG, "", None,
    FilteringConfig(None, None), NO_SERVICES, NO_ACCESS, NO_DHCP, "")

  class OriginMemory {
    var version: string
    var settings: Settings
    var rewrites: seq<RewriteEntry>
    var filters: Option<seq<Item>>
    var allowFilters: Option<seq<Item>>
    var clients: seq<PersistentClient>
    var access: AccessList?
    var services: BlockedServices?
    var dns: DnsConfig?
    var dhcp: DhcpStatus?
    var tls: Option<Json>

    // Nothing read yet.
    constructor ()
      ensures version == "" && settings == NO_SETTINGS && rewrites == [] && filters == None && allowFilters == None
      ensures clients == [] && access == null && services == null && dns == null && dhcp == null && tls == None
    {
      version, settings, rewrites, filters, allowFilters := "", NO_SETTINGS, [], None, None;
      clients, access, services, dns, dhcp, tls := [], null, null, null, null, None;
    }

    // What comparing and logging change in place.
    ghost function Touchable(): set<object>
      reads this
    {
      (set c | c in clients :: c as object)
      + (if access == null then {} else access.Slices())
      + (if services == null then {} else Slice(services.ids))
    }

    ghost function Fixed(): set<object>
      reads this
    {
      (if dns == null then {} else dns.Slices()) + (if dhcp == null then {} else {dhcp})
    }

    ghost predicate Valid()
      reads this, clients, Touchable(), Fixed()
    {
      && Distinct(clients)
      && (access != null ==> access.Valid() && forall c | c in clients :: c !in access.Slices())
      && (services != null ==> (access != null ==> access.Slices() !! Slice(services.ids))
                               && forall c | c in clients :: c !in Slice(services.ids))
      && (dns != null ==> dns.Valid())
      && Touchable() !! Fixed() && this !in Touchable() + Fixed()
      && Typed(View())
    }

    ghost function View(): Origin
      reads this, clients, Touchable(), Fixed()
    {
      Origin(
        version,
        settings.(
          access := if access == null then NO_ACCESS else access.View(),
          services := if services == null then NO_SERVICES else services.View(),
          dns := if dns == null then NO_DNS else dns.View(),
          dhcp := if dhcp == null then NO_DHCP else dhcp.View(),
          tls := if tls.None? then "" else tls.value),
        rewrites, OrEmpty(filters), OrEmpty(allowFilters), Views(clients),
        if dhcp == null then None else dhcp.staticLeases)
    }

    // What the view says about the parts that are plain values.
    lemma ViewMeans()
      requires Valid()
      ensures var o := View();
        && Typed(o) && o.rewrites == rewrites && o.version == version
        && o.filters == OrEmpty(filters) && o.allowFilters == OrEmpty(allowFilters)
        && o.settings.protection == settings.protection && o.settings.profile == settings.profile
        && o.settings.parental == settings.parental && o.settings.safeSearch == settings.safeSearch
        && o.settings.safeBrowsing == settings.safeBrowsing && o.settings.queryLog == settings.queryLog
        && o.settings.stats == settings.stats && o.settings.userRules == settings.userRules
        && o.settings.filtering == settings.filtering && (tls.Some? ==> o.settings.tls == tls.value)
        && (dns != null ==> o.settings.dns == dns.View()) && (access != null ==> o.settings.access == access.View())
        && (services != null ==> o.settings.services == services.View()) && o.clients == Views(clients)
        && (dhcp != null ==> o.settings.dhcp == dhcp.View() && o.staticLeases == dhcp.staticLeases)
    {}

    // The clients share nothing with the other parts.
    lemma ClientsStandAlone()
      requires Valid()
      ensures forall c: object | c in clients ::
                && c !in Fixed() && c != this && (access != null ==> c !in access.Slices())
                && (services != null ==> c !in Slice(services.ids))
    {}

    lemma ClientsAreApart(c: ApiClient)
      ensures c !in Touchable() + Fixed()
    {}
  }
}
