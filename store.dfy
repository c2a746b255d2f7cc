/** The per-host scheme store that `set_config` writes and the query reads. */
module Store {
  import opened Wrappers
  import opened Devices
  import opened Resolver
  import opened NetworkScheme

  datatype StoreError = NoSchemeLoaded(host: string)

  /** The most recently stored scheme of each host. */
  class SchemeStore {
    var configs: map<string, Scheme>

    constructor ()
      ensures configs == map[]
    {
      configs := map[];
    }

    /** Stores or replaces the scheme of `host`; the other hosts' schemes are untouched. */
    method SetConfig(host: string, s: Scheme)
      modifies this
      ensures configs == old(configs)[host := s]
      ensures forall h :: h in old(configs) && h != host ==> h in configs && configs[h] == old(configs)[h]
    {
      configs := configs[host := s];
    }

    /** The scheme last stored for `host`, or an error when none was. */
    method GetConfig(host: string) returns (r: Result<Scheme, StoreError>)
      ensures r.Success? <==> host in configs
      ensures r.Success? ==> r.value == configs[host]
      ensures r.Failure? ==> r.error == NoSchemeLoaded(host)
    {
      if host in configs {
        r := Success(configs[host]);
      } else {
        r := Failure(NoSchemeLoaded(host));
      }
    }

    /**
     * `get_network_role_property(role, 'phys_dev')` for `host`: answered from
     * the scheme stored under that host, building its device table first.
     */
    method GetPhysDev(host: string, role: string) returns (r: Result<Option<seq<string>>, StoreError>)
      ensures host !in configs ==> r == Failure(NoSchemeLoaded(host))
      ensures host in configs ==> r == Success(PhysDev(configs[host], role))
    {
      var cfg := GetConfig(host);
      if cfg.Failure? {
        return Failure(cfg.error);
      }
      var s := cfg.value;
      if role !in s.roles {
        return Success(None);
      }
      var g := BuildTable(s.interfaces, s.transformations);
      r := Success(Some(PhysDevices(g, s.roles[role])));
    }
  }
}
