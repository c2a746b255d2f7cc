/** A network scheme and the `phys_dev` query of `get_network_role_property` on it. */
module NetworkScheme {
  import opened Wrappers
  import opened Devices
  import opened Resolver

  /**
   * The parts of a network scheme that `phys_dev` depends on: the names under
   * `interfaces`, the ordered `transformations`, and `roles` (role name to
   * endpoint name).
   */
  datatype Scheme = Scheme(
    interfaces: set<string>,
    transformations: seq<Transformation>,
    roles: map<string, string>)

  /** The device graph of a scheme. */
  function SchemeTable(s: Scheme): (g: Table)
    ensures forall n :: n in s.interfaces ==> n in g
    ensures Closed(g)
  {
    BuiltClosed(Initial(s.interfaces), s.transformations);
    Built(Initial(s.interfaces), s.transformations)
  }

  /**
   * `get_network_role_property(role, 'phys_dev')`: `None` (nil) for a role the
   * scheme does not bind, otherwise the devices under the role's endpoint,
   * each once.
   */
  function PhysDev(s: Scheme, role: string): (r: Option<seq<string>>)
    ensures r.None? <==> role !in s.roles
    ensures r.Some? ==> NoDup(r.value)
  {
    if role in s.roles then
      Some(PhysDevices(SchemeTable(s), s.roles[role]))
    else None
  }

  /** Every device `phys_dev` names carries traffic itself: a non-bridge node or a bond member. */
  lemma PhysDevSound(s: Scheme, role: string)
    ensures PhysDev(s, role).Some? ==> forall x :: x in PhysDev(s, role).value ==> Backing(SchemeTable(s), x)
  {
    if role in s.roles { PhysDevicesSound(SchemeTable(s), s.roles[role]); }
  }

  /**
   * For a bound role, `phys_dev` names exactly the devices reachable from the
   * role's endpoint through bridge ports and patch peers.
   */
  lemma PhysDevReach(s: Scheme, role: string, x: string)
    requires role in s.roles
    ensures x in PhysDev(s, role).value <==> Reaches(SchemeTable(s), DeviceOf(SchemeTable(s), s.roles[role]), x)
  {
    PhysDevicesReach(SchemeTable(s), s.roles[role], x);
  }
}
