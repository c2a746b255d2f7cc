# l23network `phys_dev` resolution, modelled in Dafny

The l23network puppet module describes a host's network as a scheme. A scheme has:

- a set of physical `interfaces`;
- an ordered list of `transformations` (`add-br`, `add-port`, `add-bond`, `add-patch`);
- per-endpoint settings;
- a `roles` map from role names to endpoint names.

`get_network_role_property(role, 'phys_dev')` answers which physical NICs and bonds carry a role's traffic.

- The scheme is first stored per host by `L23network::Scheme.set_config`.
- The transformations are then applied in order to a device table.
- The role's endpoint is resolved by walking that table through bridge ports and bridge patches.
- The answer is `nil` for an unknown role.

The behaviour is fixed by the test `spec/functions/get_network_role_property__phys_dev__spec.rb`. Its sample scheme and its eight expectations are encoded here, each with a proof. The implementation file is not part of this model. Where the test is silent, the model makes its own choices; these are listed under "## Left out".

Modules:

- `Wrappers` (`wrappers.dfy`): `Option` and `Result`.
- `Devices` (`devices.dfy`):
  - the device table: physical interfaces, bonds with their members, and bridges with their ports and patch peers;
  - the `Transformation` datatype;
  - VLAN names: `eth1.101` stands for `eth1`, the part before the first `.`;
  - one `Step` per transformation, and `Built`, the left-to-right fold of the steps;
  - the loop `BuildTable`, proved to compute `Built`.
- `Resolver` (`resolver.dfy`):
  - the traversal `Walk`/`WalkAll`, which terminates on the set of bridges not yet visited;
  - the deduplicated answer `PhysDevices`, with its properties.
  - `Reaches`, a path-based definition of reachability written independently of the traversal, and the proof that the answer holds exactly the reachable devices.
- `NetworkScheme` (`scheme.dfy`): a scheme's device table and the `phys_dev` answer for a role.
- `Store` (`store.dfy`): the host-keyed scheme store, as a class.
- `Sample` (`sample.dfy`):
  - the test's sample scheme;
  - the device table it builds;
  - one lemma per expectation;
  - a method that replays the test's flow through the store.

## Model

Every source cell points into the test file `spec/functions/get_network_role_property__phys_dev__spec.rb`.

| member | source | states |
|---|---|---|
| Devices.Base | spec/functions/get_network_role_property__phys_dev__spec.rb:29-31 | the base device of a VLAN name is a prefix of it with no `.`, ending just before the first `.` when there is one |
| Devices.BaseOfPlain | spec/functions/get_network_role_property__phys_dev__spec.rb:26-27 | a name without a `.` is its own base device |
| Devices.BaseOfTagged | spec/functions/get_network_role_property__phys_dev__spec.rb:45-47 | a name with its first `.` at position k has the first k characters as base (`bond0.102` gives `bond0`) |
| Devices.DeviceOf | spec/functions/get_network_role_property__phys_dev__spec.rb:29-31 | a name refers to itself when it is a node; otherwise, and only then, to its VLAN base, the part before its first `.` |
| Devices.Initial | spec/functions/get_network_role_property__phys_dev__spec.rb:11-18 | every declared interface, and nothing else, is a physical node before any transformation |
| Devices.Ensure | spec/functions/get_network_role_property__phys_dev__spec.rb:26-28 | after `add-port` a name is resolvable; existing entries are unchanged, and at most one node is added: the name's base device, as a physical interface |
| Devices.EnsureAll | spec/functions/get_network_role_property__phys_dev__spec.rb:35-37 | every member named by `add-bond` is resolvable; existing entries are unchanged, and the only nodes added are the members' base devices, as physical interfaces |
| Devices.Bases | spec/functions/get_network_role_property__phys_dev__spec.rb:35-37 | the set of base devices of a member list holds the base device of every member |
| Devices.EnsureAllKnown | spec/functions/get_network_role_property__phys_dev__spec.rb:35-37 | bond members that already exist leave the table unchanged |
| Devices.Attach | spec/functions/get_network_role_property__phys_dev__spec.rb:29-34 | attaching to an existing bridge appends the port to that bridge's ports and changes no other entry; naming no bridge, or one that does not exist, changes nothing |
| Devices.Step | spec/functions/get_network_role_property__phys_dev__spec.rb:19-63 | no transformation removes a device |
| Devices.StepEffects | spec/functions/get_network_role_property__phys_dev__spec.rb:19-63 | `add-br` yields a bridge and keeps an existing one; `add-port` makes its device known; `add-bond` records the bond with its members in order; attaching to an existing bridge appends to its ports; `add-br` of a name that is not already a bridge, and `add-patch` of two existing bridges, give the whole new table (only the named bridges change; each patched bridge gets the other as peer); `add-patch` otherwise, and other actions, change nothing |
| Devices.PortAttached | spec/functions/get_network_role_property__phys_dev__spec.rb:29-31 | `add-port` of a known device to an existing bridge changes only that bridge's port list |
| Devices.BondAttached | spec/functions/get_network_role_property__phys_dev__spec.rb:32-37 | `add-bond` over known members to an existing bridge changes only the bond's entry and that bridge's port list |
| Devices.Built | spec/functions/get_network_role_property__phys_dev__spec.rb:19-63 | applying the transformations in order never loses an initial device |
| Devices.BuiltExtend | spec/functions/get_network_role_property__phys_dev__spec.rb:19-63 | building one more transformation is one more step on the table built so far |
| Devices.BuildTable | spec/functions/get_network_role_property__phys_dev__spec.rb:19-63 | the loop over the transformations computes `Built` from the declared interfaces; every interface is present and the table is closed |
| Devices.StepClosed | spec/functions/get_network_role_property__phys_dev__spec.rb:19-63 | a step keeps the table closed: every bond member, bridge port and patch peer names a device in it |
| Devices.BuiltClosed | spec/functions/get_network_role_property__phys_dev__spec.rb:19-63 | building from a closed table yields a closed table |
| Devices.NamedDevicesExist | spec/functions/get_network_role_property__phys_dev__spec.rb:26-47 | every device named by an `add-port` or `add-bond`, and every bond member, is resolvable in the built table, whatever follows it |
| Resolver.Dedup | spec/functions/get_network_role_property__phys_dev__spec.rb:116-141 | the answer lists each device once and holds exactly the devices of the walk |
| Resolver.DedupOfNoDup | spec/functions/get_network_role_property__phys_dev__spec.rb:116-141 | a list without repetitions is left as it is |
| Resolver.DedupPrefix | spec/functions/get_network_role_property__phys_dev__spec.rb:116-141 | first-seen order: deduplicating a prefix gives a prefix of the deduplicated whole |
| Resolver.Walk | spec/functions/get_network_role_property__phys_dev__spec.rb:116-141 | the traversal: a physical node gives itself, a bond itself followed by its members as declared; a bridge gives what its ports give, then what its patch peers give; `visited` holds the bridges on the current path; a bridge met again, or a name that is no node, gives nothing; the name is looked up exactly first and then by its VLAN base (specified by `PhysDevicesReach`) |
| Resolver.WalkAll | spec/functions/get_network_role_property__phys_dev__spec.rb:116-141 | the walks of a list of names, concatenated in order |
| Resolver.PhysDevices | spec/functions/get_network_role_property__phys_dev__spec.rb:116-141 | the answer for an endpoint has no repetitions and holds exactly the devices the walk reaches |
| Resolver.PhysDevicesSound | spec/functions/get_network_role_property__phys_dev__spec.rb:116-141 | the answer never names a bridge unless it is also a bond member: only physical devices and bonds; derived from `PhysDevicesReach` |
| Resolver.WalkAllMembers | spec/functions/get_network_role_property__phys_dev__spec.rb:116-141 | a device is under a list of names exactly when it is under one of them |
| Resolver.PhysicalResolves | spec/functions/get_network_role_property__phys_dev__spec.rb:136-141 | an endpoint that is a physical interface, or a VLAN on one, resolves to exactly that interface |
| Resolver.BondResolves | spec/functions/get_network_role_property__phys_dev__spec.rb:132-133 | an endpoint that is a bond, or a VLAN on one, resolves to the bond followed by its members in declared order |
| Resolver.SoftwareBridgeIsEmpty | spec/functions/get_network_role_property__phys_dev__spec.rb:144-145 | a bridge with no ports and no patches resolves to the empty list, which is distinct from nil for an unknown role |
| Resolver.BridgeResolves | spec/functions/get_network_role_property__phys_dev__spec.rb:116-129 | a bridge endpoint's answer holds exactly the devices under its ports and its patch peers (both directions) |
| Resolver.PortsBeforePeers | spec/functions/get_network_role_property__phys_dev__spec.rb:120-125 | the devices under a bridge's own ports come first in its answer, before those reached through patches |
| Resolver.WalkInert | spec/functions/get_network_role_property__phys_dev__spec.rb:48-54 | a port-less bridge whose only peer is already on the path adds nothing to a walk |
| Resolver.WalkAllInert | spec/functions/get_network_role_property__phys_dev__spec.rb:48-54 | the same for a list of names |
| Resolver.PatchedBackIsEmpty | spec/functions/get_network_role_property__phys_dev__spec.rb:56-63 | from a bridge, a port-less bridge patched only back to it adds nothing, so the patch cycle ends there |
| Resolver.PatchTransparent | spec/functions/get_network_role_property__phys_dev__spec.rb:48-54 | a port-less bridge patched only to another bridge has the same answer as that bridge, although the patch makes the two reach each other |
| Resolver.Reaches | spec/functions/get_network_role_property__phys_dev__spec.rb:116-141 | reference definition: some path from a node, through bridges and their ports or patch peers, ends at a node that is the device itself (not a bridge) or a bond with the device as a member |
| Resolver.ReachesThrough | spec/functions/get_network_role_property__phys_dev__spec.rb:48-54 | a bridge reaches whatever one of its ports or patch peers reaches |
| Resolver.WalkReaches | spec/functions/get_network_role_property__phys_dev__spec.rb:116-141 | soundness: every device a walk returns is reachable from the walk's node |
| Resolver.SimplePath | spec/functions/get_network_role_property__phys_dev__spec.rb:56-63 | a path through a patch cycle can be shortened to one that repeats no node, with the same ends |
| Resolver.WalkComplete | spec/functions/get_network_role_property__phys_dev__spec.rb:116-141 | completeness: a walk returns every device at the end of a path that repeats no node and avoids the visited bridges |
| Resolver.PhysDevicesReach | spec/functions/get_network_role_property__phys_dev__spec.rb:116-141 | the answer for an endpoint holds exactly the devices reachable from it (both directions), however many patch hops and cycles the graph has |
| NetworkScheme.SchemeTable | spec/functions/get_network_role_property__phys_dev__spec.rb:8-90 | a scheme's device table contains every declared interface and is closed |
| NetworkScheme.PhysDev | spec/functions/get_network_role_property__phys_dev__spec.rb:144-145 | the answer is nil exactly when the role is not bound; otherwise it is a list without repetitions |
| NetworkScheme.PhysDevSound | spec/functions/get_network_role_property__phys_dev__spec.rb:116-141 | every device in a role's answer is a physical device, a bond or a bond member of the scheme's table |
| NetworkScheme.PhysDevReach | spec/functions/get_network_role_property__phys_dev__spec.rb:116-145 | for a bound role, `phys_dev` names exactly the devices reachable from the role's endpoint |
| Store.SchemeStore.constructor | spec/functions/get_network_role_property__phys_dev__spec.rb:105-109 | a new store holds no scheme |
| Store.SchemeStore.SetConfig | spec/functions/get_network_role_property__phys_dev__spec.rb:106-109 | storing a scheme for a host replaces that host's scheme and leaves every other host's alone |
| Store.SchemeStore.GetConfig | spec/functions/get_network_role_property__phys_dev__spec.rb:105-109 | a host's scheme is found exactly when one was stored for it; otherwise the error names the host |
| Store.SchemeStore.GetPhysDev | spec/functions/get_network_role_property__phys_dev__spec.rb:116-145 | the query answers from the scheme stored under the host, building its table with `BuildTable`; a host with no scheme is an error |
| Sample.Step0 | spec/functions/get_network_role_property__phys_dev__spec.rb:20-21 | `add-br br-storage` adds an empty bridge |
| Sample.Step1 | spec/functions/get_network_role_property__phys_dev__spec.rb:22-23 | `add-br br-ex` adds an empty bridge |
| Sample.Step2 | spec/functions/get_network_role_property__phys_dev__spec.rb:24-25 | `add-br br-mgmt` adds an empty bridge |
| Sample.Step3 | spec/functions/get_network_role_property__phys_dev__spec.rb:26-28 | `add-port eth4` without a bridge leaves the sample table as it is |
| Sample.Step4 | spec/functions/get_network_role_property__phys_dev__spec.rb:29-31 | `eth1.101` becomes the port of `br-mgmt`, and no node `eth1.101` is created |
| Sample.Step5 | spec/functions/get_network_role_property__phys_dev__spec.rb:32-37 | `bond0` over `eth2`, `eth3` is created and becomes the port of `br-storage` |
| Sample.BondTable | spec/functions/get_network_role_property__phys_dev__spec.rb:32-37 | step 5 gives exactly the previous table with the `bond0` entry set and `br-storage` holding port `bond0` |
| Sample.BondEntries | spec/functions/get_network_role_property__phys_dev__spec.rb:32-37 | those two updates give the stage after step 5: every other entry is as before |
| Sample.Step6 | spec/functions/get_network_role_property__phys_dev__spec.rb:45-47 | `bond0.102` becomes the port of `br-ex`, and no node `bond0.102` is created |
| Sample.Step7 | spec/functions/get_network_role_property__phys_dev__spec.rb:48-50 | `add-br br-floating` adds an empty bridge |
| Sample.Step8 | spec/functions/get_network_role_property__phys_dev__spec.rb:51-54 | the patch makes `br-floating` and `br-ex` each other's peer |
| Sample.Step9 | spec/functions/get_network_role_property__phys_dev__spec.rb:56-58 | `add-br br-prv` adds an empty bridge |
| Sample.Step10 | spec/functions/get_network_role_property__phys_dev__spec.rb:59-63 | the patch makes `br-prv` and `br-storage` each other's peer, completing the sample table |
| Sample.SampleBuilt | spec/functions/get_network_role_property__phys_dev__spec.rb:19-63 | the sample transformations, applied in order to the declared interfaces, build the sample table |
| Sample.SampleTableBuilt | spec/functions/get_network_role_property__phys_dev__spec.rb:8-90 | the sample scheme's device table is the sample table |
| Sample.SampleIsShaped | spec/functions/get_network_role_property__phys_dev__spec.rb:83-90 | the sample scheme builds the sample table and binds the seven roles, and not `non-existent` |
| Sample.StorageDevices | spec/functions/get_network_role_property__phys_dev__spec.rb:32-37 | `br-storage` resolves to `bond0`, `eth2`, `eth3`, its patch back from `br-prv` adding nothing |
| Sample.ExDevices | spec/functions/get_network_role_property__phys_dev__spec.rb:45-54 | `br-ex` resolves to `bond0`, `eth2`, `eth3` through the VLAN `bond0.102` |
| Sample.ManagementDevices | spec/functions/get_network_role_property__phys_dev__spec.rb:29-31 | `br-mgmt` resolves to `eth1`, the tag of `eth1.101` dropped |
| Sample.ManagementIsTaggedInterface | spec/functions/get_network_role_property__phys_dev__spec.rb:116-117 | `management` gives `["eth1"]` |
| Sample.ExIsTaggedBond | spec/functions/get_network_role_property__phys_dev__spec.rb:120-121 | `ex` gives `["bond0", "eth2", "eth3"]` |
| Sample.FloatingIsEx | spec/functions/get_network_role_property__phys_dev__spec.rb:124-125 | `neutron/floating` gives the same answer as `ex`, `["bond0", "eth2", "eth3"]` |
| Sample.PrivateIsStorage | spec/functions/get_network_role_property__phys_dev__spec.rb:128-129 | `neutron/private` gives the same answer as `storage`, `["bond0", "eth2", "eth3"]` |
| Sample.StorageIsBond | spec/functions/get_network_role_property__phys_dev__spec.rb:132-133 | `storage` gives `["bond0", "eth2", "eth3"]` |
| Sample.PlainInterfaces | spec/functions/get_network_role_property__phys_dev__spec.rb:136-141 | `admin` gives `["eth0"]` and `xxx` gives `["eth4"]` |
| Sample.NonExistentIsNone | spec/functions/get_network_role_property__phys_dev__spec.rb:144-145 | `non-existent` gives nil |
| Sample.SampleQueries | spec/functions/get_network_role_property__phys_dev__spec.rb:103-146 | with the sample stored under `node1.tld`, the eight queries give the eight expected answers in order, and a query for a host with nothing stored is an error |

The role lemmas in `Sample` are stated for every scheme with the sample's table and role bindings (`SampleShaped`). `SampleIsShaped` shows that the sample scheme is such a scheme, and `SampleQueries` applies the lemmas to it.

## Left out

- The implementation of `get_network_role_property` and of `L23network::Scheme` is not part of this model. What the test does not fix is a modelling choice, described in the points below.
- Devices.DeviceOf: a name is looked up as itself when it is a node, and otherwise as the part before its first `.`. There is no separate VLAN node kind, and the tag is not recorded.
- Devices.Step:
  - Bridges are created only by `add-br`.
  - `add-port` and `add-bond` attach to a bridge only if it already exists.
  - `add-patch` links two bridges only if both already exist; otherwise it changes nothing.
  - `add-port` of an unknown name creates a physical node for its base device.
  - `add-br` of a name that is already a physical interface or a bond replaces that node with an empty bridge.
  - `add-bond` under the name of an existing bridge replaces the bridge with the bond, dropping its ports and peers. Other bridges' peer lists still name it, and a walk then reaches the bond through them.
  - A device added by `add-port` to two different bridges stays a port of both. The model keeps no single parent bridge per device, so the second `add-port` does not move the device.
- Resolver.Walk:
  - A bond stands for itself followed by its members as declared; its members are not walked further.
  - An endpoint that names no device gives the empty list.
  - The visited set holds the bridges on the current path, and the answer is deduplicated once at the end, keeping first-seen order.
- Resolver.PatchTransparent: equality of the ordered answers is proved for a port-less bridge with a single patch, the shape in the test. For longer patch chains only the membership statement `PhysDevicesReach` is proved, not that the order is the same.
- Parsing and key handling are assumed done: YAML loading and `L23network.sanitize_keys_in_hash` (line 108). Schemes are given as typed values with string keys.
- Fields that do not affect `phys_dev` are excluded: `version`, `provider`, `mtu`, `bond_properties`, `interface_properties`, the `endpoints` map, and the scalar properties read from it (IP, gateway).
- Puppet function registration and the scope stub that supplies the host name (lines 96-105, 112-114). The host name is a parameter.
- The catalog tests in `spec/defines/ifconfig__spec.rb` cover the configuration-applying layer, not `phys_dev`.
- The store is single-threaded; concurrent access per host is not modelled.
