/**
 * The sample scheme of the `phys_dev` tests and the eight answers they
 * expect, including the query through the scheme store of host `node1.tld`.
 */
module Sample {
  import opened Wrappers
  import opened Devices
  import opened Resolver
  import opened NetworkScheme
  import opened Store

  const Transformations: seq<Transformation> := [
    AddBr("br-storage"),
    AddBr("br-ex"),
    AddBr("br-mgmt"),
    AddPort("eth4", None),
    AddPort("eth1.101", Some("br-mgmt")),
    AddBond("bond0", Some("br-storage"), ["eth2", "eth3"]),
    AddPort("bond0.102", Some("br-ex")),
    AddBr("br-floating"),
    AddPatch("br-floating", "br-ex"),
    AddBr("br-prv"),
    AddPatch("br-prv", "br-storage")
  ]

  const SampleScheme: Scheme := Scheme(
    {"eth0", "eth1", "eth2", "eth3", "eth4"},
    Transformations,
    map[
      "admin" := "eth0",
      "ex" := "br-ex",
      "management" := "br-mgmt",
      "storage" := "br-storage",
      "neutron/floating" := "br-floating",
      "neutron/private" := "br-prv",
      "xxx" := "eth4"
    ])

  /** `name` is absent from `g` (`None`), or present as device `dev`. */
  predicate Entry(g: Table, name: string, dev: Option<Device>)
  {
    match dev
    case None => name !in g
    case Some(d) => name in g && g[name] == d
  }

  /**
   * The sample's device table at some point of the build: the five declared
   * interfaces are physical, the two VLAN names are never nodes, and the
   * bridges and the bond are as given.
   */
  predicate Stage(g: Table, storage: Option<Device>, ex: Option<Device>, mgmt: Option<Device>,
                  bond: Option<Device>, floating: Option<Device>, prv: Option<Device>)
  {
    && Entry(g, "eth0", Some(Physical))
    && Entry(g, "eth1", Some(Physical))
    && Entry(g, "eth2", Some(Physical))
    && Entry(g, "eth3", Some(Physical))
    && Entry(g, "eth4", Some(Physical))
    && "eth1.101" !in g
    && "bond0.102" !in g
    && Entry(g, "br-storage", storage)
    && Entry(g, "br-ex", ex)
    && Entry(g, "br-mgmt", mgmt)
    && Entry(g, "bond0", bond)
    && Entry(g, "br-floating", floating)
    && Entry(g, "br-prv", prv)
  }

  const EmptyBridge: Option<Device> := Some(Bridge([], []))
  const MgmtBridge: Option<Device> := Some(Bridge(["eth1.101"], []))
  const Bond0: Option<Device> := Some(Bond(["eth2", "eth3"]))

  /** The device graph the whole sample builds. */
  predicate SampleGraph(g: Table)
  {
    Stage(g, Some(Bridge(["bond0"], ["br-prv"])), Some(Bridge(["bond0.102"], ["br-floating"])),
          MgmtBridge, Bond0, Some(Bridge([], ["br-ex"])), Some(Bridge([], ["br-storage"])))
  }

  // One lemma per sample transformation, from the stage before it to the stage after it.
  lemma Step0(g: Table, t: Transformation)
    requires t.AddBr? && t.name == "br-storage"
    requires Stage(g, None, None, None, None, None, None)
    ensures Stage(Step(g, t), EmptyBridge, None, None, None, None, None)
  {
  }

  lemma Step1(g: Table, t: Transformation)
    requires t.AddBr? && t.name == "br-ex"
    requires Stage(g, EmptyBridge, None, None, None, None, None)
    ensures Stage(Step(g, t), EmptyBridge, EmptyBridge, None, None, None, None)
  {
  }

  lemma Step2(g: Table, t: Transformation)
    requires t.AddBr? && t.name == "br-mgmt"
    requires Stage(g, EmptyBridge, EmptyBridge, None, None, None, None)
    ensures Stage(Step(g, t), EmptyBridge, EmptyBridge, EmptyBridge, None, None, None)
  {
  }

  /** `eth4` is declared under `interfaces`, so `add-port` without a bridge changes nothing. */
  lemma Step3(g: Table, t: Transformation)
    requires t.AddPort? && t.name == "eth4" && t.bridge == None
    requires Stage(g, EmptyBridge, EmptyBridge, EmptyBridge, None, None, None)
    ensures Stage(Step(g, t), EmptyBridge, EmptyBridge, EmptyBridge, None, None, None)
  {
    BaseOfPlain("eth4");
  }

  /** `eth1.101` is a VLAN on the declared `eth1`; it becomes a port of `br-mgmt`. */
  lemma Step4(g: Table, t: Transformation)
    requires t.AddPort? && t.name == "eth1.101" && t.bridge == Some("br-mgmt")
    requires Stage(g, EmptyBridge, EmptyBridge, EmptyBridge, None, None, None)
    ensures Stage(Step(g, t), EmptyBridge, EmptyBridge, MgmtBridge, None, None, None)
  {
    BaseOfTagged("eth1.101", 4);
    assert "eth1.101"[..4] == "eth1";
    PortAttached(g, t);
    assert [] + ["eth1.101"] == ["eth1.101"];
  }

  /** `bond0` over the declared `eth2` and `eth3` becomes a port of `br-storage`. */
  lemma Step5(g: Table, t: Transformation)
    requires t.AddBond? && t.name == "bond0" && t.bridge == Some("br-storage") && t.members == ["eth2", "eth3"]
    requires Stage(g, EmptyBridge, EmptyBridge, MgmtBridge, None, None, None)
    ensures Stage(Step(g, t), Some(Bridge(["bond0"], [])), EmptyBridge, MgmtBridge, Bond0, None, None)
  {
    BondTable(g, t);
    BondEntries(g);
  }

  /** Step 5 sets the bond's entry and replaces `br-storage` by the bridge with port `bond0`. */
  lemma BondTable(g: Table, t: Transformation)
    requires t.AddBond? && t.name == "bond0" && t.bridge == Some("br-storage") && t.members == ["eth2", "eth3"]
    requires Known(g, "eth2") && Known(g, "eth3") && "br-storage" in g && g["br-storage"] == Bridge([], [])
    ensures Step(g, t) == g["bond0" := Bond(["eth2", "eth3"])]["br-storage" := Bridge(["bond0"], [])]
  {
    assert t.members[0] == "eth2" && t.members[1] == "eth3" && |t.members| == 2;
    assert forall m :: m in t.members ==> Known(g, m);
    BondAttached(g, t);
    assert g["br-storage"].(ports := g["br-storage"].ports + ["bond0"]) == Bridge(["bond0"], []);
  }

  /** The table after step 5, written as two updates of the table before it. */
  lemma BondEntries(g: Table)
    requires Stage(g, EmptyBridge, EmptyBridge, MgmtBridge, None, None, None)
    ensures Stage(g["bond0" := Bond(["eth2", "eth3"])]["br-storage" := Bridge(["bond0"], [])],
                  Some(Bridge(["bond0"], [])), EmptyBridge, MgmtBridge, Bond0, None, None)
  {
  }

  /** `bond0.102` is a VLAN on `bond0`; it becomes a port of `br-ex`. */
  lemma Step6(g: Table, t: Transformation)
    requires t.AddPort? && t.name == "bond0.102" && t.bridge == Some("br-ex")
    requires Stage(g, Some(Bridge(["bond0"], [])), EmptyBridge, MgmtBridge, Bond0, None, None)
    ensures Stage(Step(g, t), Some(Bridge(["bond0"], [])), Some(Bridge(["bond0.102"], [])),
                  MgmtBridge, Bond0, None, None)
  {
    BaseOfTagged("bond0.102", 5);
    assert "bond0.102"[..5] == "bond0";
    PortAttached(g, t);
    assert [] + ["bond0.102"] == ["bond0.102"];
  }

  lemma Step7(g: Table, t: Transformation)
    requires t.AddBr? && t.name == "br-floating"
    requires Stage(g, Some(Bridge(["bond0"], [])), Some(Bridge(["bond0.102"], [])), MgmtBridge, Bond0, None, None)
    ensures Stage(Step(g, t), Some(Bridge(["bond0"], [])), Some(Bridge(["bond0.102"], [])),
                  MgmtBridge, Bond0, EmptyBridge, None)
  {
  }

  /** The patch between `br-floating` and `br-ex` makes each the other's peer. */
  lemma Step8(g: Table, t: Transformation)
    requires t.AddPatch? && t.left == "br-floating" && t.right == "br-ex"
    requires Stage(g, Some(Bridge(["bond0"], [])), Some(Bridge(["bond0.102"], [])), MgmtBridge, Bond0, EmptyBridge, None)
    ensures Stage(Step(g, t), Some(Bridge(["bond0"], [])), Some(Bridge(["bond0.102"], ["br-floating"])),
                  MgmtBridge, Bond0, Some(Bridge([], ["br-ex"])), None)
  {
    assert [] + ["br-ex"] == ["br-ex"];
    assert [] + ["br-floating"] == ["br-floating"];
  }

  lemma Step9(g: Table, t: Transformation)
    requires t.AddBr? && t.name == "br-prv"
    requires Stage(g, Some(Bridge(["bond0"], [])), Some(Bridge(["bond0.102"], ["br-floating"])),
                   MgmtBridge, Bond0, Some(Bridge([], ["br-ex"])), None)
    ensures Stage(Step(g, t), Some(Bridge(["bond0"], [])), Some(Bridge(["bond0.102"], ["br-floating"])),
                  MgmtBridge, Bond0, Some(Bridge([], ["br-ex"])), EmptyBridge)
  {
  }

  /** The patch between `br-prv` and `br-storage` makes each the other's peer. */
  lemma Step10(g: Table, t: Transformation)
    requires t.AddPatch? && t.left == "br-prv" && t.right == "br-storage"
    requires Stage(g, Some(Bridge(["bond0"], [])), Some(Bridge(["bond0.102"], ["br-floating"])),
                   MgmtBridge, Bond0, Some(Bridge([], ["br-ex"])), EmptyBridge)
    ensures SampleGraph(Step(g, t))
  {
    assert [] + ["br-storage"] == ["br-storage"];
    assert [] + ["br-prv"] == ["br-prv"];
  }

  /** `ts` is the sample's transformation list, described step by step. */
  predicate SampleSteps(ts: seq<Transformation>)
  {
    && |ts| == 11
    && ts[0].AddBr? && ts[0].name == "br-storage"
    && ts[1].AddBr? && ts[1].name == "br-ex"
    && ts[2].AddBr? && ts[2].name == "br-mgmt"
    && ts[3].AddPort? && ts[3].name == "eth4" && ts[3].bridge == None
    && ts[4].AddPort? && ts[4].name == "eth1.101" && ts[4].bridge == Some("br-mgmt")
    && ts[5].AddBond? && ts[5].name == "bond0" && ts[5].bridge == Some("br-storage") && ts[5].members == ["eth2", "eth3"]
    && ts[6].AddPort? && ts[6].name == "bond0.102" && ts[6].bridge == Some("br-ex")
    && ts[7].AddBr? && ts[7].name == "br-floating"
    && ts[8].AddPatch? && ts[8].left == "br-floating" && ts[8].right == "br-ex"
    && ts[9].AddBr? && ts[9].name == "br-prv"
    && ts[10].AddPatch? && ts[10].left == "br-prv" && ts[10].right == "br-storage"
  }

  // The same steps, one prefix of the sample's transformation list at a time.
  lemma BuiltStep0(init: Table, ts: seq<Transformation>)
    requires SampleSteps(ts)
    requires Stage(Built(init, ts[..0]), None, None, None, None, None, None)
    ensures Stage(Built(init, ts[..1]), EmptyBridge, None, None, None, None, None)
  {
    BuiltExtend(init, ts, 0);
    Step0(Built(init, ts[..0]), ts[0]);
  }

  lemma BuiltStep1(init: Table, ts: seq<Transformation>)
    requires SampleSteps(ts)
    requires Stage(Built(init, ts[..1]), EmptyBridge, None, None, None, None, None)
    ensures Stage(Built(init, ts[..2]), EmptyBridge, EmptyBridge, None, None, None, None)
  {
    BuiltExtend(init, ts, 1);
    Step1(Built(init, ts[..1]), ts[1]);
  }

  lemma BuiltStep2(init: Table, ts: seq<Transformation>)
    requires SampleSteps(ts)
    requires Stage(Built(init, ts[..2]), EmptyBridge, EmptyBridge, None, None, None, None)
    ensures Stage(Built(init, ts[..3]), EmptyBridge, EmptyBridge, EmptyBridge, None, None, None)
  {
    BuiltExtend(init, ts, 2);
    Step2(Built(init, ts[..2]), ts[2]);
  }

  lemma BuiltStep3(init: Table, ts: seq<Transformation>)
    requires SampleSteps(ts)
    requires Stage(Built(init, ts[..3]), EmptyBridge, EmptyBridge, EmptyBridge, None, None, None)
    ensures Stage(Built(init, ts[..4]), EmptyBridge, EmptyBridge, EmptyBridge, None, None, None)
  {
    BuiltExtend(init, ts, 3);
    Step3(Built(init, ts[..3]), ts[3]);
  }

  lemma BuiltStep4(init: Table, ts: seq<Transformation>)
    requires SampleSteps(ts)
    requires Stage(Built(init, ts[..4]), EmptyBridge, EmptyBridge, EmptyBridge, None, None, None)
    ensures Stage(Built(init, ts[..5]), EmptyBridge, EmptyBridge, MgmtBridge, None, None, None)
  {
    BuiltExtend(init, ts, 4);
    Step4(Built(init, ts[..4]), ts[4]);
  }

  lemma BuiltStep5(init: Table, ts: seq<Transformation>)
    requires SampleSteps(ts)
    requires Stage(Built(init, ts[..5]), EmptyBridge, EmptyBridge, MgmtBridge, None, None, None)
    ensures Stage(Built(init, ts[..6]), Some(Bridge(["bond0"], [])), EmptyBridge, MgmtBridge, Bond0, None, None)
  {
    BuiltExtend(init, ts, 5);
    Step5(Built(init, ts[..5]), ts[5]);
  }

  lemma BuiltStep6(init: Table, ts: seq<Transformation>)
    requires SampleSteps(ts)
    requires Stage(Built(init, ts[..6]), Some(Bridge(["bond0"], [])), EmptyBridge, MgmtBridge, Bond0, None, None)
    ensures Stage(Built(init, ts[..7]), Some(Bridge(["bond0"], [])), Some(Bridge(["bond0.102"], [])),
                  MgmtBridge, Bond0, None, None)
  {
    BuiltExtend(init, ts, 6);
    Step6(Built(init, ts[..6]), ts[6]);
  }

  lemma BuiltStep7(init: Table, ts: seq<Transformation>)
    requires SampleSteps(ts)
    requires Stage(Built(init, ts[..7]), Some(Bridge(["bond0"], [])), Some(Bridge(["bond0.102"], [])), MgmtBridge, Bond0, None, None)
    ensures Stage(Built(init, ts[..8]), Some(Bridge(["bond0"], [])), Some(Bridge(["bond0.102"], [])),
                  MgmtBridge, Bond0, EmptyBridge, None)
  {
    BuiltExtend(init, ts, 7);
    Step7(Built(init, ts[..7]), ts[7]);
  }

  lemma BuiltStep8(init: Table, ts: seq<Transformation>)
    requires SampleSteps(ts)
    requires Stage(Built(init, ts[..8]), Some(Bridge(["bond0"], [])), Some(Bridge(["bond0.102"], [])), MgmtBridge, Bond0, EmptyBridge, None)
    ensures Stage(Built(init, ts[..9]), Some(Bridge(["bond0"], [])), Some(Bridge(["bond0.102"], ["br-floating"])),
                  MgmtBridge, Bond0, Some(Bridge([], ["br-ex"])), None)
  {
    BuiltExtend(init, ts, 8);
    Step8(Built(init, ts[..8]), ts[8]);
  }

  lemma BuiltStep9(init: Table, ts: seq<Transformation>)
    requires SampleSteps(ts)
    requires Stage(Built(init, ts[..9]), Some(Bridge(["bond0"], [])), Some(Bridge(["bond0.102"], ["br-floating"])),
                   MgmtBridge, Bond0, Some(Bridge([], ["br-ex"])), None)
    ensures Stage(Built(init, ts[..10]), Some(Bridge(["bond0"], [])), Some(Bridge(["bond0.102"], ["br-floating"])),
                  MgmtBridge, Bond0, Some(Bridge([], ["br-ex"])), EmptyBridge)
  {
    BuiltExtend(init, ts, 9);
    Step9(Built(init, ts[..9]), ts[9]);
  }

  lemma BuiltStep10(init: Table, ts: seq<Transformation>)
    requires SampleSteps(ts)
    requires Stage(Built(init, ts[..10]), Some(Bridge(["bond0"], [])), Some(Bridge(["bond0.102"], ["br-floating"])),
                   MgmtBridge, Bond0, Some(Bridge([], ["br-ex"])), EmptyBridge)
    ensures SampleGraph(Built(init, ts[..11]))
  {
    BuiltExtend(init, ts, 10);
    Step10(Built(init, ts[..10]), ts[10]);
  }

  /** The first four transformations add the three bridges and leave `eth4` alone. */
  lemma {:induction false} BuiltFour(init: Table, ts: seq<Transformation>)
    requires Stage(init, None, None, None, None, None, None)
    requires SampleSteps(ts)
    ensures Stage(Built(init, ts[..4]), EmptyBridge, EmptyBridge, EmptyBridge, None, None, None)
  {
    assert ts[..0] == [];
    BuiltStep0(init, ts);
    BuiltStep1(init, ts);
    BuiltStep2(init, ts);
    BuiltStep3(init, ts);
  }

  /** The next four attach `eth1.101`, `bond0` and `bond0.102`, and add `br-floating`. */
  lemma {:induction false} BuiltEight(init: Table, ts: seq<Transformation>)
    requires Stage(init, None, None, None, None, None, None)
    requires SampleSteps(ts)
    ensures Stage(Built(init, ts[..8]), Some(Bridge(["bond0"], [])), Some(Bridge(["bond0.102"], [])),
                  MgmtBridge, Bond0, EmptyBridge, None)
  {
    BuiltFour(init, ts);
    BuiltStep4(init, ts);
    BuiltStep5(init, ts);
    BuiltStep6(init, ts);
    BuiltStep7(init, ts);
  }

  /** The sample transformations, applied in order to the declared interfaces, build `SampleGraph`. */
  lemma {:induction false} SampleBuilt(init: Table, ts: seq<Transformation>)
    requires Stage(init, None, None, None, None, None, None)
    requires SampleSteps(ts)
    ensures SampleGraph(Built(init, ts))
  {
    BuiltEight(init, ts);
    BuiltStep8(init, ts);
    BuiltStep9(init, ts);
    BuiltStep10(init, ts);
    assert ts[..11] == ts;
  }

  /** The sample scheme's device table is `SampleGraph`. */
  lemma SampleTableBuilt()
    ensures SampleGraph(SchemeTable(SampleScheme))
  {
    assert SampleSteps(SampleScheme.transformations);
    SampleBuilt(Initial(SampleScheme.interfaces), SampleScheme.transformations);
  }

  // Walks of the sample graph, one bridge at a time.

  /** From `br-storage`, its port `bond0` gives the bond and its members. */
  lemma StoragePorts(g: Table)
    requires SampleGraph(g)
    ensures WalkAll(g, {"br-storage"}, ["bond0"]) == ["bond0", "eth2", "eth3"]
  {
    assert WalkAll(g, {"br-storage"}, ["bond0"])
        == Walk(g, {"br-storage"}, "bond0") + WalkAll(g, {"br-storage"}, []);
  }

  lemma StorageDevices(g: Table)
    requires SampleGraph(g)
    ensures PhysDevices(g, "br-storage") == ["bond0", "eth2", "eth3"]
  {
    assert {} + {"br-storage"} == {"br-storage"};
    StoragePorts(g);
    PatchedBackIsEmpty(g, "br-prv", "br-storage");
    assert Walk(g, {}, "br-storage") == ["bond0", "eth2", "eth3"];
    DedupOfNoDup(["bond0", "eth2", "eth3"]);
  }

  /** From `br-ex`, its port `bond0.102` is the VLAN on `bond0`: the bond and its members. */
  lemma ExPorts(g: Table)
    requires SampleGraph(g)
    ensures WalkAll(g, {"br-ex"}, ["bond0.102"]) == ["bond0", "eth2", "eth3"]
  {
    BaseOfTagged("bond0.102", 5);
    assert "bond0.102"[..5] == "bond0";
    assert DeviceOf(g, "bond0.102") == "bond0";
    assert Walk(g, {"br-ex"}, "bond0.102") == ["bond0", "eth2", "eth3"];
    assert WalkAll(g, {"br-ex"}, ["bond0.102"])
        == Walk(g, {"br-ex"}, "bond0.102") + WalkAll(g, {"br-ex"}, []);
  }

  lemma ExDevices(g: Table)
    requires SampleGraph(g)
    ensures PhysDevices(g, "br-ex") == ["bond0", "eth2", "eth3"]
  {
    assert {} + {"br-ex"} == {"br-ex"};
    ExPorts(g);
    PatchedBackIsEmpty(g, "br-floating", "br-ex");
    assert Walk(g, {}, "br-ex") == ["bond0", "eth2", "eth3"];
    DedupOfNoDup(["bond0", "eth2", "eth3"]);
  }

  lemma ManagementDevices(g: Table)
    requires SampleGraph(g)
    ensures PhysDevices(g, "br-mgmt") == ["eth1"]
  {
    var v := {"br-mgmt"};
    assert {} + {"br-mgmt"} == v;
    BaseOfTagged("eth1.101", 4);
    assert "eth1.101"[..4] == "eth1";
    assert DeviceOf(g, "eth1.101") == "eth1";
    assert WalkAll(g, v, ["eth1.101"]) == Walk(g, v, "eth1.101") + WalkAll(g, v, []);
    assert Walk(g, {}, "br-mgmt") == ["eth1"];
    DedupOfNoDup(["eth1"]);
  }

  /** `roles` maps `role` to `endpoint`. */
  predicate Binds(roles: map<string, string>, role: string, endpoint: string)
  {
    role in roles && roles[role] == endpoint
  }

  /**
   * `s` builds the sample's device table and binds the sample's roles; the
   * role lemmas below hold for every such scheme, and `SampleIsShaped` shows
   * that the sample scheme is one.
   */
  predicate SampleShaped(s: Scheme)
  {
    && SampleGraph(SchemeTable(s))
    && Binds(s.roles, "admin", "eth0")
    && Binds(s.roles, "ex", "br-ex")
    && Binds(s.roles, "management", "br-mgmt")
    && Binds(s.roles, "storage", "br-storage")
    && Binds(s.roles, "neutron/floating", "br-floating")
    && Binds(s.roles, "neutron/private", "br-prv")
    && Binds(s.roles, "xxx", "eth4")
    && "non-existent" !in s.roles
  }

  lemma SampleIsShaped()
    ensures SampleShaped(SampleScheme)
  {
    SampleTableBuilt();
  }

  /** `storage` is `br-storage`, which holds `bond0` directly: the bond, then its members. */
  lemma StorageIsBond(s: Scheme)
    requires SampleShaped(s)
    ensures PhysDev(s, "storage") == Some(["bond0", "eth2", "eth3"])
  {
    StorageDevices(SchemeTable(s));
  }

  /** `ex` is `br-ex`, whose only port `bond0.102` is a VLAN on `bond0`. */
  lemma ExIsTaggedBond(s: Scheme)
    requires SampleShaped(s)
    ensures PhysDev(s, "ex") == Some(["bond0", "eth2", "eth3"])
  {
    ExDevices(SchemeTable(s));
  }

  /** `management` is `br-mgmt`, whose only port `eth1.101` is a VLAN on `eth1`: the tag is dropped. */
  lemma ManagementIsTaggedInterface(s: Scheme)
    requires SampleShaped(s)
    ensures PhysDev(s, "management") == Some(["eth1"])
  {
    ManagementDevices(SchemeTable(s));
  }

  /** `neutron/floating` is `br-floating`, a port-less bridge patched to `br-ex`: the same answer as `ex`. */
  lemma FloatingIsEx(s: Scheme)
    requires SampleShaped(s)
    ensures PhysDev(s, "neutron/floating") == PhysDev(s, "ex")
    ensures PhysDev(s, "neutron/floating") == Some(["bond0", "eth2", "eth3"])
  {
    PatchTransparent(SchemeTable(s), "br-floating", "br-ex");
    ExIsTaggedBond(s);
  }

  /**
   * `neutron/private` is `br-prv`, a port-less bridge patched to `br-storage`:
   * the same answer as `storage`, although each of the two bridges reaches the other.
   */
  lemma PrivateIsStorage(s: Scheme)
    requires SampleShaped(s)
    ensures PhysDev(s, "neutron/private") == PhysDev(s, "storage")
    ensures PhysDev(s, "neutron/private") == Some(["bond0", "eth2", "eth3"])
  {
    PatchTransparent(SchemeTable(s), "br-prv", "br-storage");
    StorageIsBond(s);
  }

  /**
   * Plain interfaces resolve to themselves: `admin` is `eth0`, declared only
   * under `interfaces`; `xxx` is `eth4`, also named by an `add-port` without a bridge.
   */
  lemma PlainInterfaces(s: Scheme)
    requires SampleShaped(s)
    ensures PhysDev(s, "admin") == Some(["eth0"])
    ensures PhysDev(s, "xxx") == Some(["eth4"])
  {
    PhysicalResolves(SchemeTable(s), "eth0");
    PhysicalResolves(SchemeTable(s), "eth4");
  }

  /** A role the scheme does not bind is answered with `None` (nil), not with an empty list. */
  lemma NonExistentIsNone(s: Scheme)
    requires SampleShaped(s)
    ensures PhysDev(s, "non-existent") == None
  {
  }

  /**
   * The test's flow: store the sample scheme under host `node1.tld`, then ask
   * for `phys_dev` of each role the tests name.
   */
  method SampleQueries() returns (answers: seq<Result<Option<seq<string>>, StoreError>>)
    ensures answers == [
      Success(Some(["eth1"])),
      Success(Some(["bond0", "eth2", "eth3"])),
      Success(Some(["bond0", "eth2", "eth3"])),
      Success(Some(["bond0", "eth2", "eth3"])),
      Success(Some(["bond0", "eth2", "eth3"])),
      Success(Some(["eth0"])),
      Success(Some(["eth4"])),
      Success(None),
      Failure(NoSchemeLoaded("node2.tld"))
    ]
  {
    var store := new SchemeStore();
    store.SetConfig("node1.tld", SampleScheme);
    SampleIsShaped();
    ManagementIsTaggedInterface(SampleScheme);
    FloatingIsEx(SampleScheme);
    PrivateIsStorage(SampleScheme);
    PlainInterfaces(SampleScheme);
    NonExistentIsNone(SampleScheme);
    var management := store.GetPhysDev("node1.tld", "management");
    var ex := store.GetPhysDev("node1.tld", "ex");
    var floating := store.GetPhysDev("node1.tld", "neutron/floating");
    var private := store.GetPhysDev("node1.tld", "neutron/private");
    var storage := store.GetPhysDev("node1.tld", "storage");
    var admin := store.GetPhysDev("node1.tld", "admin");
    var xxx := store.GetPhysDev("node1.tld", "xxx");
    var missing := store.GetPhysDev("node1.tld", "non-existent");
    var otherHost := store.GetPhysDev("node2.tld", "admin");
    answers := [management, ex, floating, private, storage, admin, xxx, missing, otherHost];
  }
}
