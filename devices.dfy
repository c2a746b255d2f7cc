/**
 * The topology graph builder: the ordered `transformations` list of a network
 * scheme is applied left to right to a name-keyed device table.
 */
module Devices {
  import opened Wrappers

  /**
   * The base device of a VLAN sub-interface `base.tag`: the part of the name
   * before its first '.'. A name without a '.' is its own base.
   */
  function Base(name: string): (b: string)
    ensures b <= name
    ensures '.' !in b
    ensures |b| < |name| ==> name[|b|] == '.'
  {
    if name == [] || name[0] == '.' then [] else [name[0]] + Base(name[1..])
  }

  /** A name without a '.' is its own base device. */
  lemma BaseOfPlain(name: string)
    requires '.' !in name
    ensures Base(name) == name
  {
  }

  /** The base of a name whose first '.' is at position `k` is the part before position `k`. */
  lemma BaseOfTagged(name: string, k: nat)
    requires k < |name| && name[k] == '.'
    requires forall i :: 0 <= i < k ==> name[i] != '.'
    ensures Base(name) == name[..k]
  {
  }

  /** A node of the device graph. Bridges keep their ports in the order they were attached. */
  datatype Device =
    | Physical
    | Bond(members: seq<string>)
    | Bridge(ports: seq<string>, peers: seq<string>)

  /** The device graph: every node under its own name. */
  type Table = map<string, Device>

  /** One step of the scheme's `transformations` list. Actions the model does not know are `Other`. */
  datatype Transformation =
    | AddBr(name: string)
    | AddPort(name: string, bridge: Option<string>)
    | AddBond(name: string, bridge: Option<string>, members: seq<string>)
    | AddPatch(left: string, right: string)
    | Other

  /**
   * The node a name refers to: the name itself when it is a node, otherwise
   * its VLAN base device.
   */
  function DeviceOf(g: Table, name: string): (d: string)
    ensures d <= name
    ensures name in g ==> d == name
    ensures name !in g ==> d == Base(name)
    ensures d != name ==> name !in g && '.' !in d && name[|d|] == '.'
  {
    if name in g then name else Base(name)
  }

  /** The name refers to a node of `g`. */
  predicate Known(g: Table, name: string)
  {
    DeviceOf(g, name) in g
  }

  predicate IsBridge(g: Table, name: string)
  {
    name in g && g[name].Bridge?
  }

  /** Every name a device refers to (bond member, bridge port, patch peer) is a node. */
  ghost predicate DeviceClosed(g: Table, dev: Device)
  {
    match dev
    case Physical => true
    case Bond(ms) => forall m :: m in ms ==> Known(g, m)
    case Bridge(ps, qs) =>
      (forall p :: p in ps ==> Known(g, p)) && (forall q :: q in qs ==> Known(g, q))
  }

  /** The graph has no dangling edges. */
  ghost predicate Closed(g: Table)
  {
    forall d :: d in g ==> DeviceClosed(g, g[d])
  }

  /** The table before any transformation: every declared interface is a physical device. */
  function Initial(interfaces: set<string>): (g: Table)
    ensures g.Keys == interfaces
    ensures forall n :: n in g ==> g[n] == Physical
  {
    map n | n in interfaces :: Physical
  }

  /** Makes sure `name` refers to a node, creating its base device as a physical interface if needed. */
  function Ensure(g: Table, name: string): (r: Table)
    ensures Known(r, name)
    ensures g.Keys <= r.Keys <= g.Keys + {Base(name)}
    ensures forall d :: d in g ==> r[d] == g[d]
    ensures forall d :: d in r && d !in g ==> r[d] == Physical
  {
    if Known(g, name) then g else g[Base(name) := Physical]
  }

  /** The base devices of `names`. */
  function Bases(names: seq<string>): (bs: set<string>)
    ensures forall n :: n in names ==> Base(n) in bs
  {
    if names == [] then {} else {Base(names[0])} + Bases(names[1..])
  }

  /** `Ensure` for each name in turn. */
  function EnsureAll(g: Table, names: seq<string>): (r: Table)
    ensures forall n :: n in names ==> Known(r, n)
    ensures g.Keys <= r.Keys <= g.Keys + Bases(names)
    ensures forall d :: d in g ==> r[d] == g[d]
    ensures forall d :: d in r && d !in g ==> r[d] == Physical
    decreases names
  {
    if names == [] then g
    else
      var r := EnsureAll(Ensure(g, names[0]), names[1..]);
      assert forall n :: n in names ==> n == names[0] || n in names[1..];
      r
  }

  /** Names that already refer to nodes leave the table as it is. */
  lemma {:induction false} EnsureAllKnown(g: Table, names: seq<string>)
    requires forall n :: n in names ==> Known(g, n)
    ensures EnsureAll(g, names) == g
    decreases names
  {
    if names != [] {
      assert Ensure(g, names[0]) == g;
      assert forall n :: n in names[1..] ==> n in names;
      EnsureAllKnown(g, names[1..]);
    }
  }

  /** Appends `port` to the ports of `bridge` when that is an existing bridge; otherwise nothing changes. */
  function Attach(g: Table, bridge: Option<string>, port: string): (r: Table)
    ensures r.Keys == g.Keys
    ensures forall d :: d in g && (bridge.None? || d != bridge.value) ==> r[d] == g[d]
    ensures bridge.Some? && IsBridge(g, bridge.value)
            ==> r[bridge.value] == Bridge(g[bridge.value].ports + [port], g[bridge.value].peers)
    ensures !(bridge.Some? && IsBridge(g, bridge.value)) ==> r == g
  {
    if bridge.Some? && IsBridge(g, bridge.value)
    then g[bridge.value := g[bridge.value].(ports := g[bridge.value].ports + [port])]
    else g
  }

  /** Applies one transformation to the device table. */
  function Step(g: Table, t: Transformation): (r: Table)
    ensures g.Keys <= r.Keys
  {
    match t
    case AddBr(n) => if IsBridge(g, n) then g else g[n := Bridge([], [])]
    case AddPort(n, br) => Attach(Ensure(g, n), br, n)
    case AddBond(n, br, ms) => Attach(EnsureAll(g, ms)[n := Bond(ms)], br, n)
    case AddPatch(a, b) =>
      if IsBridge(g, a) && IsBridge(g, b) then
        var g1 := g[a := g[a].(peers := g[a].peers + [b])];
        g1[b := g1[b].(peers := g1[b].peers + [a])]
      else g
    case Other => g
  }

  /** What each kind of transformation does to the device table. */
  lemma StepEffects(g: Table, t: Transformation)
    ensures t.Other? ==> Step(g, t) == g
    ensures t.AddBr? ==> IsBridge(Step(g, t), t.name)
    ensures t.AddBr? && IsBridge(g, t.name) ==> Step(g, t) == g
    ensures t.AddBr? && !IsBridge(g, t.name) ==> Step(g, t) == g[t.name := Bridge([], [])]
    ensures t.AddPort? ==> Known(Step(g, t), t.name)
    ensures t.AddBond? ==> t.name in Step(g, t) && Step(g, t)[t.name] == Bond(t.members)
    ensures t.AddBond? ==> forall m :: m in t.members ==> Known(Step(g, t), m)
    ensures (t.AddPort? || t.AddBond?) && t.bridge.Some? && IsBridge(g, t.bridge.value)
               && t.bridge.value != t.name
            ==> IsBridge(Step(g, t), t.bridge.value)
                && Step(g, t)[t.bridge.value].ports == g[t.bridge.value].ports + [t.name]
    ensures t.AddPatch? && IsBridge(g, t.left) && IsBridge(g, t.right)
            ==> IsBridge(Step(g, t), t.left) && IsBridge(Step(g, t), t.right)
                && t.right in Step(g, t)[t.left].peers && t.left in Step(g, t)[t.right].peers
    ensures t.AddPatch? && IsBridge(g, t.left) && IsBridge(g, t.right) && t.left != t.right
            ==> Step(g, t) == g[t.left := Bridge(g[t.left].ports, g[t.left].peers + [t.right])]
                               [t.right := Bridge(g[t.right].ports, g[t.right].peers + [t.left])]
    ensures t.AddPatch? && IsBridge(g, t.left) && t.left == t.right
            ==> Step(g, t) == g[t.left := Bridge(g[t.left].ports, g[t.left].peers + [t.left, t.left])]
    ensures t.AddPatch? && !(IsBridge(g, t.left) && IsBridge(g, t.right)) ==> Step(g, t) == g
  {
    if t.AddPatch? && t.left == t.right && IsBridge(g, t.left) {
      assert g[t.left].peers + [t.left] + [t.left] == g[t.left].peers + [t.left, t.left];
    }
  }

  /** Adding a device that is already known as a port of an existing bridge changes only that bridge's ports. */
  lemma PortAttached(g: Table, t: Transformation)
    requires t.AddPort? && Known(g, t.name) && t.bridge.Some? && IsBridge(g, t.bridge.value)
    ensures Step(g, t) == g[t.bridge.value := g[t.bridge.value].(ports := g[t.bridge.value].ports + [t.name])]
  {
  }

  /**
   * Adding a bond over known members as a port of an existing bridge changes only the bond's
   * own entry and that bridge's ports.
   */
  lemma BondAttached(g: Table, t: Transformation)
    requires t.AddBond? && forall m :: m in t.members ==> Known(g, m)
    requires t.bridge.Some? && t.bridge.value != t.name && IsBridge(g, t.bridge.value)
    ensures Step(g, t) == g[t.name := Bond(t.members)]
                           [t.bridge.value := g[t.bridge.value].(ports := g[t.bridge.value].ports + [t.name])]
  {
    EnsureAllKnown(g, t.members);
  }

  /** The table after applying the transformations `ts` in order to `init`. */
  function Built(init: Table, ts: seq<Transformation>): (g: Table)
    ensures init.Keys <= g.Keys
  {
    if ts == [] then init else Step(Built(init, ts[..|ts| - 1]), ts[|ts| - 1])
  }

  /** Building one more transformation is one more `Step` on the table built so far. */
  lemma BuiltExtend(init: Table, ts: seq<Transformation>, k: nat)
    requires k < |ts|
    ensures Built(init, ts[..k + 1]) == Step(Built(init, ts[..k]), ts[k])
  {
    assert ts[..k + 1][..k] == ts[..k];
  }

  /** Builds the device table of a scheme with one left-to-right pass over its transformations. */
  method BuildTable(interfaces: set<string>, ts: seq<Transformation>) returns (g: Table)
    ensures g == Built(Initial(interfaces), ts)
    ensures forall n :: n in interfaces ==> n in g
    ensures Closed(g)
  {
    g := map n | n in interfaces :: Physical;
    var i := 0;
    while i < |ts|
      invariant 0 <= i <= |ts|
      invariant g == Built(Initial(interfaces), ts[..i])
    {
      assert ts[..i + 1][..i] == ts[..i];
      g := Step(g, ts[i]);
      i := i + 1;
    }
    assert ts[..|ts|] == ts;
    BuiltClosed(Initial(interfaces), ts);
  }

  lemma KnownGrows(g: Table, h: Table, n: string)
    requires g.Keys <= h.Keys && Known(g, n)
    ensures Known(h, n)
  {
  }

  lemma DeviceClosedGrows(g: Table, h: Table, dev: Device)
    requires g.Keys <= h.Keys && DeviceClosed(g, dev)
    ensures DeviceClosed(h, dev)
  {
    match dev
    case Physical =>
    case Bond(ms) =>
      forall m | m in ms ensures Known(h, m) { KnownGrows(g, h, m); }
    case Bridge(ps, qs) =>
      forall p | p in ps ensures Known(h, p) { KnownGrows(g, h, p); }
      forall q | q in qs ensures Known(h, q) { KnownGrows(g, h, q); }
  }

  /** Storing a device whose references resolve keeps a closed table closed. */
  lemma ClosedUpdate(g: Table, k: string, dev: Device)
    requires Closed(g) && DeviceClosed(g[k := dev], dev)
    ensures Closed(g[k := dev])
  {
    var h := g[k := dev];
    forall d | d in h ensures DeviceClosed(h, h[d]) {
      if d != k { DeviceClosedGrows(g, h, g[d]); }
    }
  }

  /** Adding only physical devices keeps a closed table closed. */
  lemma ClosedExtend(g: Table, h: Table)
    requires Closed(g) && g.Keys <= h.Keys
    requires forall d :: d in g ==> h[d] == g[d]
    requires forall d :: d in h && d !in g ==> h[d] == Physical
    ensures Closed(h)
  {
    forall d | d in h ensures DeviceClosed(h, h[d]) {
      if d in g { DeviceClosedGrows(g, h, g[d]); }
    }
  }

  lemma AttachClosed(g: Table, bridge: Option<string>, port: string)
    requires Closed(g) && Known(g, port)
    ensures Closed(Attach(g, bridge, port))
  {
    if bridge.Some? && IsBridge(g, bridge.value) {
      var b := bridge.value;
      var dev := g[b].(ports := g[b].ports + [port]);
      var h := g[b := dev];
      assert g.Keys == h.Keys;
      DeviceClosedGrows(g, h, g[b]);
      KnownGrows(g, h, port);
      ClosedUpdate(g, b, dev);
    }
  }

  /** Every transformation keeps the device table free of dangling references. */
  lemma StepClosed(g: Table, t: Transformation)
    requires Closed(g)
    ensures Closed(Step(g, t))
  {
    match t
    case AddBr(n) =>
      if !IsBridge(g, n) { ClosedUpdate(g, n, Bridge([], [])); }
    case AddPort(n, br) =>
      var g1 := Ensure(g, n);
      ClosedExtend(g, g1);
      AttachClosed(g1, br, n);
    case AddBond(n, br, ms) =>
      var g1 := EnsureAll(g, ms);
      ClosedExtend(g, g1);
      var g2 := g1[n := Bond(ms)];
      forall m | m in ms ensures Known(g2, m) { KnownGrows(g1, g2, m); }
      ClosedUpdate(g1, n, Bond(ms));
      AttachClosed(g2, br, n);
    case AddPatch(a, b) =>
      if IsBridge(g, a) && IsBridge(g, b) {
        var g1 := g[a := g[a].(peers := g[a].peers + [b])];
        DeviceClosedGrows(g, g1, g[a]);
        ClosedUpdate(g, a, g1[a]);
        var g2 := g1[b := g1[b].(peers := g1[b].peers + [a])];
        DeviceClosedGrows(g1, g2, g1[b]);
        ClosedUpdate(g1, b, g2[b]);
      }
    case Other =>
  }

  /** A whole transformation list keeps a closed table closed. */
  lemma {:induction false} BuiltClosed(init: Table, ts: seq<Transformation>)
    requires Closed(init)
    ensures Closed(Built(init, ts))
  {
    if ts != [] {
      BuiltClosed(init, ts[..|ts| - 1]);
      StepClosed(Built(init, ts[..|ts| - 1]), ts[|ts| - 1]);
    }
  }

  /**
   * Every device a transformation names (a port, a bond, a bond member) is a
   * node of the final table, whatever comes after it.
   */
  lemma {:induction false} NamedDevicesExist(init: Table, ts: seq<Transformation>, i: nat)
    requires i < |ts|
    ensures ts[i].AddPort? || ts[i].AddBond? ==> Known(Built(init, ts), ts[i].name)
    ensures ts[i].AddBond? ==> forall m :: m in ts[i].members ==> Known(Built(init, ts), m)
  {
    var prefix := ts[..|ts| - 1];
    var before := Built(init, prefix);
    var after := Built(init, ts);
    if i == |ts| - 1 {
      StepEffects(before, ts[i]);
      if ts[i].AddBond? {
        assert after[ts[i].name] == Bond(ts[i].members);
      }
    } else {
      NamedDevicesExist(init, prefix, i);
      assert prefix[i] == ts[i];
      if ts[i].AddPort? || ts[i].AddBond? { KnownGrows(before, after, ts[i].name); }
      if ts[i].AddBond? {
        forall m | m in ts[i].members ensures Known(after, m) { KnownGrows(before, after, m); }
      }
    }
  }
}
