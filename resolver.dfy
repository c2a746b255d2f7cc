/**
 * The `phys_dev` resolver: from an endpoint name, walk the device graph
 * through bridge ports and patch peers down to the physical interfaces and
 * bonds that carry its traffic.
 */
module Resolver {
  import opened Devices

  /** No element occurs twice. */
  predicate NoDup(s: seq<string>)
  {
    forall i, j :: 0 <= i < j < |s| ==> s[i] != s[j]
  }

  /** Drops every repeated element, keeping first occurrences in their original order. */
  function Dedup(s: seq<string>): (r: seq<string>)
    ensures NoDup(r)
    ensures forall x :: x in r <==> x in s
  {
    if s == [] then []
    else
      var r := Dedup(s[..|s| - 1]);
      assert forall x :: x in s <==> x in s[..|s| - 1] || x == s[|s| - 1];
      if s[|s| - 1] in r then r else r + [s[|s| - 1]]
  }

  /** A list without repetitions is left as it is. */
  lemma {:induction false} DedupOfNoDup(s: seq<string>)
    requires NoDup(s)
    ensures Dedup(s) == s
  {
    if s != [] {
      var init := s[..|s| - 1];
      assert NoDup(init);
      DedupOfNoDup(init);
      assert s[|s| - 1] !in init;
      assert init + [s[|s| - 1]] == s;
    }
  }

  /** First-seen order: what comes first in the input comes first in the output. */
  lemma {:induction false} DedupPrefix(a: seq<string>, b: seq<string>)
    ensures Dedup(a) <= Dedup(a + b)
  {
    if b != [] {
      var b' := b[..|b| - 1];
      assert (a + b)[..|a + b| - 1] == a + b';
      DedupPrefix(a, b');
    } else {
      assert a + b == a;
    }
  }

  /** The bridges of the graph: the traversal's termination measure is the set of those not yet visited. */
  ghost function BridgeNames(g: Table): set<string>
  {
    set n | n in g && g[n].Bridge?
  }

  /**
   * The devices under `name`, in traversal order and possibly repeated. A
   * physical interface stands for itself, a bond for itself followed by its
   * members, and a bridge for the devices under its ports followed by those
   * under its patch peers. `visited` holds the bridges on the current path;
   * reaching one of them again contributes nothing, which cuts patch cycles.
   */
  function Walk(g: Table, visited: set<string>, name: string): seq<string>
    decreases BridgeNames(g) - visited, 0, 0
  {
    var d := DeviceOf(g, name);
    if d !in g then []
    else match g[d]
      case Physical => [d]
      case Bond(ms) => [d] + ms
      case Bridge(ps, qs) =>
        if d in visited then []
        else
          assert d in BridgeNames(g);
          WalkAll(g, visited + {d}, ps) + WalkAll(g, visited + {d}, qs)
  }

  /** `Walk` of each name in turn, concatenated. */
  function WalkAll(g: Table, visited: set<string>, names: seq<string>): seq<string>
    decreases BridgeNames(g) - visited, 1, |names|
  {
    if names == [] then [] else Walk(g, visited, names[0]) + WalkAll(g, visited, names[1..])
  }

  /** The `phys_dev` answer for an endpoint: the devices under it, each once, in first-seen order. */
  function PhysDevices(g: Table, endpoint: string): (r: seq<string>)
    ensures NoDup(r)
    ensures forall x :: x in r <==> x in Walk(g, {}, endpoint)
  {
    Dedup(Walk(g, {}, endpoint))
  }

  /** A device that carries traffic itself: a node that is not a bridge, or the member of a bond. */
  ghost predicate Backing(g: Table, x: string)
  {
    (x in g && !g[x].Bridge?) || exists d :: d in g && g[d].Bond? && x in g[d].members
  }

  /** `phys_dev` never names a bridge as such: every device it returns is a non-bridge node or a bond member. */
  lemma PhysDevicesSound(g: Table, endpoint: string)
    ensures forall x :: x in PhysDevices(g, endpoint) ==> Backing(g, x)
  {
    forall x | x in PhysDevices(g, endpoint)
      ensures Backing(g, x)
    {
      PhysDevicesReach(g, endpoint, x);
      var path :| IsPath(g, path) && path[0] == DeviceOf(g, endpoint) && Carries(g, path[|path| - 1], x);
      var d := path[|path| - 1];
      if !(x in g && !g[x].Bridge?) {
        assert d in g && g[d].Bond? && x in g[d].members;
      }
    }
  }

  /** A device is under a list of names exactly when it is under one of them. */
  lemma {:induction false} WalkAllMembers(g: Table, visited: set<string>, names: seq<string>, x: string)
    ensures x in WalkAll(g, visited, names)
            <==> exists i :: 0 <= i < |names| && x in Walk(g, visited, names[i])
  {
    if names != [] {
      WalkAllMembers(g, visited, names[1..], x);
      if x in WalkAll(g, visited, names[1..]) {
        var i :| 0 <= i < |names| - 1 && x in Walk(g, visited, names[1..][i]);
        assert names[1..][i] == names[i + 1];
      }
      if exists i :: 0 <= i < |names| && x in Walk(g, visited, names[i]) {
        var i :| 0 <= i < |names| && x in Walk(g, visited, names[i]);
        if i > 0 { assert names[i] == names[1..][i - 1]; }
      }
    }
  }

  /** An endpoint that is a physical interface (or a VLAN on one) resolves to that interface alone. */
  lemma PhysicalResolves(g: Table, endpoint: string)
    requires DeviceOf(g, endpoint) in g && g[DeviceOf(g, endpoint)] == Physical
    ensures PhysDevices(g, endpoint) == [DeviceOf(g, endpoint)]
  {
    DedupOfNoDup([DeviceOf(g, endpoint)]);
  }

  /**
   * An endpoint that is a bond (or a VLAN on one) resolves to the bond followed
   * by its members in declared order.
   */
  lemma BondResolves(g: Table, endpoint: string)
    requires DeviceOf(g, endpoint) in g && g[DeviceOf(g, endpoint)].Bond?
    requires NoDup(g[DeviceOf(g, endpoint)].members)
    requires DeviceOf(g, endpoint) !in g[DeviceOf(g, endpoint)].members
    ensures PhysDevices(g, endpoint) == [DeviceOf(g, endpoint)] + g[DeviceOf(g, endpoint)].members
  {
    var d := DeviceOf(g, endpoint);
    var s := [d] + g[d].members;
    assert NoDup(s) by {
      forall i, j | 0 <= i < j < |s| ensures s[i] != s[j] {
        if i == 0 { assert s[j] in g[d].members; }
        else { assert s[i] == g[d].members[i - 1] && s[j] == g[d].members[j - 1]; }
      }
    }
    DedupOfNoDup(s);
  }

  /** A bridge with neither ports nor patch peers has no physical backing: the answer is empty, not absent. */
  lemma SoftwareBridgeIsEmpty(g: Table, endpoint: string)
    requires DeviceOf(g, endpoint) in g && g[DeviceOf(g, endpoint)] == Bridge([], [])
    ensures PhysDevices(g, endpoint) == []
  {
    var d := DeviceOf(g, endpoint);
    assert {} + {d} == {d};
    assert WalkAll(g, {d}, []) == [];
    assert Walk(g, {}, endpoint) == [];
  }

  /**
   * A bridge endpoint resolves to exactly the devices under its ports and its
   * patch peers, walked with the bridge itself marked visited.
   */
  lemma BridgeResolves(g: Table, endpoint: string, x: string)
    requires IsBridge(g, DeviceOf(g, endpoint))
    ensures var d := DeviceOf(g, endpoint);
            x in PhysDevices(g, endpoint)
            <==> exists p :: (p in g[d].ports || p in g[d].peers) && x in Walk(g, {d}, p)
  {
    var d := DeviceOf(g, endpoint);
    assert {} + {d} == {d};
    var ps, qs := g[d].ports, g[d].peers;
    WalkAllMembers(g, {d}, ps, x);
    WalkAllMembers(g, {d}, qs, x);
    if exists p :: (p in ps || p in qs) && x in Walk(g, {d}, p) {
      var p :| (p in ps || p in qs) && x in Walk(g, {d}, p);
      if p in ps {
        var i :| 0 <= i < |ps| && ps[i] == p;
      } else {
        var i :| 0 <= i < |qs| && qs[i] == p;
      }
    }
  }

  /** Devices under a bridge's own ports come before those reached through its patch peers. */
  lemma PortsBeforePeers(g: Table, endpoint: string)
    requires IsBridge(g, DeviceOf(g, endpoint))
    ensures var d := DeviceOf(g, endpoint);
            Dedup(WalkAll(g, {d}, g[d].ports)) <= PhysDevices(g, endpoint)
  {
    var d := DeviceOf(g, endpoint);
    assert {} + {d} == {d};
    DedupPrefix(WalkAll(g, {d}, g[d].ports), WalkAll(g, {d}, g[d].peers));
  }

  /**
   * A bridge `x` with no ports whose only patch peer `y` is already on the
   * path adds nothing to a walk: marking it visited or not gives the same walk.
   */
  lemma {:induction false} WalkInert(g: Table, visited: set<string>, name: string, x: string, y: string)
    requires x in g && g[x] == Bridge([], [y]) && IsBridge(g, y) && y in visited
    ensures Walk(g, visited + {x}, name) == Walk(g, visited, name)
    decreases BridgeNames(g) - visited, 0, 0
  {
    var d := DeviceOf(g, name);
    if d in g && g[d].Bridge? && d !in visited {
      if d == x {
        var v := visited + {x};
        assert DeviceOf(g, y) == y;
        assert Walk(g, v, y) == [];
        assert WalkAll(g, v, [y]) == Walk(g, v, y) + WalkAll(g, v, [y][1..]);
        assert WalkAll(g, v, []) == [];
        assert Walk(g, visited, name) == WalkAll(g, v, []) + WalkAll(g, v, [y]);
      } else {
        assert d in BridgeNames(g);
        assert visited + {x} + {d} == visited + {d} + {x};
        WalkAllInert(g, visited + {d}, g[d].ports, x, y);
        WalkAllInert(g, visited + {d}, g[d].peers, x, y);
      }
    }
  }

  lemma {:induction false} WalkAllInert(g: Table, visited: set<string>, names: seq<string>, x: string, y: string)
    requires x in g && g[x] == Bridge([], [y]) && IsBridge(g, y) && y in visited
    ensures WalkAll(g, visited + {x}, names) == WalkAll(g, visited, names)
    decreases BridgeNames(g) - visited, 1, |names|
  {
    if names != [] {
      WalkInert(g, visited, names[0], x, y);
      WalkAllInert(g, visited, names[1..], x, y);
    }
  }

  /**
   * Patch transparency: a bridge with no ports of its own, patched only to
   * another bridge, resolves to exactly what that bridge resolves to, even
   * though the two bridges reach each other through the patch.
   */
  lemma PatchTransparent(g: Table, x: string, y: string)
    requires x in g && g[x] == Bridge([], [y]) && IsBridge(g, y) && x != y
    ensures PhysDevices(g, x) == PhysDevices(g, y)
  {
    assert DeviceOf(g, x) == x && DeviceOf(g, y) == y;
    assert {} + {x} == {x} && {} + {y} == {y};
    assert WalkAll(g, {x}, [y]) == Walk(g, {x}, y) + WalkAll(g, {x}, [y][1..]);
    assert WalkAll(g, {x}, []) == [];
    assert Walk(g, {}, x) == Walk(g, {x}, y);
    assert {x} + {y} == {y} + {x};
    WalkAllInert(g, {y}, g[y].ports, x, y);
    WalkAllInert(g, {y}, g[y].peers, x, y);
  }

  /**
   * Seen from bridge `y`, a port-less bridge `x` whose only patch leads back
   * to `y` contributes nothing: the patch cycle is cut at `y`.
   */
  lemma PatchedBackIsEmpty(g: Table, x: string, y: string)
    requires x in g && g[x] == Bridge([], [y]) && IsBridge(g, y) && x != y
    ensures WalkAll(g, {y}, [x]) == []
  {
    assert DeviceOf(g, x) == x && DeviceOf(g, y) == y;
    assert {y} + {x} == {x, y};
    assert WalkAll(g, {x, y}, [y]) == Walk(g, {x, y}, y) + WalkAll(g, {x, y}, []);
    assert Walk(g, {y}, x) == [];
    assert WalkAll(g, {y}, [x]) == Walk(g, {y}, x) + WalkAll(g, {y}, []);
  }

  // Reachability, defined independently of the traversal: paths through bridges.

  /** Bridge `b` leads to node `n`: one of its ports or patch peers refers to `n`. */
  ghost predicate Link(g: Table, b: string, n: string)
  {
    IsBridge(g, b) && exists p :: (p in g[b].ports || p in g[b].peers) && DeviceOf(g, p) == n
  }

  /** Each node of `path` but the last is a bridge leading to the next one. */
  ghost predicate IsPath(g: Table, path: seq<string>)
  {
    |path| > 0 && forall i :: 0 <= i < |path| - 1 ==> Link(g, path[i], path[i + 1])
  }

  /** Node `d` carries `x`: `d` is `x` and not a bridge, or `d` is a bond with member `x`. */
  ghost predicate Carries(g: Table, d: string, x: string)
  {
    d in g && ((x == d && !g[d].Bridge?) || (g[d].Bond? && x in g[d].members))
  }

  /** Some path of bridges from node `from` ends at a node that carries `x`. */
  ghost predicate Reaches(g: Table, from: string, x: string)
  {
    exists path :: IsPath(g, path) && path[0] == from && Carries(g, path[|path| - 1], x)
  }

  /** A bridge reaches whatever one of its ports or patch peers reaches. */
  lemma ReachesThrough(g: Table, d: string, p: string, x: string)
    requires IsBridge(g, d) && (p in g[d].ports || p in g[d].peers)
    requires Reaches(g, DeviceOf(g, p), x)
    ensures Reaches(g, d, x)
  {
    var path :| IsPath(g, path) && path[0] == DeviceOf(g, p) && Carries(g, path[|path| - 1], x);
    assert Link(g, d, path[0]);
    var longer := [d] + path;
    forall i | 0 <= i < |longer| - 1
      ensures Link(g, longer[i], longer[i + 1])
    {
      if i > 0 {
        assert longer[i] == path[i - 1] && longer[i + 1] == path[i];
      }
    }
    assert longer[|longer| - 1] == path[|path| - 1];
  }

  /** Every device a walk returns is carried at the end of a path from the walk's node. */
  lemma {:induction false} WalkReaches(g: Table, visited: set<string>, name: string, x: string)
    requires x in Walk(g, visited, name)
    ensures Reaches(g, DeviceOf(g, name), x)
    decreases BridgeNames(g) - visited
  {
    var d := DeviceOf(g, name);
    if g[d].Bridge? {
      assert d in BridgeNames(g) && d !in visited;
      var v := visited + {d};
      var ps, qs := g[d].ports, g[d].peers;
      assert Walk(g, visited, name) == WalkAll(g, v, ps) + WalkAll(g, v, qs);
      var p;
      if x in WalkAll(g, v, ps) {
        WalkAllMembers(g, v, ps, x);
        var i :| 0 <= i < |ps| && x in Walk(g, v, ps[i]);
        p := ps[i];
      } else {
        WalkAllMembers(g, v, qs, x);
        var i :| 0 <= i < |qs| && x in Walk(g, v, qs[i]);
        p := qs[i];
      }
      WalkReaches(g, v, p, x);
      ReachesThrough(g, d, p, x);
    } else {
      assert Carries(g, d, x);
      assert IsPath(g, [d]);
    }
  }

  /** A path that repeats a node can be shortened to one that does not, with the same ends. */
  lemma {:induction false} SimplePath(g: Table, path: seq<string>)
    requires IsPath(g, path)
    ensures exists simple :: IsPath(g, simple) && NoDup(simple)
                && simple[0] == path[0] && simple[|simple| - 1] == path[|path| - 1]
    decreases |path|
  {
    if !NoDup(path) {
      var i, j :| 0 <= i < j < |path| && path[i] == path[j];
      var shorter := path[..i] + path[j..];
      assert |shorter| == |path| - (j - i);
      forall k | 0 <= k < |shorter| - 1
        ensures Link(g, shorter[k], shorter[k + 1])
      {
        if k + 1 < i {
          assert shorter[k] == path[k] && shorter[k + 1] == path[k + 1];
        } else if k + 1 == i {
          assert shorter[k] == path[k] && shorter[k + 1] == path[j] == path[k + 1];
        } else {
          assert shorter[k] == path[k - i + j] && shorter[k + 1] == path[k - i + j + 1];
        }
      }
      assert shorter[0] == path[0];
      assert shorter[|shorter| - 1] == path[|path| - 1];
      SimplePath(g, shorter);
    }
  }

  /**
   * A walk returns every device carried at the end of a path from its node
   * that repeats no node and avoids the bridges already visited.
   */
  lemma {:induction false} WalkComplete(g: Table, visited: set<string>, name: string, path: seq<string>, x: string)
    requires IsPath(g, path) && NoDup(path) && path[0] == DeviceOf(g, name)
    requires Carries(g, path[|path| - 1], x)
    requires forall i :: 0 <= i < |path| ==> path[i] !in visited
    ensures x in Walk(g, visited, name)
    decreases |path|
  {
    var d := DeviceOf(g, name);
    if |path| > 1 {
      assert Link(g, d, path[1]);
      var p :| (p in g[d].ports || p in g[d].peers) && DeviceOf(g, p) == path[1];
      var rest := path[1..];
      var v := visited + {d};
      assert forall i :: 0 <= i < |rest| ==> rest[i] == path[i + 1] && rest[i] != path[0];
      WalkComplete(g, v, p, rest, x);
      var ps, qs := g[d].ports, g[d].peers;
      if p in ps {
        var i :| 0 <= i < |ps| && ps[i] == p;
        WalkAllMembers(g, v, ps, x);
      } else {
        var i :| 0 <= i < |qs| && qs[i] == p;
        WalkAllMembers(g, v, qs, x);
      }
    }
  }

  /**
   * The answer for an endpoint holds exactly the devices carried at the end of
   * some path of bridges from the endpoint's node, through ports and patch peers.
   */
  lemma PhysDevicesReach(g: Table, endpoint: string, x: string)
    ensures x in PhysDevices(g, endpoint) <==> Reaches(g, DeviceOf(g, endpoint), x)
  {
    if x in PhysDevices(g, endpoint) {
      WalkReaches(g, {}, endpoint, x);
    }
    if Reaches(g, DeviceOf(g, endpoint), x) {
      var path :| IsPath(g, path) && path[0] == DeviceOf(g, endpoint) && Carries(g, path[|path| - 1], x);
      SimplePath(g, path);
      var simple :| IsPath(g, simple) && NoDup(simple)
                    && simple[0] == path[0] && simple[|simple| - 1] == path[|path| - 1];
      WalkComplete(g, {}, endpoint, simple, x);
    }
  }
}
