/** internal/coordinator/zk/zk_coordinator.go: writing nodes of a ZooKeeper tree, with the missing ancestors created
    on the way. Any remote call may fail, with or without effect. */
module ZkTree {
  import opened Remote

  // ---------- paths ----------

  /** The index of the last slash, or -1. */
  function LastSlash(path: string): (i: int)
    ensures -1 <= i < |path|
    ensures i >= 0 ==> path[i] == '/'
    ensures forall k :: i < k < |path| ==> path[k] != '/'
  {
    if path == "" then -1
    else if path[|path| - 1] == '/' then |path| - 1
    else LastSlash(path[..|path| - 1])
  }

  predicate HasParent(path: string) { path != "/" && LastSlash(path) >= 0 }

  function Parent(path: string): (parent: string)
    requires HasParent(path)
    ensures |parent| < |path|
  {
    var i := LastSlash(path);
    if i == 0 then "/" else path[..i]
  }

  /** What the client library lets through; names are otherwise free. */
  predicate ValidPath(path: string) {
    && path != "" && path[0] == '/'
    && (path != "/" ==> path[|path| - 1] != '/')
    && forall i :: 0 <= i < |path| - 1 ==> !(path[i] == '/' && path[i + 1] == '/')
  }

  lemma ParentIsValid(path: string)
    requires ValidPath(path) && path != "/"
    ensures HasParent(path) && ValidPath(Parent(path))
  {
    var i := LastSlash(path);
    assert i >= 0;
    if i > 0 {
      var parent := path[..i];
      assert parent[0] == path[0] && parent[|parent| - 1] == path[i - 1];
      var j := i - 1;
      assert path[j + 1] == '/' && path[j] != '/';
      forall k | 0 <= k < |parent| - 1 ensures !(parent[k] == '/' && parent[k + 1] == '/') {
        assert parent[k] == path[k] && parent[k + 1] == path[k + 1];
      }
    }
  }

  ghost predicate IsAncestor(a: string, path: string)
    decreases |path|
  {
    HasParent(path) && (a == Parent(path) || IsAncestor(a, Parent(path)))
  }

  // ---------- trees ----------

  datatype Node = Node(data: seq<int>, version: nat)

  type Nodes = map<string, Node>

  /** The root is there, and with every node its parent. */
  ghost predicate PrefixClosed(nodes: Nodes) {
    "/" in nodes && forall p :: p in nodes ==> ValidPath(p) && (p != "/" ==> HasParent(p) && Parent(p) in nodes)
  }

  /** So with every node all its ancestors. */
  lemma {:induction false} AncestorsPresent(nodes: Nodes, path: string, a: string)
    requires PrefixClosed(nodes) && path in nodes && IsAncestor(a, path)
    ensures a in nodes
    decreases |path|
  {
    if a != Parent(path) { AncestorsPresent(nodes, Parent(path), a); }
  }

  /** Nothing disappears, no other node changes, and what is new is an empty ancestor or the node itself. */
  ghost predicate GrowsTowards(before: Nodes, after: Nodes, path: string) {
    && (forall p :: p in before ==> p in after && (p != path ==> after[p] == before[p]))
    && (forall p :: p in after && p !in before ==> p == path || (IsAncestor(p, path) && after[p] == Node([], 0)))
  }

  /** The same while only ancestors are created: the node itself is not touched either. */
  ghost predicate GrowsAbove(before: Nodes, after: Nodes, path: string) {
    && (forall p :: p in before ==> p in after && after[p] == before[p])
    && (forall p :: p in after && p !in before ==> IsAncestor(p, path) && after[p] == Node([], 0))
  }

  lemma {:induction false} AncestorIsShorter(a: string, path: string)
    requires IsAncestor(a, path)
    ensures |a| < |path|
    decreases |path|
  {
    if a != Parent(path) { AncestorIsShorter(a, Parent(path)); }
  }

  lemma AboveParent(before: Nodes, middle: Nodes, after: Nodes, path: string)
    requires HasParent(path) && GrowsAbove(before, middle, Parent(path))
    requires after == middle || (Parent(path) !in middle && after == middle[Parent(path) := Node([], 0)])
    ensures GrowsAbove(before, after, path)
  {
  }

  // ---------- the coordinator ----------

  datatype Error = NoError | NodeExists | NoNode | OtherError

  /** Panicked: slicing at a slash that is not there. */
  datatype Result = Ok | Failed | Panicked

  class Coordinator {
    const connected: bool
    const faults: nat -> Outcome   // how each remote call ends, in order
    var calls: nat
    var nodes: Nodes

    constructor (connected: bool, faults: nat -> Outcome)
      ensures PrefixClosed(nodes) && nodes == map["/" := Node([], 0)]
      ensures this.connected == connected && this.faults == faults
    {
      this.connected, this.faults := connected, faults;
      calls, nodes := 0, map["/" := Node([], 0)];
    }

    ghost predicate Reliable() { connected && forall n: nat :: faults(n) == Done }

    // ----- remote calls -----

    method Exists(path: string) returns (found: bool, e: Error)
      modifies this`calls
      ensures e == NoError || e == OtherError
      ensures e == NoError ==> ValidPath(path) && (found <==> path in nodes)
      ensures Reliable() && ValidPath(path) ==> e == NoError
    {
      var outcome := faults(calls);
      calls := calls + 1;
      found := path in nodes;
      e := if ValidPath(path) && outcome == Done then NoError else OtherError;
    }

    method Create(path: string, data: seq<int>) returns (e: Error)
      modifies this`calls, this`nodes
      ensures nodes == old(nodes) || (path !in old(nodes) && nodes == old(nodes)[path := Node(data, 0)])
      ensures path in nodes && path !in old(nodes) ==> ValidPath(path) && HasParent(path) && Parent(path) in old(nodes)
      ensures e == NoError ==> path !in old(nodes) && path in nodes
      ensures e == NodeExists ==> path in old(nodes)
      ensures e == NoNode ==> path != "/" && HasParent(path) && Parent(path) !in old(nodes)
      ensures Reliable() && ValidPath(path) && "/" in old(nodes)
              && (path == "/" || (HasParent(path) && Parent(path) in old(nodes)))
              ==> e == if path in old(nodes) then NodeExists else NoError
    {
      var outcome := faults(calls);
      calls := calls + 1;
      if outcome == Refused || !ValidPath(path) {
        return OtherError;
      }
      if path in nodes {
        e := NodeExists;
      } else if !HasParent(path) {
        return OtherError;
      } else if Parent(path) !in nodes {
        e := NoNode;
      } else {
        nodes := nodes[path := Node(data, 0)];
        e := NoError;
      }
      if outcome != Done {
        e := OtherError;
      }
    }

    method Get(path: string) returns (e: Error, version: nat)
      modifies this`calls
      ensures e != NodeExists
      ensures e == NoError ==> path in nodes && version == nodes[path].version
      ensures e == NoNode ==> path !in nodes
      ensures Reliable() && ValidPath(path) ==> e == if path in nodes then NoError else NoNode
    {
      var outcome := faults(calls);
      calls := calls + 1;
      version := 0;
      if outcome != Done || !ValidPath(path) {
        return OtherError, version;
      }
      if path !in nodes {
        return NoNode, version;
      }
      return NoError, nodes[path].version;
    }

    /** Set is a compare-and-swap on the version. */
    method Set(path: string, data: seq<int>, version: nat) returns (ok: bool)
      modifies this`calls, this`nodes
      ensures nodes == old(nodes) || (path in old(nodes) && nodes == old(nodes)[path := Node(data, version + 1)])
      ensures ok ==> path in nodes && nodes[path].data == data
      ensures Reliable() && ValidPath(path) && path in old(nodes) && old(nodes)[path].version == version ==> ok
    {
      var outcome := faults(calls);
      calls := calls + 1;
      if outcome == Refused || !ValidPath(path) || path !in nodes || nodes[path].version != version {
        return false;
      }
      nodes := nodes[path := Node(data, version + 1)];
      ok := outcome == Done;
    }

    // ----- the program -----

    method FindLastSlash(path: string) returns (i: int)
      ensures i == LastSlash(path)
    {
      i := |path| - 1;
      while i >= 0
        invariant -1 <= i < |path|
        invariant LastSlash(path) == LastSlash(path[..i + 1])
      {
        if path[i] == '/' {
          return;
        }
        assert path[..i + 1][..i] == path[..i];
        i := i - 1;
      }
    }

    /** Creates the missing ancestors, the topmost first. The recursion ends because the parent's path is shorter. */
    method EnsureParentPath(path: string) returns (r: Result)
      requires PrefixClosed(nodes)
      modifies this`calls, this`nodes
      ensures PrefixClosed(nodes) && GrowsAbove(old(nodes), nodes, path)
      ensures r == Panicked <==> path != "/" && LastSlash(path) < 0
      ensures r == Ok ==> path == "/" || (HasParent(path) && Parent(path) in nodes)
      ensures Reliable() && ValidPath(path) ==> r == Ok
      decreases |path|
    {
      hide ValidPath;
      if path == "/" {
        return Ok;
      }
      var i := FindLastSlash(path);
      if ValidPath(path) { ParentIsValid(path); }
      if i < 0 {
        return Panicked;
      }
      var parentPath := path[..i];
      if parentPath == "" {
        parentPath := "/";
      }
      assert parentPath == Parent(path);
      var found, e := Exists(parentPath);
      if e != NoError {
        return Failed;
      }
      if !found {
        r := EnsureParentPath(parentPath);
        ghost var middle := nodes;
        assert r != Panicked by { ValidHasSlash(parentPath); }
        AboveParent(old(nodes), middle, middle, path);
        if r != Ok {
          return;
        }
        assert parentPath !in middle by { NotItsOwnAncestor(old(nodes), middle, parentPath); }
        e := Create(parentPath, []);
        AboveParent(old(nodes), middle, nodes, path);
        if e != NoError && e != NodeExists {
          return Failed;
        }
      }
      return Ok;
    }

    lemma ValidHasSlash(path: string)
      requires ValidPath(path)
      ensures LastSlash(path) >= 0
    {
    }

    lemma NotItsOwnAncestor(before: Nodes, after: Nodes, path: string)
      requires GrowsAbove(before, after, path) && path !in before
      ensures path !in after
    {
      if path in after { AncestorIsShorter(path, path); }
    }

    /** A node's data is set, whether or not the node was there; then all its ancestors are there too. No other node
        changes; on an error at most some empty ancestors, or the node itself, have been written. */
    method UpsertNode(path: string, data: seq<int>) returns (r: Result)
      requires PrefixClosed(nodes)
      modifies this`calls, this`nodes
      ensures PrefixClosed(nodes) && GrowsTowards(old(nodes), nodes, path)
      ensures r == Ok ==> path in nodes && nodes[path].data == data
      ensures path in nodes ==> nodes[path].data == data || (path in old(nodes) && nodes[path] == old(nodes)[path])
      ensures r == Panicked <==> connected && path != "/" && LastSlash(path) < 0
      ensures Reliable() && ValidPath(path) ==> r == Ok
      decreases 1
    {
      hide ValidPath;
      if !connected {
        return Failed;
      }
      r := EnsureParentPath(path);
      if r != Ok {
        AboveIsTowards(old(nodes), nodes, path);
        return;
      }
      ghost var middle := nodes;
      var e := Create(path, data);
      CreatedTowards(old(nodes), middle, nodes, path, data);
      if e == NodeExists {
        r := UpdateNode(path, data);
        return;
      }
      r := if e == NoError then Ok else Failed;
    }

    lemma AboveIsTowards(before: Nodes, after: Nodes, path: string)
      requires GrowsAbove(before, after, path)
      ensures GrowsTowards(before, after, path)
      ensures path in after ==> path in before && after[path] == before[path]
    {
      if path in after && path !in before { AncestorIsShorter(path, path); }
    }

    lemma CreatedTowards(before: Nodes, middle: Nodes, after: Nodes, path: string, data: seq<int>)
      requires GrowsAbove(before, middle, path) && PrefixClosed(middle)
      requires after == middle || (path !in middle && after == middle[path := Node(data, 0)])
      requires path in after && path !in middle ==> ValidPath(path) && HasParent(path) && Parent(path) in middle
      ensures PrefixClosed(after) && GrowsTowards(before, after, path)
      ensures path in after ==> after[path].data == data || (path in before && after[path] == before[path])
      ensures path in middle ==> path in before
    {
      AboveIsTowards(before, middle, path);
    }

    /** The same from the other side: an update that finds no node inserts it. */
    method UpdateNode(path: string, data: seq<int>) returns (r: Result)
      requires PrefixClosed(nodes)
      modifies this`calls, this`nodes
      ensures PrefixClosed(nodes) && GrowsTowards(old(nodes), nodes, path)
      ensures r == Ok ==> path in nodes && nodes[path].data == data
      ensures path in nodes ==> nodes[path].data == data || (path in old(nodes) && nodes[path] == old(nodes)[path])
      ensures r == Panicked ==> connected && path != "/" && LastSlash(path) < 0
      ensures path in old(nodes) ==> r != Panicked && nodes.Keys == old(nodes).Keys
      ensures Reliable() && ValidPath(path) ==> r == Ok
      decreases if path in nodes then 0 else 2
    {
      hide ValidPath;
      if !connected {
        return Failed;
      }
      var e, version := Get(path);
      if e == NoNode {
        r := UpsertNode(path, data);
        return;
      }
      if e != NoError {
        return Failed;
      }
      ghost var before := nodes;
      var ok := Set(path, data, version);
      assert nodes.Keys == before.Keys;
      r := if ok then Ok else Failed;
    }
  }
}
