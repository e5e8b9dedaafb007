/** Two walks up the client's rooms: the permission chain from Root to a room, and the room tree's ancestor iterator. */
module RoomChains {
  import opened Options
  import opened Rooms
  import opened RoomWalk

  // ---- The permission chain

  /** The parent in the first record with this id. */
  function ParentOf(rooms: seq<Room>, u: Uuid): Option<Uuid> {
    if rooms == [] then None
    else if rooms[0].id == u then Some(rooms[0].parent)
    else ParentOf(rooms[1..], u)
  }

  function Reversed(s: seq<Uuid>): (r: seq<Uuid>)
    ensures |r| == |s| && forall i :: 0 <= i < |s| ==> r[i] == s[|s| - 1 - i]
  {
    if s == [] then [] else Reversed(s[1..]) + [s[0]]
  }

  /** The climb was cut short at `u`: it is not listed, or its parent has been passed already. */
  ghost predicate CutAt(rooms: seq<Room>, u: Uuid, passed: seq<Uuid>) {
    ParentOf(rooms, u).None? || ParentOf(rooms, u).value in passed
  }

  /**
   From Root to `target` without a repetition, every room under its parent; only Root may stand above a room that is not
   its child, and then because the climb was cut there.
   */
  ghost predicate IsChain(rooms: seq<Room>, target: Uuid, chain: seq<Uuid>) {
    && chain != [] && chain[0] == ROOT && chain[|chain| - 1] == target && NoRepeats(chain)
    && (forall i :: 1 < i < |chain| ==> ParentOf(rooms, chain[i]) == Some(chain[i - 1]))
    && (|chain| > 1 ==> ParentOf(rooms, chain[1]) == Some(ROOT) || CutAt(rooms, chain[1], chain[1..]))
  }

  /** A climb from `target`: each room followed by its parent, stopping at Root at the latest. */
  ghost predicate IsClimb(rooms: seq<Room>, target: Uuid, path: seq<Uuid>) {
    && NoRepeats(path) && (path != [] ==> path[0] == target)
    && (forall i :: 0 < i < |path| ==> ParentOf(rooms, path[i - 1]) == Some(path[i]))
    && (forall i :: 0 <= i < |path| - 1 ==> path[i] != ROOT)
  }

  function Ids(rooms: seq<Room>): set<Uuid> {
    set i | 0 <= i < |rooms| :: rooms[i].id
  }

  lemma {:induction false} ListedHasId(rooms: seq<Room>, u: Uuid)
    ensures ParentOf(rooms, u).Some? <==> u in Ids(rooms)
  {
    if rooms != [] {
      ListedHasId(rooms[1..], u);
      if u in Ids(rooms[1..]) {
        var i :| 0 <= i < |rooms| - 1 && rooms[1..][i].id == u;
        assert rooms[i + 1].id == u;
      }
      if u in Ids(rooms) && rooms[0].id != u {
        var i :| 0 <= i < |rooms| && rooms[i].id == u;
        assert rooms[1..][i - 1].id == u;
      }
    }
  }

  method FindParent(rooms: seq<Room>, u: Uuid) returns (parent: Option<Uuid>)
    ensures parent == ParentOf(rooms, u)
  {
    var i := 0;
    while i < |rooms|
      invariant 0 <= i <= |rooms| && ParentOf(rooms, u) == ParentOf(rooms[i..], u)
    {
      if rooms[i].id == u {
        return Some(rooms[i].parent);
      }
      i := i + 1;
    }
    parent := None;
  }

  lemma {:induction false} ClimbEnds(rooms: seq<Room>, target: Uuid, path: seq<Uuid>)
    requires IsClimb(rooms, target, path) && path != []
    requires var last := path[|path| - 1]; last == ROOT || CutAt(rooms, last, path)
    ensures var up := Reversed(path); IsChain(rooms, target, if up[0] == ROOT then up else [ROOT] + up)
  {
    var up := Reversed(path);
    var n := |path|;
    var chain := if up[0] == ROOT then up else [ROOT] + up;
    assert forall i, j :: 0 <= i < j < n ==> up[i] == path[n - 1 - i] && up[j] == path[n - 1 - j];
    assert NoRepeats(up);
    if up[0] == ROOT {
      forall i | 0 < i < n ensures ParentOf(rooms, up[i]) == Some(up[i - 1]) {
        assert up[i] == path[n - 1 - i] && up[i - 1] == path[n - i];
      }
    } else {
      assert up[0] == path[n - 1];
      forall i | 0 <= i < n ensures up[i] != ROOT {
        assert up[i] == path[n - 1 - i];
      }
      assert NoRepeats(chain);
      forall i | 1 < i < |chain| ensures ParentOf(rooms, chain[i]) == Some(chain[i - 1]) {
        assert chain[i] == path[n - i] && chain[i - 1] == path[n - i + 1];
      }
      assert chain[1..] == up;
      if ParentOf(rooms, up[0]).Some? {
        var p := ParentOf(rooms, up[0]).value;
        var k :| 0 <= k < n && path[k] == p;
        assert up[n - 1 - k] == p;
      }
    }
  }

  /** Terminates on every room list, parent cycles, unlisted parents and duplicate ids included. */
  method BuildRoomChain(rooms: seq<Room>, target: Uuid) returns (chain: seq<Uuid>)
    ensures IsChain(rooms, target, chain)
  {
    var path: seq<Uuid> := [];
    var visited: set<Uuid> := {};
    var current := target;
    while true
      invariant IsClimb(rooms, target, path) && visited == Elems(path) && visited <= Ids(rooms)
      invariant path == [] ==> current == target
      invariant path != [] ==> path[|path| - 1] != ROOT && ParentOf(rooms, path[|path| - 1]) == Some(current)
      decreases Ids(rooms) - visited
    {
      if current in visited {
        break;
      }
      visited := visited + {current};
      path := path + [current];
      if current == ROOT {
        break;
      }
      var parent := FindParent(rooms, current);
      ListedHasId(rooms, current);
      if parent.None? {
        break;
      }
      current := parent.value;
    }
    ClimbEnds(rooms, target, path);
    chain := Reversed(path);
    if chain[0] != ROOT {
      chain := [ROOT] + chain;
    }
  }

  // ---- The room tree

  datatype Node = Node(id: Uuid, name: string, parentId: Option<Uuid>, children: seq<Uuid>, description: Option<string>)

  /** Root's link to itself is dropped. */
  function ParentLink(r: Room): Option<Uuid> {
    if r.id == ROOT then None else Some(r.parent)
  }

  ghost predicate NodeOf(n: Node, r: Room) {
    n.id == r.id && n.name == r.name && n.parentId == ParentLink(r) && n.description == r.description
  }

  /** The nodes are the listed rooms, the last record of an id counting. */
  ghost predicate NodesOf(nodes: map<Uuid, Node>, t: RoomTable) {
    nodes.Keys == t.Keys && forall u :: u in nodes ==> nodes[u].id == u && NodeOf(nodes[u], t[u])
  }

  /** The ancestors still to come: at most `remaining`, and an unlisted one is the last. */
  function Up(nodes: map<Uuid, Node>, current: Option<Uuid>, remaining: nat): seq<Uuid>
    decreases remaining
  {
    if remaining == 0 || current.None? then []
    else
      var next := if current.value in nodes then nodes[current.value].parentId else None;
      [current.value] + Up(nodes, next, remaining - 1)
  }

  function Ancestors(nodes: map<Uuid, Node>, u: Uuid): seq<Uuid> {
    Up(nodes, if u in nodes then nodes[u].parentId else None, |nodes|)
  }

  /** The second pass for one room. */
  function Attach(nodes: map<Uuid, Node>, u: Uuid): map<Uuid, Node>
    requires u in nodes
  {
    var parent := nodes[u].parentId;
    if parent.Some? && parent.value in nodes then
      nodes[parent.value := nodes[parent.value].(children := nodes[parent.value].children + [u])]
    else nodes
  }

  /** Each listed child of `p` among `done`, once. */
  ghost predicate ChildrenAre(nodes: map<Uuid, Node>, done: set<Uuid>, p: Uuid)
    requires p in nodes
  {
    NoRepeats(nodes[p].children) &&
    forall c :: c in nodes[p].children <==> c in done && c in nodes && nodes[c].parentId == Some(p)
  }

  /** The tree of `t` with the rooms of `done` attached to their parents. */
  ghost predicate TreeOf(nodes: map<Uuid, Node>, t: RoomTable, done: set<Uuid>) {
    NodesOf(nodes, t) && forall p :: p in nodes ==> ChildrenAre(nodes, done, p)
  }

  lemma {:induction false} NoneAttached(nodes: map<Uuid, Node>, t: RoomTable)
    requires NodesOf(nodes, t) && forall u :: u in nodes ==> nodes[u].children == []
    ensures TreeOf(nodes, t, {})
  {
  }

  lemma {:induction false} AttachOne(nodes: map<Uuid, Node>, t: RoomTable, done: set<Uuid>, u: Uuid)
    requires TreeOf(nodes, t, done) && u in nodes && u !in done
    ensures TreeOf(Attach(nodes, u), t, done + {u})
  {
    var after := Attach(nodes, u);
    AttachKeeps(nodes, t, u);
    hide NodesOf;
    forall p | p in after ensures ChildrenAre(after, done + {u}, p) {
      assert ChildrenAre(nodes, done, p);
      AttachedChildren(nodes, done, u, p);
    }
  }

  lemma {:induction false} AttachKeeps(nodes: map<Uuid, Node>, t: RoomTable, u: Uuid)
    requires NodesOf(nodes, t) && u in nodes
    ensures NodesOf(Attach(nodes, u), t) && Attach(nodes, u).Keys == nodes.Keys
  {
  }

  lemma {:induction false} AttachedChildren(nodes: map<Uuid, Node>, done: set<Uuid>, u: Uuid, p: Uuid)
    requires u in nodes && u !in done && p in nodes && ChildrenAre(nodes, done, p)
    ensures p in Attach(nodes, u) && ChildrenAre(Attach(nodes, u), done + {u}, p)
  {
    var after := Attach(nodes, u);
    assert forall c :: c in nodes ==> after[c].parentId == nodes[c].parentId;
    if nodes[u].parentId == Some(p) {
      assert after[p].children == nodes[p].children + [u] && u !in nodes[p].children;
    } else {
      assert after[p].children == nodes[p].children;
    }
  }

  lemma {:induction false} AddNode(nodes: map<Uuid, Node>, rooms: seq<Room>, i: nat)
    requires i < |rooms| && NodesOf(nodes, Table(rooms[..i]))
    ensures var r := rooms[i];
            NodesOf(nodes[r.id := Node(r.id, r.name, ParentLink(r), [], r.description)], Table(rooms[..i + 1]))
  {
    assert rooms[..i + 1][..i] == rooms[..i];
  }

  class RoomTree {
    var nodes: map<Uuid, Node>

    constructor ()
      ensures nodes == map[]
    {
      nodes := map[];
    }

    /** Any list of rooms; the children come in no particular order. */
    method Rebuild(rooms: seq<Room>)
      modifies this
      ensures TreeOf(nodes, Table(rooms), nodes.Keys)
    {
      nodes := map[];
      for i := 0 to |rooms|
        invariant NodesOf(nodes, Table(rooms[..i]))
        invariant forall u :: u in nodes ==> nodes[u].children == []
      {
        var r := rooms[i];
        AddNode(nodes, rooms, i);
        nodes := nodes[r.id := Node(r.id, r.name, ParentLink(r), [], r.description)];
      }
      assert rooms[..|rooms|] == rooms;
      NoneAttached(nodes, Table(rooms));
      AttachAll(rooms);
    }

    method AttachTo(u: Uuid)
      requires u in nodes
      modifies this
      ensures nodes == Attach(old(nodes), u) && nodes.Keys == old(nodes.Keys)
    {
      var parent := nodes[u].parentId;
      if parent.Some? && parent.value in nodes {
        var n := nodes[parent.value];
        nodes := nodes[parent.value := n.(children := n.children + [u])];
      }
    }

    method AttachAll(rooms: seq<Room>)
      requires TreeOf(nodes, Table(rooms), {})
      modifies this
      ensures TreeOf(nodes, Table(rooms), nodes.Keys)
    {
      hide TreeOf, Attach;
      var todo := nodes.Keys;
      ghost var done: set<Uuid> := {};
      while todo != {}
        invariant todo == nodes.Keys - done && done <= nodes.Keys && TreeOf(nodes, Table(rooms), done)
        decreases |todo|
      {
        var u :| u in todo;
        AttachOne(nodes, Table(rooms), done, u);
        AttachTo(u);
        todo, done := todo - {u}, done + {u};
      }
      assert done == nodes.Keys;
    }
  }

  /** Walks from parent to root; `remaining` stops it in a cycle. */
  class AncestorIterator {
    const tree: RoomTree
    var current: Option<Uuid>
    var remaining: nat

    constructor (tree: RoomTree, u: Uuid)
      ensures this.tree == tree && Up(tree.nodes, current, remaining) == Ancestors(tree.nodes, u)
      ensures remaining == |tree.nodes|
    {
      this.tree := tree;
      current := if u in tree.nodes then tree.nodes[u].parentId else None;
      remaining := |tree.nodes|;
    }

    method Next() returns (item: Option<Uuid>)
      modifies this
      ensures var before := old(Up(tree.nodes, current, remaining));
              if before == [] then item == None && Up(tree.nodes, current, remaining) == []
              else item == Some(before[0]) && Up(tree.nodes, current, remaining) == before[1..]
      ensures remaining <= old(remaining) && (item.Some? ==> remaining < old(remaining))
    {
      if remaining == 0 {
        return None;
      }
      remaining := remaining - 1;
      if current.None? {
        return None;
      }
      item := current;
      current := if current.value in tree.nodes then tree.nodes[current.value].parentId else None;
    }
  }

  /** All ancestors; ends even in a cycle, after at most as many as there are rooms. */
  method CollectAncestors(tree: RoomTree, u: Uuid) returns (path: seq<Uuid>)
    ensures path == Ancestors(tree.nodes, u) && |path| <= |tree.nodes|
  {
    var it := new AncestorIterator(tree, u);
    ghost var all := Ancestors(tree.nodes, u);
    path := [];
    while true
      invariant fresh(it) && it.tree == tree
      invariant all == path + Up(tree.nodes, it.current, it.remaining)
      invariant |path| + it.remaining <= |tree.nodes|
      decreases it.remaining
    {
      var item := it.Next();
      if item.None? {
        break;
      }
      path := path + [item.value];
    }
  }

  // ---- The two walks agree

  lemma {:induction false} TableListed(rooms: seq<Room>, u: Uuid)
    requires u in Table(rooms)
    ensures u in Ids(rooms)
  {
    var i := TableIndex(rooms, u);
  }

  lemma {:induction false} FirstIsTable(rooms: seq<Room>, u: Uuid)
    requires DistinctRooms(rooms)
    ensures ParentOf(rooms, u) == if u in Table(rooms) then Some(Table(rooms)[u].parent) else None
  {
    ListedHasId(rooms, u);
    if ParentOf(rooms, u).Some? {
      var i := FirstIndex(rooms, u);
      TableAt(rooms, i);
    }
    if u in Table(rooms) {
      TableListed(rooms, u);
    }
  }

  lemma {:induction false} FirstIndex(rooms: seq<Room>, u: Uuid) returns (i: nat)
    requires ParentOf(rooms, u).Some?
    ensures i < |rooms| && rooms[i].id == u && ParentOf(rooms, u) == Some(rooms[i].parent)
  {
    if rooms[0].id == u {
      i := 0;
    } else {
      var j := FirstIndex(rooms[1..], u);
      i := j + 1;
    }
  }

  /** The chain of a room that reaches Root. */
  ghost function Lineage(t: RoomTable, u: Uuid, n: nat): (s: seq<Uuid>)
    requires AtDepth(t, u, n)
    ensures |s| == n + 1 && s[n] == u
    decreases n
  {
    if u == ROOT then [ROOT] else Lineage(t, t[u].parent, n - 1) + [u]
  }

  lemma {:induction false} ReversedCons(u: Uuid, s: seq<Uuid>)
    ensures Reversed([u] + s) == Reversed(s) + [u]
  {
    assert ([u] + s)[1..] == s;
  }

  function Above(nodes: map<Uuid, Node>, u: Uuid): Option<Uuid> {
    if u in nodes then nodes[u].parentId else None
  }

  lemma {:induction false} UpStep(nodes: map<Uuid, Node>, u: Uuid, remaining: nat)
    requires remaining > 0
    ensures Up(nodes, Some(u), remaining) == [u] + Up(nodes, Above(nodes, u), remaining - 1)
  {
  }

  lemma {:induction false} UpIsLineage(nodes: map<Uuid, Node>, t: RoomTable, u: Uuid, n: nat, remaining: nat)
    requires NodesOf(nodes, t) && AtDepth(t, u, n) && n <= remaining
    ensures Lineage(t, u, n) == Reversed(Up(nodes, Above(nodes, u), remaining)) + [u]
    decreases n
  {
    if u == ROOT {
      assert ROOT in nodes ==> NodeOf(nodes[ROOT], t[ROOT]);
      assert Above(nodes, u) == None;
    } else {
      var p := t[u].parent;
      assert NodeOf(nodes[u], t[u]);
      assert Above(nodes, u) == Some(p);
      UpStep(nodes, p, remaining);
      hide Up, NodesOf, Reversed;
      UpIsLineage(nodes, t, p, n - 1, remaining - 1);
      ReversedCons(p, Up(nodes, Above(nodes, p), remaining - 1));
    }
  }

  /** An iterator that yields Root started at a room whose chain reaches it. */
  lemma {:induction false} UpToRootReaches(nodes: map<Uuid, Node>, t: RoomTable, u: Uuid, remaining: nat)
    requires NodesOf(nodes, t) && ROOT in Up(nodes, Some(u), remaining)
    ensures ReachesRoot(t, u)
    decreases remaining
  {
    if u == ROOT {
      assert AtDepth(t, u, 0);
    } else {
      var next := Above(nodes, u);
      assert Up(nodes, Some(u), remaining) == [u] + Up(nodes, next, remaining - 1);
      assert ROOT in Up(nodes, next, remaining - 1);
      assert NodeOf(nodes[u], t[u]);
      UpToRootReaches(nodes, t, next.value, remaining - 1);
      var n: nat :| AtDepth(t, next.value, n);
      assert AtDepth(t, u, n + 1);
    }
  }

  /** Along a chain, depths go down one by one. */
  lemma {:induction false} ChainDepth(rooms: seq<Room>, u: Uuid, n: nat, chain: seq<Uuid>, i: nat)
    requires DistinctRooms(rooms) && AtDepth(Table(rooms), u, n) && IsChain(rooms, u, chain)
    requires 1 <= i < |chain|
    ensures n > |chain| - 1 - i && AtDepth(Table(rooms), chain[i], n - (|chain| - 1 - i))
    decreases |chain| - i
  {
    if i < |chain| - 1 {
      ChainDepth(rooms, u, n, chain, i + 1);
      FirstIsTable(rooms, chain[i + 1]);
      assert ParentOf(rooms, chain[i + 1]) == Some(chain[i]);
    }
  }

  /** The climb of a room that reaches Root is never cut. */
  lemma {:induction false} NeverCut(rooms: seq<Room>, u: Uuid, n: nat, chain: seq<Uuid>)
    requires DistinctRooms(rooms) && AtDepth(Table(rooms), u, n) && IsChain(rooms, u, chain) && |chain| > 1
    ensures ParentOf(rooms, chain[1]) == Some(ROOT) && n == |chain| - 1
  {
    var t := Table(rooms);
    ChainDepth(rooms, u, n, chain, 1);
    FirstIsTable(rooms, chain[1]);
    var p := t[chain[1]].parent;
    var d := n - (|chain| - 2);
    assert AtDepth(t, p, d - 1);
    if p in chain[1..] {
      var k :| 0 <= k < |chain| - 1 && chain[1..][k] == p;
      ChainDepth(rooms, u, n, chain, k + 1);
      DepthUnique(t, p, d - 1, d + k);
    }
  }

  ghost predicate Linked(rooms: seq<Room>, chain: seq<Uuid>) {
    && chain != [] && chain[0] == ROOT && (forall i :: 0 < i < |chain| ==> chain[i] != ROOT)
    && forall i :: 0 < i < |chain| ==> ParentOf(rooms, chain[i]) == Some(chain[i - 1])
  }

  lemma {:induction false} LinkedIsLineage(rooms: seq<Room>, chain: seq<Uuid>)
    requires DistinctRooms(rooms) && Linked(rooms, chain)
    ensures AtDepth(Table(rooms), chain[|chain| - 1], |chain| - 1)
    ensures chain == Lineage(Table(rooms), chain[|chain| - 1], |chain| - 1)
    decreases |chain|
  {
    var last := |chain| - 1;
    if last > 0 {
      FirstIsTable(rooms, chain[last]);
      LinkedIsLineage(rooms, chain[..last]);
      assert chain == chain[..last] + [chain[last]];
    }
  }

  /** Every chain of a room that reaches Root is its lineage. */
  lemma {:induction false} ChainIsLineage(rooms: seq<Room>, u: Uuid, n: nat, chain: seq<Uuid>)
    requires DistinctRooms(rooms) && AtDepth(Table(rooms), u, n) && IsChain(rooms, u, chain)
    ensures chain == Lineage(Table(rooms), u, n)
  {
    if |chain| > 1 {
      NeverCut(rooms, u, n, chain);
    }
    assert Linked(rooms, chain);
    LinkedIsLineage(rooms, chain);
  }

  /**
   With distinct ids the two walks agree, the chain being the ancestors from Root down and then the room itself, exactly
   for the rooms whose parents lead to Root.
   */
  lemma {:induction false} ChainIsAncestors(rooms: seq<Room>, nodes: map<Uuid, Node>, target: Uuid, chain: seq<Uuid>)
    requires DistinctRooms(rooms) && NodesOf(nodes, Table(rooms)) && IsChain(rooms, target, chain)
    ensures chain == Reversed(Ancestors(nodes, target)) + [target] <==> ReachesRoot(Table(rooms), target)
  {
    var t := Table(rooms);
    var up := Ancestors(nodes, target);
    if ReachesRoot(t, target) {
      var n: nat :| AtDepth(t, target, n);
      DepthBound(t, target, n);
      SameSize(nodes, t);
      UpIsLineage(nodes, t, target, n, |nodes|);
      ChainIsLineage(rooms, target, n, chain);
    } else if chain == Reversed(up) + [target] {
      assert target != ROOT by {
        assert AtDepth(t, ROOT, 0);
      }
      assert Reversed(up)[0] == ROOT;
      assert up[|up| - 1] == ROOT;
      UpToRootReaches(nodes, t, Above(nodes, target).value, |nodes|);
      StepReaches(nodes, t, target);
    }
  }

  lemma {:induction false} StepReaches(nodes: map<Uuid, Node>, t: RoomTable, u: Uuid)
    requires NodesOf(nodes, t) && Above(nodes, u).Some? && ReachesRoot(t, Above(nodes, u).value)
    ensures ReachesRoot(t, u)
  {
    assert NodeOf(nodes[u], t[u]);
    var n: nat :| AtDepth(t, t[u].parent, n);
    assert AtDepth(t, u, n + 1);
  }

  lemma {:induction false} SameSize(nodes: map<Uuid, Node>, t: RoomTable)
    requires nodes.Keys == t.Keys
    ensures |nodes| == |t|
  {
    assert |nodes| == |nodes.Keys| && |t| == |t.Keys|;
  }
}
