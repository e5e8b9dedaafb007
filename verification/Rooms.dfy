/** Rumble rooms, the table a list of them denotes, and what it means for a room's parent chain to reach Root. */
module Rooms {
  import opened Options
  import opened Sets

  type Uuid = nat

  // The nil UUID. The Root room parents itself.
  const ROOT: Uuid := 0

  datatype Room = Room(id: Uuid, name: string, parent: Uuid, description: Option<string>)

  type RoomTable = map<Uuid, Room>

  ghost predicate DistinctRooms(rooms: seq<Room>) {
    forall i, j :: 0 <= i < j < |rooms| ==> rooms[i].id != rooms[j].id
  }

  /** The hash map a room list is collected into: the last record with an id wins. */
  function Table(rooms: seq<Room>): RoomTable {
    if rooms == [] then map[]
    else
      var n := |rooms| - 1;
      Table(rooms[..n])[rooms[n].id := rooms[n]]
  }

  lemma {:induction false} TableIndex(rooms: seq<Room>, u: Uuid) returns (i: nat)
    requires u in Table(rooms)
    ensures i < |rooms| && rooms[i] == Table(rooms)[u] && rooms[i].id == u
    decreases |rooms|
  {
    var n := |rooms| - 1;
    i := n;
    if rooms[n].id != u {
      i := TableIndex(rooms[..n], u);
    }
  }

  lemma {:induction false} TableHas(rooms: seq<Room>, i: nat)
    requires i < |rooms|
    ensures rooms[i].id in Table(rooms)
    decreases |rooms|
  {
    var n := |rooms| - 1;
    if i < n {
      TableHas(rooms[..n], i);
    }
  }

  /** With distinct ids every room of the list is found under its own id. */
  lemma {:induction false} TableAt(rooms: seq<Room>, i: nat)
    requires DistinctRooms(rooms) && i < |rooms|
    ensures rooms[i].id in Table(rooms) && Table(rooms)[rooms[i].id] == rooms[i]
  {
    TableHas(rooms, i);
    var j := TableIndex(rooms, rooms[i].id);
  }

  /** `u` is exactly `n` parent links below Root, every room on the way being listed. */
  ghost predicate AtDepth(t: RoomTable, u: Uuid, n: nat)
    decreases n
  {
    if u == ROOT then n == 0
    else n > 0 && u in t && AtDepth(t, t[u].parent, n - 1)
  }

  ghost predicate ReachesRoot(t: RoomTable, u: Uuid) {
    exists n: nat :: AtDepth(t, u, n)
  }

  ghost predicate Rooted(t: RoomTable) {
    forall u :: u in t ==> ReachesRoot(t, u)
  }

  lemma {:induction false} DepthUnique(t: RoomTable, u: Uuid, m: nat, n: nat)
    requires AtDepth(t, u, m) && AtDepth(t, u, n)
    ensures m == n
    decreases n
  {
    if u != ROOT {
      DepthUnique(t, t[u].parent, m - 1, n - 1);
    }
  }

  ghost function Chain(t: RoomTable, u: Uuid, n: nat): set<Uuid>
    requires AtDepth(t, u, n)
    decreases n
  {
    if u == ROOT then {} else {u} + Chain(t, t[u].parent, n - 1)
  }

  ghost predicate WithinDepth(t: RoomTable, u: Uuid, n: nat) {
    exists m: nat :: m <= n && AtDepth(t, u, m)
  }

  lemma {:induction false} ChainDepths(t: RoomTable, u: Uuid, n: nat)
    requires AtDepth(t, u, n)
    ensures Chain(t, u, n) <= t.Keys && |Chain(t, u, n)| == n
    ensures forall w :: w in Chain(t, u, n) ==> WithinDepth(t, w, n)
    decreases n
  {
    if u != ROOT {
      var p := t[u].parent;
      ChainDepths(t, p, n - 1);
      if WithinDepth(t, u, n - 1) {
        var m: nat :| m <= n - 1 && AtDepth(t, u, m);
        DepthUnique(t, u, m, n);
      }
      assert WithinDepth(t, u, n);
      forall w | WithinDepth(t, w, n - 1) ensures WithinDepth(t, w, n) {
        var m: nat :| m <= n - 1 && AtDepth(t, w, m);
      }
    }
  }

  /** No parent chain is longer than the table, so the cap in the depth walk never cuts a chain that reaches Root. */
  lemma {:induction false} DepthBound(t: RoomTable, u: Uuid, n: nat)
    requires AtDepth(t, u, n)
    ensures n <= |t|
  {
    ChainDepths(t, u, n);
    SubsetSize(Chain(t, u, n), t.Keys);
  }

  /** The chain only looks at rooms on it. */
  lemma {:induction false} DepthFrame(t: RoomTable, t': RoomTable, u: Uuid, n: nat, keep: set<Uuid>)
    requires AtDepth(t, u, n) && u in keep + {ROOT}
    requires forall w :: w in keep && w in t && w != ROOT ==>
      w in t' && t'[w].parent == t[w].parent && t[w].parent in keep + {ROOT}
    ensures AtDepth(t', u, n)
    decreases n
  {
    if u != ROOT {
      DepthFrame(t, t', t[u].parent, n - 1, keep);
    }
  }

  /** How far a walk of at most `steps` parent links gets: up to Root, to a room that is not listed, or to the cap. */
  function Climb(t: RoomTable, u: Uuid, steps: nat): (depth: nat)
    ensures depth <= steps
    decreases steps
  {
    if u == ROOT || steps == 0 || u !in t then 0 else 1 + Climb(t, t[u].parent, steps - 1)
  }

  lemma {:induction false} ClimbIsDepth(t: RoomTable, u: Uuid, n: nat, steps: nat)
    requires AtDepth(t, u, n) && n <= steps
    ensures Climb(t, u, steps) == n
    decreases n
  {
    if u != ROOT {
      ClimbIsDepth(t, t[u].parent, n - 1, steps - 1);
    }
  }

  /** The depth by which vanished rooms are ordered: the true one for every room that reaches Root. */
  function CappedDepth(t: RoomTable, u: Uuid): nat {
    Climb(t, u, |t| + 1)
  }

  lemma {:induction false} CappedIsDepth(t: RoomTable, u: Uuid, n: nat)
    requires AtDepth(t, u, n)
    ensures CappedDepth(t, u) == n
  {
    DepthBound(t, u, n);
    ClimbIsDepth(t, u, n, |t| + 1);
  }

  /** Depth of `u` in the room tree `t` (Root is 0). Unknown ancestry stops the walk; a cycle is capped. */
  method OldDepth(u: Uuid, t: RoomTable) returns (depth: nat)
    ensures depth == CappedDepth(t, u)
    ensures forall n: nat :: AtDepth(t, u, n) ==> depth == n
  {
    depth := 0;
    var cur := u;
    while cur != ROOT && depth <= |t|
      invariant depth <= |t| + 1 && depth + Climb(t, cur, |t| + 1 - depth) == CappedDepth(t, u)
      decreases |t| + 1 - depth
    {
      if cur !in t {
        break;
      }
      cur := t[cur].parent;
      depth := depth + 1;
    }
    forall n: nat | AtDepth(t, u, n) ensures depth == n {
      CappedIsDepth(t, u, n);
    }
  }
}
