/** The channels of a room and everything below it, for any room list, parent cycles and repeated ids included. */
module Subtree {
  import opened Rooms
  import opened RoomWalk
  import opened IdMaps

  /** The rooms listed directly under `u`; Root is nobody's child. */
  ghost function Kids(rooms: seq<Room>, u: Uuid): set<Uuid> {
    set i | 0 <= i < |rooms| && rooms[i].id != ROOT && rooms[i].parent == u :: rooms[i].id
  }

  /** `u` is reached from `root` by going down `n` links. */
  ghost predicate Below(rooms: seq<Room>, root: Uuid, u: Uuid, n: nat)
    decreases n
  {
    if n == 0 then u == root else exists p :: Below(rooms, root, p, n - 1) && u in Kids(rooms, p)
  }

  ghost predicate InSubtree(rooms: seq<Room>, root: Uuid, u: Uuid) {
    exists n: nat :: Below(rooms, root, u, n)
  }

  lemma {:induction false} KidInSubtree(rooms: seq<Room>, root: Uuid, p: Uuid, u: Uuid)
    requires InSubtree(rooms, root, p) && u in Kids(rooms, p)
    ensures InSubtree(rooms, root, u)
  {
    var n: nat :| Below(rooms, root, p, n);
    assert Below(rooms, root, u, n + 1);
  }

  /** A set that holds `root` and is closed under children holds the whole subtree. */
  lemma {:induction false} ClosedHoldsSubtree(rooms: seq<Room>, root: Uuid, s: set<Uuid>, u: Uuid, n: nat)
    requires root in s && (forall p :: p in s ==> Kids(rooms, p) <= s)
    requires Below(rooms, root, u, n)
    ensures u in s
    decreases n
  {
    if n > 0 {
      var p :| Below(rooms, root, p, n - 1) && u in Kids(rooms, p);
      ClosedHoldsSubtree(rooms, root, s, p, n - 1);
    }
  }

  function ListedUnder(children: map<Uuid, seq<Uuid>>, u: Uuid): seq<Uuid> {
    if u in children then children[u] else []
  }

  method ChildUuids(rooms: seq<Room>) returns (children: map<Uuid, seq<Uuid>>)
    ensures forall u :: Elems(ListedUnder(children, u)) == Kids(rooms, u)
  {
    children := map[];
    for i := 0 to |rooms|
      invariant forall u :: Elems(ListedUnder(children, u)) == Kids(rooms[..i], u)
    {
      var room := rooms[i];
      ghost var before := children;
      if room.id != ROOT {
        children := children[room.parent := ListedUnder(children, room.parent) + [room.id]];
      }
      forall u ensures Elems(ListedUnder(children, u)) == Kids(rooms[..i + 1], u) {
        OneMoreRoom(rooms, i, u);
        if room.id != ROOT && u == room.parent {
          ElemsConcat(ListedUnder(before, u), [room.id]);
          assert Elems([room.id]) == {room.id};
        } else {
          assert ListedUnder(children, u) == ListedUnder(before, u);
        }
      }
    }
    assert rooms[..|rooms|] == rooms;
  }

  lemma {:induction false} OneMoreRoom(rooms: seq<Room>, i: nat, u: Uuid)
    requires i < |rooms|
    ensures Kids(rooms[..i + 1], u)
      == Kids(rooms[..i], u) + (if rooms[i].id != ROOT && rooms[i].parent == u then {rooms[i].id} else {})
  {
    var a, b := rooms[..i + 1], rooms[..i];
    assert forall j :: 0 <= j < i ==> a[j] == b[j];
    forall x | x in Kids(b, u) ensures x in Kids(a, u) {
      var j :| 0 <= j < |b| && b[j].id != ROOT && b[j].parent == u && b[j].id == x;
      assert a[j] == b[j];
    }
    assert a[i] == rooms[i];
  }

  /** The channels of the rooms in `us` that have one. */
  ghost function ChannelsFor(us: set<Uuid>, ids: Ids): set<nat> {
    set u | u in us && u in ids.fwd :: ids.fwd[u]
  }

  /** Visited rooms lie in the subtree; those off the queue have had all their children visited. */
  ghost predicate Exploring(rooms: seq<Room>, root: Uuid, visited: set<Uuid>, queue: seq<Uuid>) {
    && root in visited && Elems(queue) <= visited
    && (forall u :: u in visited ==> InSubtree(rooms, root, u))
    && (forall u :: u in visited - Elems(queue) ==> Kids(rooms, u) <= visited)
  }

  ghost function Universe(rooms: seq<Room>, root: Uuid): set<Uuid> {
    {root} + set i | 0 <= i < |rooms| :: rooms[i].id
  }

  method CollectSubtreeChannels(rooms: seq<Room>, channels: ChannelMap, rootChannel: nat) returns (result: set<nat>)
    requires channels.Valid()
    ensures rootChannel in channels.bwd || rootChannel == 0 ==>
      var root := if rootChannel in channels.bwd then channels.bwd[rootChannel] else ROOT;
      forall c :: c in result <==>
        c == rootChannel || exists u :: InSubtree(rooms, root, u) && u in channels.fwd && channels.fwd[u] == c
    ensures rootChannel !in channels.bwd && rootChannel != 0 ==> result == {rootChannel}
  {
    result := {rootChannel};
    if rootChannel !in channels.bwd && rootChannel != 0 {
      return;
    }
    var root: Uuid := if rootChannel in channels.bwd then channels.bwd[rootChannel] else ROOT;
    ghost var ids := channels.Abs();
    var visited: set<Uuid>;
    var children := ChildUuids(rooms);
    result, visited := Explore(rooms, children, channels, root, rootChannel);
    forall u | InSubtree(rooms, root, u) ensures u in visited {
      var n: nat :| Below(rooms, root, u, n);
      ClosedHoldsSubtree(rooms, root, visited, u, n);
    }
    assert ChannelsFor({root}, ids) <= {rootChannel};
  }

  method Explore(rooms: seq<Room>, children: map<Uuid, seq<Uuid>>, channels: ChannelMap, root: Uuid, rootChannel: nat)
    returns (result: set<nat>, visited: set<Uuid>)
    requires forall u :: Elems(ListedUnder(children, u)) == Kids(rooms, u)
    ensures result == {rootChannel} + ChannelsFor(visited - {root}, channels.Abs())
    ensures Exploring(rooms, root, visited, [])
  {
    ghost var ids := channels.Abs();
    result, visited := {rootChannel}, {root};
    var queue := [root];
    assert Below(rooms, root, root, 0);
    assert visited - {root} == {};
    hide InSubtree, Below;
    while queue != []
      invariant Exploring(rooms, root, visited, queue) && visited <= Universe(rooms, root)
      invariant result == {rootChannel} + ChannelsFor(visited - {root}, ids)
      decreases Universe(rooms, root) - visited, |queue|
    {
      ghost var was, before := queue, visited;
      assert queue[0] in Elems(queue);
      var kids := ListedUnder(children, queue[0]);
      KidsListed(rooms, root, queue[0]);
      visited, queue, result := VisitKids(rooms, kids, channels, root, visited, queue[1..], result, was[0],
                                             {rootChannel});
      StillExploring(rooms, root, before, was, visited, queue);
    }
  }

  lemma {:induction false} KidsListed(rooms: seq<Room>, root: Uuid, u: Uuid)
    ensures Kids(rooms, u) <= Universe(rooms, root)
  {
  }

  lemma {:induction false} OneMoreChannel(visited: set<Uuid>, root: Uuid, kid: Uuid, ids: Ids)
    requires kid !in visited && root in visited
    ensures ChannelsFor(visited + {kid} - {root}, ids)
      == ChannelsFor(visited - {root}, ids) + (if kid in ids.fwd then {ids.fwd[kid]} else {})
  {
  }

  /** Visits the children of `parent`, queueing those not seen before. */
  method VisitKids(rooms: seq<Room>, kids: seq<Uuid>, channels: ChannelMap, root: Uuid, visited: set<Uuid>,
                   queue: seq<Uuid>, result: set<nat>, ghost parent: Uuid, ghost base: set<nat>)
    returns (visited': set<Uuid>, queue': seq<Uuid>, result': set<nat>)
    requires result == base + ChannelsFor(visited - {root}, channels.Abs())
    requires Elems(kids) == Kids(rooms, parent) && InSubtree(rooms, root, parent) && root in visited
    requires forall u :: u in visited ==> InSubtree(rooms, root, u)
    ensures visited' == visited + Elems(kids) && Elems(queue') == Elems(queue) + (visited' - visited)
    ensures visited' == visited ==> queue' == queue
    ensures forall u :: u in visited' ==> InSubtree(rooms, root, u)
    ensures result' == base + ChannelsFor(visited' - {root}, channels.Abs())
  {
    hide InSubtree, ChannelsFor, Kids;
    ghost var ids := channels.Abs();
    visited', queue', result' := visited, queue, result;
    for k := 0 to |kids|
      invariant visited' == visited + Elems(kids[..k])
      invariant visited' == visited ==> queue' == queue
      invariant Elems(queue') == Elems(queue) + (visited' - visited)
      invariant forall u :: u in visited' ==> InSubtree(rooms, root, u)
      invariant result' == base + ChannelsFor(visited' - {root}, ids)
    {
      var kid := kids[k];
      assert kid in Elems(kids);
      assert kids[..k + 1] == kids[..k] + [kid];
      ElemsConcat(kids[..k], [kid]);
      assert Elems([kid]) == {kid};
      if kid !in visited' {
        KidInSubtree(rooms, root, parent, kid);
        ElemsConcat(queue', [kid]);
        OneMoreChannel(visited', root, kid, ids);
        visited', queue' := visited' + {kid}, queue' + [kid];
        if kid in channels.fwd {
          result' := result' + {channels.fwd[kid]};
        }
      }
    }
    assert kids[..|kids|] == kids;
  }

  lemma {:induction false} StillExploring(rooms: seq<Room>, root: Uuid, before: set<Uuid>, was: seq<Uuid>,
                                          visited: set<Uuid>, queue: seq<Uuid>)
    requires Exploring(rooms, root, before, was) && was != [] && before <= visited
    requires Kids(rooms, was[0]) <= visited && Elems(queue) == Elems(was[1..]) + (visited - before)
    requires forall u :: u in visited ==> InSubtree(rooms, root, u)
    ensures Exploring(rooms, root, visited, queue)
  {
    assert was == [was[0]] + was[1..];
    ElemsConcat([was[0]], was[1..]);
    assert Elems([was[0]]) == {was[0]};
  }
}
