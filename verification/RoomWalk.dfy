/**
 The breadth-first walk that both the full snapshot and the diff use to emit a parent before its children. It keeps no
 visited set: with distinct room ids every index can be enqueued by one parent only.
 */
module RoomWalk {
  import opened Rooms

  // Indices of the rooms listed under a parent, Root excluded.
  type Children = map<Uuid, seq<nat>>

  function KidsOf(children: Children, u: Uuid): seq<nat> {
    if u in children then children[u] else []
  }

  ghost predicate NoRepeats(s: seq<nat>) {
    forall i, j :: 0 <= i < j < |s| ==> s[i] != s[j]
  }

  ghost predicate ChildrenOf(children: Children, rooms: seq<Room>, n: nat)
    requires n <= |rooms|
  {
    forall u: Uuid ::
      && NoRepeats(KidsOf(children, u))
      && (forall i: nat :: i in KidsOf(children, u) <==> i < n && rooms[i].id != ROOT && rooms[i].parent == u)
  }

  method CollectChildren(rooms: seq<Room>) returns (children: Children)
    ensures ChildrenOf(children, rooms, |rooms|)
  {
    children := map[];
    for idx := 0 to |rooms|
      invariant ChildrenOf(children, rooms, idx)
    {
      var room := rooms[idx];
      if room.id != ROOT {
        var kids := KidsOf(children, room.parent);
        ghost var before := children;
        children := children[room.parent := kids + [idx]];
        assert forall u: Uuid :: u != room.parent ==> KidsOf(children, u) == KidsOf(before, u);
        assert KidsOf(children, room.parent) == kids + [idx];
      }
    }
  }

  ghost predicate HasRoot(rooms: seq<Room>) {
    exists i :: 0 <= i < |rooms| && rooms[i].id == ROOT
  }

  ghost function IdsAt(rooms: seq<Room>, at: set<nat>): set<Uuid> {
    set i | i in at && i < |rooms| :: rooms[i].id
  }

  /** Room `i` is Root, hangs under an unlisted Root, or its parent is among the rooms at `done`. */
  ghost predicate Ready(rooms: seq<Room>, done: set<nat>, i: nat)
    requires i < |rooms|
  {
    rooms[i].id == ROOT || (rooms[i].parent == ROOT && !HasRoot(rooms)) || rooms[i].parent in IdsAt(rooms, done)
  }

  ghost predicate Within(rooms: seq<Room>, at: set<nat>) {
    forall i :: i in at ==> i < |rooms|
  }

  /** The rooms seen are exactly the ready ones. */
  ghost predicate WalkInv(rooms: seq<Room>, done: set<nat>, pending: set<nat>) {
    && done !! pending && Within(rooms, done + pending)
    && (forall i: nat :: i < |rooms| ==> (i in done + pending <==> Ready(rooms, done, i)))
  }

  ghost predicate AllReachRoot(rooms: seq<Room>, at: set<nat>) {
    forall i :: i in at && i < |rooms| ==> ReachesRoot(Table(rooms), rooms[i].id)
  }

  lemma {:induction false} KidsUnseen(rooms: seq<Room>, done: set<nat>, pending: set<nat>, idx: nat, i: nat)
    requires DistinctRooms(rooms) && WalkInv(rooms, done, pending) && idx in pending && idx < |rooms|
    requires i < |rooms| && rooms[i].id != ROOT && rooms[i].parent == rooms[idx].id
    ensures i !in done + pending
  {
  }

  lemma {:induction false} WalkStep(rooms: seq<Room>, done: set<nat>, pending: set<nat>, idx: nat, kids: set<nat>)
    requires DistinctRooms(rooms) && WalkInv(rooms, done, pending) && idx in pending && idx < |rooms|
    requires forall i: nat :: i in kids <==> i < |rooms| && rooms[i].id != ROOT && rooms[i].parent == rooms[idx].id
    ensures kids !! done + pending
    ensures WalkInv(rooms, done + {idx}, pending - {idx} + kids)
  {
    forall i | i in kids ensures i !in done + pending {
      KidsUnseen(rooms, done, pending, idx, i);
    }
    var done', pending' := done + {idx}, pending - {idx} + kids;
    assert done' + pending' == done + pending + kids;
    assert IdsAt(rooms, done') == IdsAt(rooms, done) + {rooms[idx].id};
    forall i: nat | i < |rooms| ensures i in done' + pending' <==> Ready(rooms, done', i) {
      assert Ready(rooms, done', i) <==> Ready(rooms, done, i) || i in kids;
    }
  }

  lemma {:induction false} KidsReachRoot(rooms: seq<Room>, idx: nat, i: nat)
    requires DistinctRooms(rooms) && idx < |rooms| && ReachesRoot(Table(rooms), rooms[idx].id)
    requires i < |rooms| && rooms[i].id != ROOT && rooms[i].parent == rooms[idx].id
    ensures ReachesRoot(Table(rooms), rooms[i].id)
  {
    var n: nat :| AtDepth(Table(rooms), rooms[idx].id, n);
    TableAt(rooms, i);
    assert AtDepth(Table(rooms), rooms[i].id, n + 1);
  }

  /** With nothing pending, the walk has covered every room whose parent chain reaches Root. */
  lemma {:induction false} WalkComplete(rooms: seq<Room>, done: set<nat>, i: nat, n: nat)
    requires DistinctRooms(rooms) && WalkInv(rooms, done, {})
    requires i < |rooms| && AtDepth(Table(rooms), rooms[i].id, n)
    ensures i in done
    decreases n
  {
    assert done + {} == done;
    TableAt(rooms, i);
    if rooms[i].id != ROOT && rooms[i].parent != ROOT {
      var j := TableIndex(rooms, rooms[i].parent);
      WalkComplete(rooms, done, j, n - 1);
      assert rooms[j].id in IdsAt(rooms, done);
    } else if rooms[i].id != ROOT && HasRoot(rooms) {
      var j :| 0 <= j < |rooms| && rooms[j].id == ROOT;
      assert Ready(rooms, done, j);
      assert rooms[j].id in IdsAt(rooms, done);
    }
  }

  ghost function Elems(s: seq<nat>): set<nat> {
    set x | x in s
  }

  ghost predicate ParentsFirst(rooms: seq<Room>, order: seq<nat>) {
    forall k {:trigger order[k]} :: 0 <= k < |order| ==>
      order[k] < |rooms| && Ready(rooms, Elems(order[..k]), order[k])
  }

  ghost predicate RootLeads(rooms: seq<Room>, order: seq<nat>, queue: seq<nat>) {
    var line := if order == [] then queue else order;
    line != [] && line[0] < |rooms| && rooms[line[0]].id == ROOT
  }

  ghost predicate LoopInv(rooms: seq<Room>, order: seq<nat>, queue: seq<nat>) {
    && NoRepeats(order) && NoRepeats(queue) && ParentsFirst(rooms, order)
    && WalkInv(rooms, Elems(order), Elems(queue))
    && AllReachRoot(rooms, Elems(order) + Elems(queue))
    && (HasRoot(rooms) ==> RootLeads(rooms, order, queue))
  }

  lemma {:induction false} ElemsConcat(s: seq<nat>, t: seq<nat>)
    ensures Elems(s + t) == Elems(s) + Elems(t)
    ensures NoRepeats(s) && NoRepeats(t) && Elems(s) !! Elems(t) ==> NoRepeats(s + t)
  {
    forall i, j | 0 <= i < j < |s + t| && NoRepeats(s) && NoRepeats(t) && Elems(s) !! Elems(t)
      ensures (s + t)[i] != (s + t)[j]
    {
      if i < |s| <= j {
        assert s[i] in Elems(s) && t[j - |s|] in Elems(t);
      }
    }
  }

  lemma {:induction false} HeadAndTail(q: seq<nat>)
    requires q != [] && NoRepeats(q)
    ensures NoRepeats(q[1..]) && Elems(q[1..]) == Elems(q) - {q[0]}
  {
    assert q == [q[0]] + q[1..];
    ElemsConcat([q[0]], q[1..]);
  }

  lemma {:induction false} ParentsFirstStep(rooms: seq<Room>, order: seq<nat>, idx: nat)
    requires ParentsFirst(rooms, order) && idx < |rooms| && Ready(rooms, Elems(order), idx)
    ensures ParentsFirst(rooms, order + [idx])
  {
    var order' := order + [idx];
    forall k | 0 <= k < |order'| ensures order'[k] < |rooms| && Ready(rooms, Elems(order'[..k]), order'[k]) {
      assert order'[..k] == order[..k];
      assert order[..|order|] == order;
    }
  }

  lemma {:induction false} LoopStep(rooms: seq<Room>, order: seq<nat>, queue: seq<nat>, kids: seq<nat>)
    requires DistinctRooms(rooms) && LoopInv(rooms, order, queue) && queue != [] && queue[0] < |rooms|
    requires NoRepeats(kids)
    requires forall i: nat :: i in kids <==> i < |rooms| && rooms[i].id != ROOT && rooms[i].parent == rooms[queue[0]].id
    ensures queue[0] !in order
    ensures LoopInv(rooms, order + [queue[0]], queue[1..] + kids)
  {
    var idx := queue[0];
    assert idx in Elems(queue) && idx in Elems(order) + Elems(queue);
    ParentsFirstStep(rooms, order, idx);
    WalkStep(rooms, Elems(order), Elems(queue), idx, Elems(kids));
    HeadAndTail(queue);
    ElemsConcat(order, [idx]);
    ElemsConcat(queue[1..], kids);
    assert Elems([idx]) == {idx};
    forall i | i in kids ensures ReachesRoot(Table(rooms), rooms[i].id) {
      KidsReachRoot(rooms, idx, i);
    }
  }

  lemma {:induction false} StartInv(rooms: seq<Room>, queue: seq<nat>)
    requires DistinctRooms(rooms) && NoRepeats(queue)
    requires forall i: nat :: i in queue <==>
      i < |rooms| && (rooms[i].id == ROOT || (rooms[i].parent == ROOT && !HasRoot(rooms)))
    ensures LoopInv(rooms, [], queue)
  {
    assert Elems([]) + Elems(queue) == Elems(queue);
    forall i | i in queue ensures ReachesRoot(Table(rooms), rooms[i].id) {
      TableAt(rooms, i);
      assert AtDepth(Table(rooms), ROOT, 0);
      if rooms[i].id != ROOT {
        assert AtDepth(Table(rooms), rooms[i].id, 1);
      }
    }
    if HasRoot(rooms) {
      var r: nat :| r < |rooms| && rooms[r].id == ROOT;
      assert r in queue;
      assert queue[0] in queue;
    }
  }

  lemma {:induction false} WalkResult(rooms: seq<Room>, order: seq<nat>, i: nat)
    requires DistinctRooms(rooms) && LoopInv(rooms, order, [])
    ensures i in order <==> i < |rooms| && ReachesRoot(Table(rooms), rooms[i].id)
  {
    assert Elems([]) == {} && Elems(order) + {} == Elems(order);
    if i < |rooms| && ReachesRoot(Table(rooms), rooms[i].id) {
      var n: nat :| AtDepth(Table(rooms), rooms[i].id, n);
      WalkComplete(rooms, Elems(order), i, n);
    }
    if i in order {
      assert i in Elems(order);
    }
  }

  method FindRoot(rooms: seq<Room>) returns (at: nat)
    ensures at <= |rooms| && (at < |rooms| <==> HasRoot(rooms))
    ensures at < |rooms| ==> rooms[at].id == ROOT
  {
    at := 0;
    while at < |rooms| && rooms[at].id != ROOT
      invariant at <= |rooms|
      invariant forall i :: 0 <= i < at ==> rooms[i].id != ROOT
    {
      at := at + 1;
    }
  }

  lemma {:induction false} FreshIndexShrinks(order: seq<nat>, idx: nat, n: nat)
    requires idx !in order && idx < n
    ensures Below(n) - Elems(order + [idx]) < Below(n) - Elems(order)
  {
    ElemsConcat(order, [idx]);
    assert Elems([idx]) == {idx};
    assert idx in Below(n) - Elems(order);
  }

  function Below(n: nat): (s: set<nat>)
    ensures forall i: nat :: i in s <==> i < n
  {
    if n == 0 then {} else Below(n - 1) + {n - 1}
  }

  /**
   The indices of `rooms` in breadth-first order from Root: exactly the rooms whose parent chain reaches Root, each
   once, parents first, for every list with distinct ids, parent cycles included.
   */
  method WalkFromRoot(rooms: seq<Room>) returns (order: seq<nat>)
    requires DistinctRooms(rooms)
    ensures NoRepeats(order) && ParentsFirst(rooms, order)
    ensures forall i: nat :: i in order <==> i < |rooms| && ReachesRoot(Table(rooms), rooms[i].id)
    ensures HasRoot(rooms) ==> order != [] && rooms[order[0]].id == ROOT
  {
    var children := CollectChildren(rooms);
    var root := FindRoot(rooms);
    order := [];
    var queue: seq<nat> := if root < |rooms| then [root] else KidsOf(children, ROOT);
    StartInv(rooms, queue);
    while queue != []
      invariant LoopInv(rooms, order, queue)
      decreases Below(|rooms|) - Elems(order)
    {
      var idx := queue[0];
      QueueInRange(rooms, order, queue);
      var kids := KidsOf(children, rooms[idx].id);
      LoopStep(rooms, order, queue, kids);
      FreshIndexShrinks(order, idx, |rooms|);
      order, queue := order + [idx], queue[1..] + kids;
    }
    forall i: nat ensures i in order <==> i < |rooms| && ReachesRoot(Table(rooms), rooms[i].id) {
      WalkResult(rooms, order, i);
    }
  }

  lemma {:induction false} QueueInRange(rooms: seq<Room>, order: seq<nat>, queue: seq<nat>)
    requires LoopInv(rooms, order, queue) && queue != []
    ensures queue[0] < |rooms|
  {
    assert queue[0] in Elems(order) + Elems(queue);
  }
}
