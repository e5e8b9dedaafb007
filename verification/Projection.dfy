/**
 The Rumble state projected onto Mumble clients: rooms, roster and the two id maps, and the view they denote. One lemma
 for each kind of step the bridge takes says which message carries a client from the old view to the new one.
 */
module Projection {
  import opened Options
  import opened Rooms
  import opened IdMaps
  import opened ClientView

  datatype User = User(id: nat, name: string, room: Uuid, muted: bool, deafened: bool)

  type Roster = map<nat, User>

  ghost predicate DistinctUsers(users: seq<User>) {
    forall i, j :: 0 <= i < j < |users| ==> users[i].id != users[j].id
  }

  function RosterOf(users: seq<User>): Roster {
    if users == [] then map[]
    else
      var n := |users| - 1;
      RosterOf(users[..n])[users[n].id := users[n]]
  }

  lemma {:induction false} RosterIndex(users: seq<User>, id: nat) returns (i: nat)
    requires id in RosterOf(users)
    ensures i < |users| && users[i] == RosterOf(users)[id] && users[i].id == id
    decreases |users|
  {
    var n := |users| - 1;
    i := n;
    if users[n].id != id {
      i := RosterIndex(users[..n], id);
    }
  }

  lemma {:induction false} RosterHas(users: seq<User>, i: nat)
    requires i < |users|
    ensures users[i].id in RosterOf(users)
    decreases |users|
  {
    var n := |users| - 1;
    if i < n {
      RosterHas(users[..n], i);
    }
  }

  lemma {:induction false} RosterAt(users: seq<User>, i: nat)
    requires DistinctUsers(users) && i < |users|
    ensures users[i].id in RosterOf(users) && RosterOf(users)[users[i].id] == users[i]
  {
    RosterHas(users, i);
    var j := RosterIndex(users, users[i].id);
  }

  datatype Proj = Proj(rooms: RoomTable, users: Roster, channels: Ids, sessions: Ids)

  // A room list without Root gets a made-up one.
  function RootRecord(t: RoomTable): Channel {
    if ROOT in t then Channel(None, t[ROOT].name, t[ROOT].description) else Channel(None, "Root", None)
  }

  function ChannelId(ids: Ids, u: Uuid): nat {
    if u in ids.fwd then ids.fwd[u] else 0
  }

  function RoomRecord(r: Room, ids: Ids): Channel {
    Channel(if r.id == ROOT then None else Some(ChannelId(ids, r.parent)), r.name, r.description)
  }

  function UserRecord(u: User, ids: Ids): Occupant {
    Occupant(u.name, if u.room in ids.fwd then Some(ids.fwd[u.room]) else None, u.muted, u.deafened)
  }

  /** What a client shown the rooms `t` under `ids` must hold, stated without any walk. */
  ghost function ChannelsOf(t: RoomTable, ids: Ids): map<nat, Channel> {
    map c | c in ids.bwd.Keys + {0} && (c == 0 || ids.bwd[c] in t) ::
      if c == 0 then RootRecord(t) else RoomRecord(t[ids.bwd[c]], ids)
  }

  ghost function UsersOf(roster: Roster, ids: Ids, sessions: Ids): map<nat, Occupant> {
    map s | s in sessions.bwd && sessions.bwd[s] in roster :: UserRecord(roster[sessions.bwd[s]], ids)
  }

  ghost function ViewOf(p: Proj): View {
    View(ChannelsOf(p.rooms, p.channels), UsersOf(p.users, p.channels, p.sessions))
  }

  /** Every room but Root has a channel and hangs under a listed room or under Root. */
  ghost predicate Placed(t: RoomTable, ids: Ids) {
    && ChannelIds(ids) && t.Keys <= ids.fwd.Keys + {ROOT}
    && (forall u :: u in t && u != ROOT ==> t[u].id == u && (t[u].parent == ROOT || t[u].parent in t))
  }

  /** And Root has one too if it is listed. */
  ghost predicate Located(t: RoomTable, ids: Ids) {
    Placed(t, ids) && (ROOT in t ==> ROOT in ids.fwd && t[ROOT].id == ROOT)
  }

  ghost predicate RoomsOk(t: RoomTable, ids: Ids) {
    Located(t, ids) && Rooted(t)
  }

  /** Whoever has a proxy session stands in a listed room (or in Root) that has a channel. */
  ghost predicate UsersOk(p: Proj) {
    && SessionIds(p.sessions)
    && (forall i :: i in p.users ==> p.users[i].id == i)
    && (forall i :: i in p.users && i in p.sessions.fwd ==>
          p.users[i].room in p.channels.fwd && (p.users[i].room == ROOT || p.users[i].room in p.rooms))
  }

  ghost predicate Ok(p: Proj) {
    RoomsOk(p.rooms, p.channels) && UsersOk(p)
  }

  // ---- What clients hold

  // A client may still hold a description the server has cleared, and a Root that is not listed any more.

  /** Room `u` as a client that holds `h` shows it once it has been told of `r`. */
  function Remember(h: RoomTable, u: Uuid, r: Room): Room {
    if r.description.None? && u in h then r.(description := h[u].description) else r
  }

  /** The rooms a client that holds `h` shows once the bridge has gone over to `t`. */
  function Hold(h: RoomTable, t: RoomTable): RoomTable {
    map u | u in t.Keys + h.Keys * {ROOT} :: if u in t then Remember(h, u, t[u]) else h[u]
  }

  /** `h` is something a client may hold while the bridge is at `t`. */
  ghost predicate Holds(h: RoomTable, t: RoomTable) {
    Hold(h, t) == h
  }

  /** The view of a client that held `h` when the bridge was elsewhere, now that it is at `p`. */
  ghost function HeldView(h: RoomTable, p: Proj): View {
    ViewOf(p.(rooms := Hold(h, p.rooms)))
  }

  lemma {:induction false} HoldTwice(h: RoomTable, t: RoomTable)
    ensures Holds(Hold(h, t), t) && Holds(t, t) && Hold(map[], t) == t
  {
  }

  /** Going over to `b` by way of `a`, which has everything `b` has. */
  lemma {:induction false} HoldThrough(h: RoomTable, a: RoomTable, b: RoomTable)
    requires forall u :: u in b ==> u in a && a[u] == b[u]
    requires ROOT in a && ROOT !in b ==> ROOT in h && Remember(h, ROOT, a[ROOT]) == h[ROOT]
    ensures Hold(Hold(h, a), b) == Hold(h, b)
  {
  }

  /** Two tables with the same rooms in the same places, Root aside. */
  ghost predicate SamePlaces(t: RoomTable, t': RoomTable) {
    && (forall u :: u != ROOT ==> (u in t <==> u in t'))
    && (forall u :: u != ROOT && u in t && u in t' ==> t'[u].id == t[u].id && t'[u].parent == t[u].parent)
  }

  lemma {:induction false} PlacesShape(t: RoomTable, t': RoomTable, ids: Ids, us: map<nat, Occupant>)
    requires ChannelIds(ids) && SamePlaces(t, t')
    ensures SameShape(View(ChannelsOf(t, ids), us), View(ChannelsOf(t', ids), us))
  {
    var a, b := ChannelsOf(t, ids), ChannelsOf(t', ids);
    assert forall c :: c in ids.bwd && c != 0 ==> ids.bwd[c] != ROOT;
    hide ChannelIds;
    forall c: nat ensures (c in a <==> c in b) && (c in a ==> a[c].parent == b[c].parent) {
      if c != 0 && c in ids.bwd {
        var u := ids.bwd[c];
        assert u in t <==> u in t';
      }
    }
  }

  /** What a client holds differs from the snapshot in names and descriptions only. */
  lemma {:induction false} HeldShape(h: RoomTable, p: Proj)
    requires ChannelIds(p.channels)
    ensures SameShape(HeldView(h, p), ViewOf(p)) && SameShape(ViewOf(p), HeldView(h, p))
  {
    hide ChannelsOf, UsersOf, ChannelIds, SameShape;
    var t := Hold(h, p.rooms);
    assert SamePlaces(t, p.rooms) && SamePlaces(p.rooms, t);
    PlacesShape(t, p.rooms, p.channels, UsersOf(p.users, p.channels, p.sessions));
    PlacesShape(p.rooms, t, p.channels, UsersOf(p.users, p.channels, p.sessions));
  }

  lemma {:induction false} RoomChannelDepth(t: RoomTable, ids: Ids, u: Uuid, n: nat)
    requires Located(t, ids) && AtDepth(t, u, n)
    ensures ChannelAtDepth(ChannelsOf(t, ids), ChannelId(ids, u), n)
    decreases n
  {
    if u != ROOT {
      RoomChannelDepth(t, ids, t[u].parent, n - 1);
    }
  }

  /** The view of a well-formed projection is a tree with every user in a known channel. */
  lemma {:induction false} OkIsLegal(p: Proj)
    requires Ok(p)
    ensures Legal(ViewOf(p))
  {
    var chs := ChannelsOf(p.rooms, p.channels);
    forall c | c in chs ensures exists n: nat :: ChannelAtDepth(chs, c, n) {
      if c == 0 {
        assert ChannelAtDepth(chs, 0, 0);
      } else {
        var n: nat :| AtDepth(p.rooms, p.channels.bwd[c], n);
        RoomChannelDepth(p.rooms, p.channels, p.channels.bwd[c], n);
      }
    }
  }

  // ---- Dropping a proxy session

  lemma {:induction false} DropUserOk(p: Proj, i: nat)
    requires Ok(p) && i in p.sessions.fwd
    ensures Ok(p.(sessions := Removed(p.sessions, i)))
  {
    RemovedKeeps(p.sessions, i);
  }

  /** A UserRemove moves what any client shows as dropping the session does. */
  lemma {:induction false} DropUser(h: RoomTable, p: Proj, i: nat)
    requires Ok(p) && i in p.sessions.fwd
    ensures var p' := p.(sessions := Removed(p.sessions, i));
      Apply(HeldView(h, p), UserRemove(p.sessions.fwd[i])) == HeldView(h, p')
  {
    hide ChannelsOf, Hold, Rooted;
  }

  // ---- Adding or changing a room

  /** Overriding one rooted table by another leaves it rooted: no cycle can appear part of the way through. */
  lemma {:induction false} OverrideRooted(old_: RoomTable, new_: RoomTable)
    requires Rooted(old_) && Rooted(new_)
    ensures Rooted(old_ + new_)
  {
    forall u | u in old_ + new_ ensures ReachesRoot(old_ + new_, u) {
      var n: nat :| AtDepth(if u in new_ then new_ else old_, u, n);
      OverrideReaches(old_, new_, u, n);
    }
  }

  lemma {:induction false} OverrideReaches(old_: RoomTable, new_: RoomTable, u: Uuid, n: nat)
    requires Rooted(new_)
    requires AtDepth(if u in new_ then new_ else old_, u, n)
    ensures ReachesRoot(old_ + new_, u)
    decreases n
  {
    var t := old_ + new_;
    if u == ROOT {
      assert AtDepth(t, ROOT, 0);
    } else if u in new_ {
      ParentsListed(new_);
      DepthFrame(new_, t, u, n, new_.Keys);
    } else {
      var p := old_[u].parent;
      var k: nat := n - 1;
      if p in new_ {
        k :| AtDepth(new_, p, k);
        ParentsListed(new_);
        DepthFrame(new_, t, p, k, new_.Keys);
      } else {
        OverrideReaches(old_, new_, p, n - 1);
        k :| AtDepth(t, p, k);
      }
      assert AtDepth(t, u, k + 1);
    }
  }

  lemma {:induction false} ParentsListed(t: RoomTable)
    requires Rooted(t)
    ensures forall u :: u in t && u != ROOT ==> t[u].parent in t.Keys + {ROOT}
  {
    forall u | u in t && u != ROOT ensures t[u].parent in t.Keys + {ROOT} {
      var n: nat :| AtDepth(t, u, n);
      assert AtDepth(t, t[u].parent, n - 1);
    }
  }

  lemma {:induction false} AddedRooted(t: RoomTable, r: Room)
    requires Rooted(t) && r.id !in t && (r.id == ROOT || r.parent in t.Keys + {ROOT})
    ensures Rooted(t[r.id := r])
  {
    var t' := t[r.id := r];
    ParentsListed(t);
    forall u | u in t' ensures ReachesRoot(t', u) {
      if u == ROOT {
        assert AtDepth(t', ROOT, 0);
      } else {
        var v := if u == r.id then r.parent else u;
        var n: nat :| AtDepth(t, v, n) by { assert AtDepth(t, ROOT, 0); }
        DepthFrame(t, t', v, n, t.Keys);
        assert AtDepth(t', u, if u == r.id then n + 1 else n);
      }
    }
  }

  ghost predicate CanPut(t: RoomTable, ids: Ids, r: Room, ids': Ids) {
    && Placed(t, ids) && ChannelIds(ids') && Grows(ids, ids')
    && ids'.fwd.Keys <= ids.fwd.Keys + {r.id, ROOT}
    && r.id in ids'.fwd && (r.id == ROOT || r.parent == ROOT || r.parent in t)
  }

  lemma {:induction false} SameMap<V>(a: map<nat, V>, b: map<nat, V>)
    requires forall k :: k in a <==> k in b
    requires forall k :: k in a && k in b ==> a[k] == b[k]
    ensures a == b
  {
  }

  lemma {:induction false} PutRoomLocated(t: RoomTable, ids: Ids, r: Room, ids': Ids)
    requires Located(t, ids) && CanPut(t, ids, r, ids')
    ensures Located(t[r.id := r], ids')
  {
  }

  lemma {:induction false} PutRoomChannels(t: RoomTable, ids: Ids, r: Room, ids': Ids)
    requires CanPut(t, ids, r, ids')
    ensures ChannelsOf(t[r.id := r], ids') == ChannelsOf(t, ids)[ids'.fwd[r.id] := RoomRecord(r, ids')]
  {
    var rec := RoomRecord(r, ids');
    var a, b := ChannelsOf(t[r.id := r], ids'), ChannelsOf(t, ids);
    var id := ids'.fwd[r.id];
    forall c: nat
      ensures (c in a <==> c in b[id := rec]) && (c in a && c in b[id := rec] ==> a[c] == b[id := rec][c])
    {
      KeptChannel(t, ids, r, ids', c);
    }
    SameMap(a, b[id := rec]);
  }

  /** A channel other than that of `r` shows the same record, or none, before and after. */
  lemma {:induction false} KeptChannel(t: RoomTable, ids: Ids, r: Room, ids': Ids, c: nat)
    requires CanPut(t, ids, r, ids')
    ensures var a, b := ChannelsOf(t[r.id := r], ids'), ChannelsOf(t, ids);
      if c == ids'.fwd[r.id] then c in a && a[c] == RoomRecord(r, ids')
      else (c in a <==> c in b) && (c in a ==> a[c] == b[c])
  {
    if c in ids.bwd {
      assert ids'.fwd[ids.bwd[c]] == c;
    }
    if c != 0 && c in ids'.bwd && ids'.bwd[c] in t {
      assert ids.fwd[ids'.bwd[c]] == c;
    }
  }

  lemma {:induction false} GrowsKeepsUsers(p: Proj, rooms: RoomTable, ids: Ids)
    requires UsersOk(p) && ChannelIds(ids) && Grows(p.channels, ids) && p.rooms.Keys <= rooms.Keys
    ensures UsersOf(p.users, ids, p.sessions) == UsersOf(p.users, p.channels, p.sessions)
    ensures UsersOk(p.(rooms := rooms, channels := ids))
  {
  }

  /** A ChannelState for `r` under `ids` finds its parent in place. */
  lemma {:induction false} PutRoomPlaced(p: Proj, r: Room, ids: Ids)
    requires UsersOk(p) && Located(p.rooms, p.channels) && CanPut(p.rooms, p.channels, r, ids)
    ensures var p' := p.(rooms := p.rooms[r.id := r], channels := ids); Located(p'.rooms, ids) && UsersOk(p')
    ensures WellPlaced(ViewOf(p), ChannelState(ids.fwd[r.id], RoomRecord(r, ids)))
  {
    PutRoomLocated(p.rooms, p.channels, r, ids);
    GrowsKeepsUsers(p, p.rooms[r.id := r], ids);
    if r.id != ROOT {
      ParentVisible(p.rooms, p.channels, r, ids);
    }
  }

  /** A client shows room `u` as it did when it held `h`. */
  ghost predicate HeldAt(h: RoomTable, t: RoomTable, u: Uuid) {
    (u in Hold(h, t) <==> u in h) && (u in h ==> Hold(h, t)[u] == h[u])
  }

  lemma {:induction false} PlacedHold(h: RoomTable, t: RoomTable, ids: Ids)
    requires Placed(t, ids)
    ensures Placed(Hold(h, t), ids)
  {
  }

  lemma {:induction false} HoldPut(h: RoomTable, t: RoomTable, r: Room)
    ensures Hold(h, t[r.id := r]) == Hold(h, t)[r.id := Remember(h, r.id, r)]
  {
  }

  /** The record of room `r` merged into what the client shows is the record of what it remembers. */
  lemma {:induction false} MergedRecord(h: RoomTable, t: RoomTable, ids: Ids, r: Room, ids': Ids, us: map<nat, Occupant>)
    requires Placed(t, ids) && CanPut(t, ids, r, ids') && HeldAt(h, t, r.id)
    ensures var v := View(ChannelsOf(Hold(h, t), ids), us);
            Merged(v, ids'.fwd[r.id], RoomRecord(r, ids')) == RoomRecord(Remember(h, r.id, r), ids')
  {
    var c := ids'.fwd[r.id];
    if r.id != ROOT {
      assert c != 0;
      if c in ids.bwd {
        assert ids'.fwd[ids.bwd[c]] == c && ids.bwd[c] == r.id;
      }
    }
  }

  /** A ChannelState for `r` moves what any client shows as `r` moves the projected rooms. */
  lemma {:induction false} PutRoom(h: RoomTable, p: Proj, r: Room, ids: Ids)
    requires UsersOk(p) && CanPut(p.rooms, p.channels, r, ids) && HeldAt(h, p.rooms, r.id)
    ensures var p' := p.(rooms := p.rooms[r.id := r], channels := ids);
      Apply(HeldView(h, p), ChannelState(ids.fwd[r.id], RoomRecord(r, ids))) == HeldView(h, p')
  {
    hide ChannelsOf, UsersOf, RoomRecord, HeldAt, Remember, ChannelIds;
    var t, r' := Hold(h, p.rooms), Remember(h, r.id, r);
    RememberSame(h, r);
    PlacedHold(h, p.rooms, p.channels);
    HoldPut(h, p.rooms, r);
    HoldHas(h, p.rooms);
    GrowsKeepsUsers(p, p.rooms[r.id := r], ids);
    hide Hold, Grows, UsersOk;
    PutRoomChannels(t, p.channels, r', ids);
    MergedRecord(h, p.rooms, p.channels, r, ids, UsersOf(p.users, p.channels, p.sessions));
  }

  lemma {:induction false} RememberSame(h: RoomTable, r: Room)
    ensures Remember(h, r.id, r).id == r.id && Remember(h, r.id, r).parent == r.parent
  {
  }

  lemma {:induction false} HoldHas(h: RoomTable, t: RoomTable)
    ensures t.Keys <= Hold(h, t).Keys
  {
  }

  lemma {:induction false} ParentVisible(t: RoomTable, ids: Ids, r: Room, ids': Ids)
    requires CanPut(t, ids, r, ids') && r.id != ROOT
    ensures ChannelId(ids', r.parent) in ChannelsOf(t, ids)
    ensures ids'.fwd[r.id] != 0
  {
  }

  /** Looking up ids that only Root may be new to changes nothing that is shown. */
  lemma {:induction false} IdsUnseen(h: RoomTable, p: Proj, ids: Ids)
    requires UsersOk(p) && Placed(p.rooms, p.channels) && ChannelIds(ids) && Grows(p.channels, ids)
    requires ids.fwd.Keys <= p.channels.fwd.Keys + {ROOT}
    ensures HeldView(h, p.(channels := ids)) == HeldView(h, p)
  {
    hide ChannelsOf, UsersOf, ChannelIds;
    GrowsKeepsUsers(p, p.rooms, ids);
    PlacedHold(h, p.rooms, p.channels);
    hide Hold, Grows, UsersOk;
    RootInsertedChannels(Hold(h, p.rooms), p.channels, ids);
  }

  /** Giving Root its channel changes no record. */
  lemma {:induction false} RootInsertedChannels(t: RoomTable, ids: Ids, ids': Ids)
    requires Placed(t, ids) && ChannelIds(ids') && Grows(ids, ids')
    requires ids'.fwd.Keys <= ids.fwd.Keys + {ROOT}
    ensures ChannelsOf(t, ids') == ChannelsOf(t, ids)
  {
    var a, b := ChannelsOf(t, ids'), ChannelsOf(t, ids);
    forall u | u in t && u != ROOT ensures RoomRecord(t[u], ids') == RoomRecord(t[u], ids) {
      SameRecord(t, ids, ids', u);
    }
    hide RoomRecord;
    forall c: nat | c != 0 ensures (c in a <==> c in b) && (c in a ==> a[c] == b[c]) {
      SameHolder(t, ids, ids', c);
    }
    assert a[0] == b[0];
  }

  lemma {:induction false} SameRecord(t: RoomTable, ids: Ids, ids': Ids, u: Uuid)
    requires Placed(t, ids) && ChannelIds(ids') && Grows(ids, ids') && u in t && u != ROOT
    ensures RoomRecord(t[u], ids') == RoomRecord(t[u], ids)
  {
  }

  /** A channel but Root's stands for the same listed room, or for none. */
  lemma {:induction false} SameHolder(t: RoomTable, ids: Ids, ids': Ids, c: nat)
    requires Placed(t, ids) && ChannelIds(ids') && Grows(ids, ids') && c != 0
    requires ids'.fwd.Keys <= ids.fwd.Keys + {ROOT}
    ensures c in ids.bwd && ids.bwd[c] in t ==> c in ids'.bwd && ids'.bwd[c] == ids.bwd[c] && ids.bwd[c] != ROOT
    ensures c in ids'.bwd && ids'.bwd[c] in t ==> c in ids.bwd && ids.bwd[c] == ids'.bwd[c] && ids.bwd[c] != ROOT
  {
    if c in ids.bwd {
      assert ids'.fwd[ids.bwd[c]] == c;
    }
    if c in ids'.bwd && ids'.bwd[c] in t {
      assert ids.fwd[ids'.bwd[c]] == c;
    }
  }

  // ---- Adding or changing a user

  /** A UserState for `u` moves what any client shows as `u` moves the projected roster. */
  lemma {:induction false} PutUser(h: RoomTable, p: Proj, u: User, ids: Ids)
    requires Located(p.rooms, p.channels) && UsersOk(p)
    requires (u.room == ROOT || u.room in p.rooms) && ids == ChannelInserted(p.channels, u.room)
    ensures var p' := p.(users := p.users[u.id := u], channels := ids, sessions := Inserted(p.sessions, u.id));
      && Apply(HeldView(h, p), UserState(p'.sessions.fwd[u.id], UserRecord(u, ids))) == HeldView(h, p')
      && (u.id in p.sessions.fwd && u.id in p.users && p.users[u.id] == u ==> HeldView(h, p') == HeldView(h, p))
  {
    ChannelInsertedKeeps(p.channels, u.room);
    IdsUnseen(h, p, ids);
    PutUserRecord(p.users, ids, p.sessions, u);
    hide ChannelsOf, Hold, UsersOf, ChannelIds, UserRecord, Located, UsersOk;
  }

  lemma {:induction false} PutUserPlaced(p: Proj, u: User, ids: Ids)
    requires Located(p.rooms, p.channels) && UsersOk(p)
    requires (u.room == ROOT || u.room in p.rooms) && ids == ChannelInserted(p.channels, u.room)
    ensures var p' := p.(users := p.users[u.id := u], channels := ids, sessions := Inserted(p.sessions, u.id));
      && Located(p.rooms, ids) && UsersOk(p')
      && WellPlaced(ViewOf(p), UserState(p'.sessions.fwd[u.id], UserRecord(u, ids)))
  {
    ChannelInsertedKeeps(p.channels, u.room);
    GrowsKeepsUsers(p, p.rooms, ids);
    RootInsertedChannels(p.rooms, p.channels, ids);
    PutUserOk(p.(channels := ids), u);
    RoomVisible(p.rooms, ids, u.room);
  }

  lemma {:induction false} RoomVisible(t: RoomTable, ids: Ids, u: Uuid)
    requires Located(t, ids) && u in ids.fwd && (u == ROOT || u in t)
    ensures ids.fwd[u] in ChannelsOf(t, ids)
  {
  }

  lemma {:induction false} PutUserOk(p: Proj, u: User)
    requires UsersOk(p) && u.room in p.channels.fwd && (u.room == ROOT || u.room in p.rooms)
    ensures UsersOk(p.(users := p.users[u.id := u], sessions := Inserted(p.sessions, u.id)))
  {
    SessionInsertedKeeps(p.sessions, u.id);
  }

  lemma {:induction false} PutUserRecord(roster: Roster, ids: Ids, sessions: Ids, u: User)
    requires SessionIds(sessions)
    ensures var sessions' := Inserted(sessions, u.id);
      && UsersOf(roster[u.id := u], ids, sessions')
         == UsersOf(roster, ids, sessions)[sessions'.fwd[u.id] := UserRecord(u, ids)]
      && (u.id in sessions.fwd && u.id in roster && roster[u.id] == u ==>
            UsersOf(roster[u.id := u], ids, sessions') == UsersOf(roster, ids, sessions))
  {
    var sessions' := Inserted(sessions, u.id);
    var rec := UserRecord(u, ids);
    var a, b := UsersOf(roster[u.id := u], ids, sessions'), UsersOf(roster, ids, sessions);
    var id := sessions'.fwd[u.id];
    forall s: nat
      ensures (s in a <==> s in b[id := rec]) && (s in a && s in b[id := rec] ==> a[s] == b[id := rec][s])
    {
      KeptUser(roster, ids, sessions, u, s);
    }
    SameMap(a, b[id := rec]);
    if u.id in sessions.fwd && u.id in roster && roster[u.id] == u {
      assert roster[u.id := u] == roster;
    }
  }

  lemma {:induction false} KeptUser(roster: Roster, ids: Ids, sessions: Ids, u: User, s: nat)
    requires SessionIds(sessions)
    ensures var sessions' := Inserted(sessions, u.id);
      var a, b := UsersOf(roster[u.id := u], ids, sessions'), UsersOf(roster, ids, sessions);
      if s == sessions'.fwd[u.id] then s in a && a[s] == UserRecord(u, ids)
      else (s in a <==> s in b) && (s in a ==> a[s] == b[s])
  {
    SessionInsertedKeeps(sessions, u.id);
  }

  // ---- Removing a room

  /** No listed room hangs under `u` and nobody with a session stands in it. */
  ghost predicate Vacant(p: Proj, u: Uuid) {
    && (forall w :: w in p.rooms && w != ROOT ==> p.rooms[w].parent != u)
    && (forall i :: i in p.users && i in p.sessions.fwd ==> p.users[i].room != u)
  }

  lemma {:induction false} DropRoomChannels(t: RoomTable, ids: Ids, u: Uuid)
    requires Located(t, ids) && u in ids.fwd && u != ROOT
    requires forall w :: w in t && w != ROOT ==> t[w].parent != u
    ensures Located(t - {u}, Removed(ids, u))
    ensures forall x :: x in ChannelsOf(t, ids) ==> ChannelsOf(t, ids)[x].parent != Some(ids.fwd[u])
  {
    RemovedKeeps(ids, u);
    assert Located(t - {u}, Removed(ids, u));
    forall x | x in ChannelsOf(t, ids) ensures ChannelsOf(t, ids)[x].parent != Some(ids.fwd[u]) {
    }
  }

  lemma {:induction false} DropRoomChannel(t: RoomTable, ids: Ids, u: Uuid)
    requires Placed(t, ids) && u in ids.fwd && u != ROOT
    requires forall w :: w in t && w != ROOT ==> t[w].parent != u
    ensures ChannelsOf(t - {u}, Removed(ids, u)) == ChannelsOf(t, ids) - {ids.fwd[u]}
  {
    var a, b := ChannelsOf(t - {u}, Removed(ids, u)), ChannelsOf(t, ids) - {ids.fwd[u]};
    forall c: nat ensures (c in a <==> c in b) && (c in a ==> a[c] == b[c]) {
    }
  }

  lemma {:induction false} DropRoomUsers(p: Proj, u: Uuid)
    requires ChannelIds(p.channels) && UsersOk(p) && u in p.channels.fwd && u != ROOT && Vacant(p, u)
    ensures UsersOf(p.users, Removed(p.channels, u), p.sessions) == UsersOf(p.users, p.channels, p.sessions)
    ensures UsersOk(p.(rooms := p.rooms - {u}, channels := Removed(p.channels, u)))
    ensures forall s :: s in UsersOf(p.users, p.channels, p.sessions) ==>
      UsersOf(p.users, p.channels, p.sessions)[s].channel != Some(p.channels.fwd[u])
  {
    RemovedKeeps(p.channels, u);
  }

  lemma {:induction false} DroppedRooted(t: RoomTable, u: Uuid)
    requires Rooted(t) && forall w :: w in t && w != ROOT ==> t[w].parent != u
    ensures Rooted(t - {u})
  {
    ParentsListed(t);
    forall w | w in t - {u} ensures ReachesRoot(t - {u}, w) {
      var n: nat :| AtDepth(t, w, n);
      DepthFrame(t, t - {u}, w, n, t.Keys - {u});
    }
  }

  lemma {:induction false} DropRoomPlaced(p: Proj, u: Uuid)
    requires Located(p.rooms, p.channels) && UsersOk(p) && u in p.channels.fwd && u != ROOT && Vacant(p, u)
    ensures var p' := p.(rooms := p.rooms - {u}, channels := Removed(p.channels, u));
      Located(p'.rooms, p'.channels) && UsersOk(p') && WellPlaced(ViewOf(p), ChannelRemove(p.channels.fwd[u]))
  {
    DropRoomChannels(p.rooms, p.channels, u);
    DropRoomUsers(p, u);
  }

  /** A ChannelRemove for a vacant room moves what any client shows as dropping the room does. */
  lemma {:induction false} DropRoom(h: RoomTable, p: Proj, u: Uuid)
    requires Located(p.rooms, p.channels) && UsersOk(p) && u in p.channels.fwd && u != ROOT && Vacant(p, u)
    ensures var p' := p.(rooms := p.rooms - {u}, channels := Removed(p.channels, u));
      Apply(HeldView(h, p), ChannelRemove(p.channels.fwd[u])) == HeldView(h, p')
  {
    hide ChannelsOf, UsersOf, ChannelIds;
    DropRoomUsers(p, u);
    PlacedHold(h, p.rooms, p.channels);
    HoldDrop(h, p.rooms, u);
    HoldParents(h, p.rooms, u);
    hide Hold, UsersOk;
    DropRoomChannel(Hold(h, p.rooms), p.channels, u);
  }

  lemma {:induction false} HoldDrop(h: RoomTable, t: RoomTable, u: Uuid)
    requires u != ROOT
    ensures Hold(h, t - {u}) == Hold(h, t) - {u}
  {
  }

  lemma {:induction false} HoldParents(h: RoomTable, t: RoomTable, u: Uuid)
    requires forall w :: w in t && w != ROOT ==> t[w].parent != u
    ensures forall w :: w in Hold(h, t) && w != ROOT ==> Hold(h, t)[w].parent != u
  {
  }

  // ---- When a client shows the snapshot

  /** No listed room that a client holds described is without description now, and Root is listed or looks made up. */
  ghost predicate Agrees(h: RoomTable, t: RoomTable) {
    && (forall u :: u in t && u in h && t[u].description.None? ==> h[u].description.None?)
    && (ROOT in t || RootRecord(h) == RootRecord(map[]))
  }

  /** A client shows what one that joins now is sent exactly then. */
  lemma {:induction false} ShowsSnapshot(h: RoomTable, p: Proj)
    requires Located(p.rooms, p.channels)
    ensures HeldView(h, p) == ViewOf(p) <==> Agrees(h, p.rooms)
  {
    hide ChannelsOf, UsersOf, Hold, Located, RootRecord;
    if Agrees(h, p.rooms) {
      AgreeingShows(h, p.rooms, p.channels);
    } else {
      DisagreeingShows(h, p.rooms, p.channels);
    }
  }

  lemma {:induction false} AgreeingShows(h: RoomTable, t: RoomTable, ids: Ids)
    requires Located(t, ids) && Agrees(h, t)
    ensures ChannelsOf(Hold(h, t), ids) == ChannelsOf(t, ids)
  {
    var a, b := ChannelsOf(Hold(h, t), ids), ChannelsOf(t, ids);
    assert forall u :: u in t ==> Hold(h, t)[u] == t[u];
    assert forall u :: u in Hold(h, t) && u !in t ==> u == ROOT && ROOT in h && Hold(h, t)[ROOT] == h[ROOT];
    hide Hold, RoomRecord;
    assert forall c :: c in ids.bwd && c != 0 ==> ids.bwd[c] != ROOT;
    SameMap(a, b);
  }

  lemma {:induction false} DisagreeingShows(h: RoomTable, t: RoomTable, ids: Ids)
    requires Located(t, ids) && !Agrees(h, t)
    ensures ChannelsOf(Hold(h, t), ids) != ChannelsOf(t, ids)
  {
    var a, b := ChannelsOf(Hold(h, t), ids), ChannelsOf(t, ids);
    assert 0 in a && 0 in b && a[0] == RootRecord(Hold(h, t)) && b[0] == RootRecord(t);
    if u :| u in t && u in h && t[u].description.None? && h[u].description.Some? {
      var c := ids.fwd[u];
      assert c in b && c in a && a[c].description.Some? && b[c].description.None?;
    }
  }
}
