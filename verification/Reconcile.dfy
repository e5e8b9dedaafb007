/**
 Full-state reconciliation: diff the previously projected rooms and users against a new snapshot, update the id maps in
 place and emit, in send order, the messages that bring connected Mumble clients up to date.
 */
module Reconcile {
  import opened Options
  import opened Sets
  import opened Rooms
  import opened RoomWalk
  import opened IdMaps
  import opened ClientView
  import opened Projection
  import opened Telling

  /** Users never projected: the bridge itself, its virtual users, and those whose registration is in flight. */
  datatype SkipRules = SkipRules(bridgeUser: Option<nat>, virtualUsers: set<nat>, pendingNames: set<string>) {
    predicate Skips(u: User) {
      Some(u.id) == bridgeUser || u.id in virtualUsers || u.name in pendingNames
    }
  }

  /** The ids of the users that are to be projected. */
  function Announced(users: seq<User>, skip: SkipRules): set<nat> {
    set u | u in users && !skip.Skips(u) :: u.id
  }

  /** `messages` carry a client from view `v` to view `w`, in good order, one at a time. */
  ghost predicate Carries(v: View, messages: seq<SyncMessage>, w: View) {
    && Replay(v, messages) == w
    && Orderly(v, messages)
    && TouchesOnlySessionsFrom(messages, FIRST_PROXY_SESSION)
  }

  /** They carry every client, whatever it holds of the rooms of `p`, to what it then holds of those of `q`. */
  ghost predicate Carried(p: Proj, messages: seq<SyncMessage>, q: Proj) {
    forall h :: Holds(h, p.rooms) ==> Carries(HeldView(h, p), messages, HeldView(h, q))
  }

  lemma {:induction false} CarriedNothing(p: Proj)
    ensures Carried(p, [], p)
  {
  }

  /** What a message does to every client, from `q` to `q'`. */
  ghost predicate Moves(t: RoomTable, q: Proj, m: SyncMessage, q': Proj) {
    forall h :: Holds(h, t) ==> Apply(HeldView(h, q), m) == HeldView(h, q')
  }

  ghost predicate LooksAlike(t: RoomTable, q: Proj, q': Proj) {
    forall h :: Holds(h, t) ==> HeldView(h, q') == HeldView(h, q)
  }

  lemma {:induction false} CarriedAlike(p: Proj, messages: seq<SyncMessage>, q: Proj, q': Proj)
    requires Carried(p, messages, q) && LooksAlike(p.rooms, q, q')
    ensures Carried(p, messages, q')
  {
    hide HeldView, Holds, Carries;
  }

  lemma {:induction false} CarriedOneMore(p: Proj, messages: seq<SyncMessage>, q: Proj, m: SyncMessage, q': Proj)
    requires Carried(p, messages, q) && Ok(q) && Ok(q')
    requires WellPlaced(ViewOf(q), m) && Moves(p.rooms, q, m, q')
    requires m.UserRemove? || m.UserState? ==> m.session >= FIRST_PROXY_SESSION
    ensures Carried(p, messages + [m], q')
  {
    hide HeldView, Holds, ViewOf, Located, Rooted, SameShape, WellPlaced, Legal, Replay;
    SessionsValid(q);
    SessionsValid(q');
    OkIsLegal(q');
    hide Ok, ChannelIds, SessionIds;
    forall h | Holds(h, p.rooms) ensures Carries(HeldView(h, p), messages + [m], HeldView(h, q')) {
      HeldShape(h, q);
      HeldShape(h, q');
      ShapeDecides(ViewOf(q), HeldView(h, q), m);
      ShapeDecides(ViewOf(q'), HeldView(h, q'), m);
      ReplayOne(HeldView(h, p), messages, m);
      hide Orderly, Known, Apply;
    }
  }

  lemma {:induction false} CarriesTrans(u: View, ms: seq<SyncMessage>, v: View, ns: seq<SyncMessage>, w: View)
    requires Carries(u, ms, v) && Carries(v, ns, w)
    ensures Carries(u, ms + ns, w)
  {
    ReplayConcat(u, ms, ns);
    OrderlyConcat(u, ms, ns);
  }

  // ---- Sorting

  predicate Leq(a: (int, int), b: (int, int)) {
    a.0 < b.0 || (a.0 == b.0 && a.1 <= b.1)
  }

  lemma {:induction false} HasFirst(us: set<nat>, key: map<nat, (int, int)>)
    requires us != {} && us <= key.Keys
    ensures exists u :: u in us && forall w :: w in us ==> Leq(key[u], key[w])
  {
    var leq := (u, w) => u in key && w in key && Leq(key[u], key[w]);
    HasLeast(us, leq);
    var u :| Least(us, leq, u);
    assert u in us && forall w :: w in us ==> Leq(key[u], key[w]);
  }

  method SortedBy(us: set<nat>, key: map<nat, (int, int)>) returns (sorted: seq<nat>)
    requires us <= key.Keys
    ensures NoRepeats(sorted) && Elems(sorted) == us
    ensures forall i, j :: 0 <= i < j < |sorted| ==>
      sorted[i] in key && sorted[j] in key && Leq(key[sorted[i]], key[sorted[j]])
  {
    sorted := [];
    var rest := us;
    while rest != {}
      invariant NoRepeats(sorted) && Elems(sorted) == us - rest && rest <= us
      invariant forall i, w :: 0 <= i < |sorted| && w in rest ==> sorted[i] in key && Leq(key[sorted[i]], key[w])
      invariant forall i, j :: 0 <= i < j < |sorted| ==>
        sorted[i] in key && sorted[j] in key && Leq(key[sorted[i]], key[sorted[j]])
    {
      HasFirst(rest, key);
      var u :| u in rest && forall w :: w in rest ==> Leq(key[u], key[w]);
      ElemsConcat(sorted, [u]);
      assert Elems([u]) == {u};
      sorted, rest := sorted + [u], rest - {u};
    }
  }

  // ---- Users: removals

  /** The first `k` of `removed` have lost their proxy session, and clients have been told. */
  ghost predicate Pruned(p: Proj, q: Proj, removed: seq<nat>, k: nat, messages: seq<SyncMessage>) {
    && k <= |removed| && messages == UserRemoves(p.sessions, removed[..k])
    && Ok(q) && q == p.(sessions := q.sessions) && q.sessions.next == p.sessions.next
    && q.sessions.fwd == p.sessions.fwd - Elems(removed[..k])
    && Carried(p, messages, q)
  }

  lemma {:induction false} PruneStep(p: Proj, q: Proj, removed: seq<nat>, k: nat, messages: seq<SyncMessage>)
    requires Pruned(p, q, removed, k, messages) && k < |removed|
    requires NoRepeats(removed) && Elems(removed) <= p.sessions.fwd.Keys
    ensures var i := removed[k];
      && i in q.sessions.fwd && SessionIds(q.sessions)
      && Pruned(p, q.(sessions := Removed(q.sessions, i)), removed, k + 1,
                messages + [UserRemove(q.sessions.fwd[i])])
  {
    hide ViewOf, HeldView, Carried, WellPlaced, Apply, Located, Rooted, UserRemoves, Moves;
    var i := removed[k];
    TakeOneMore(removed, k);
    assert i in Elems(removed);
    RemoveTold(p, q, removed, k);
    DropUserOk(q, i);
    DropUserMoves(p.rooms, q, i);
    NothingPlaced(ViewOf(q), q.sessions.fwd[i]);
    CarriedOneMore(p, messages, q, UserRemove(q.sessions.fwd[i]), q.(sessions := Removed(q.sessions, i)));
  }

  lemma {:induction false} DropUserMoves(t: RoomTable, q: Proj, i: nat)
    requires Ok(q) && i in q.sessions.fwd
    ensures Moves(t, q, UserRemove(q.sessions.fwd[i]), q.(sessions := Removed(q.sessions, i)))
  {
    hide HeldView, Holds, Ok, Apply;
    forall h | Holds(h, t)
      ensures Apply(HeldView(h, q), UserRemove(q.sessions.fwd[i])) == HeldView(h, q.(sessions := Removed(q.sessions, i)))
    {
      DropUser(h, q, i);
    }
  }

  /** The next user still has the session it began with. */
  lemma {:induction false} RemoveTold(p: Proj, q: Proj, removed: seq<nat>, k: nat)
    requires k < |removed| && q.sessions.fwd == p.sessions.fwd - Elems(removed[..k]) && removed[k] in q.sessions.fwd
    ensures UserRemoves(p.sessions, removed[..k + 1])
         == UserRemoves(p.sessions, removed[..k]) + [UserRemove(q.sessions.fwd[removed[k]])]
  {
  }

  lemma {:induction false} NothingPlaced(v: View, session: nat)
    ensures WellPlaced(v, UserRemove(session))
  {
  }

  lemma {:induction false} TakeOneMore(s: seq<nat>, k: nat)
    requires NoRepeats(s) && k < |s|
    ensures s[k] !in s[..k] && Elems(s[..k + 1]) == Elems(s[..k]) + {s[k]}
  {
    assert s[..k + 1] == s[..k] + [s[k]];
    ElemsConcat(s[..k], [s[k]]);
    assert Elems([s[k]]) == {s[k]};
  }

  /**
   Removes from the map, in id order, every user that is not announced any more, whether or not the cached roster knew
   them; the map keeps the other pairs.
   */
  method PruneUsers(newUsers: seq<User>, users: UserMap, skip: SkipRules, ghost p: Proj)
    returns (messages: seq<SyncMessage>, removed: seq<nat>)
    requires Ok(p) && users.Abs() == p.sessions
    modifies users
    ensures var q := p.(sessions := users.Abs());
      users.Valid() && Ok(q) && Carried(p, messages, q)
    ensures users.next == old(users.next)
    ensures users.fwd == old(users.fwd) - (old(users.fwd).Keys - Announced(newUsers, skip))
    ensures Elems(removed) == old(users.fwd).Keys - Announced(newUsers, skip)
    ensures forall i, j :: 0 <= i < j < |removed| ==> removed[i] < removed[j]
    ensures messages == UserRemoves(p.sessions, removed) && NoRepeats(removed)
    ensures messages == [] <==> old(users.fwd).Keys <= Announced(newUsers, skip)
  {
    var vanished := users.fwd.Keys - Announced(newUsers, skip);
    removed := SortedBy(vanished, map i | i in users.fwd :: (i, users.fwd[i]));
    messages := [];
    CarriedNothing(p);
    ghost var q := p;
    assert Elems(removed[..0]) == {} && UserRemoves(p.sessions, removed[..0]) == [];
    hide Ok, ViewOf, Carried, Removed, UserRemoves, NoRepeats;
    for k := 0 to |removed|
      invariant users.Abs() == q.sessions && Pruned(p, q, removed, k, messages)
    {
      PruneStep(p, q, removed, k, messages);
      hide Pruned;
      var session := users.fwd[removed[k]];
      q := q.(sessions := Removed(q.sessions, removed[k]));
      users.RemoveByRumbleId(removed[k]);
      messages := messages + [UserRemove(session)];
    }
    PruneEnd(p, q, removed, messages);
  }

  lemma {:induction false} PruneEnd(p: Proj, q: Proj, removed: seq<nat>, messages: seq<SyncMessage>)
    requires Pruned(p, q, removed, |removed|, messages)
    ensures Ok(q) && SessionIds(q.sessions) && q == p.(sessions := q.sessions) && q.sessions.next == p.sessions.next
    ensures q.sessions.fwd == p.sessions.fwd - Elems(removed) && Carried(p, messages, q)
    ensures messages == UserRemoves(p.sessions, removed) && (messages == [] <==> Elems(removed) == {})
  {
    assert removed[..|removed|] == removed;
    SessionsValid(q);
    hide Ok, ViewOf, Carried;
    if removed != [] {
      assert removed[0] in Elems(removed);
    }
  }

  lemma {:induction false} SessionsValid(p: Proj)
    requires Ok(p)
    ensures SessionIds(p.sessions) && ChannelIds(p.channels)
  {
  }

  // ---- Channels: additions and changes

  ghost predicate AllSame(t: RoomTable, s: RoomTable) {
    forall u :: u in s ==> SameRoom(t, s[u])
  }

  /** The ids once `r` and its parent have been looked up. */
  function IdsFor(ids: Ids, r: Room): Ids {
    var own := ChannelInserted(ids, r.id);
    if r.id == ROOT then own else ChannelInserted(own, r.parent)
  }

  lemma {:induction false} IdsForRoom(t: RoomTable, ids: Ids, r: Room)
    requires Located(t, ids) && (r.id == ROOT || r.parent == ROOT || r.parent in t)
    ensures CanPut(t, ids, r, IdsFor(ids, r))
    ensures IdsFor(ids, r).fwd[r.id] == ChannelInserted(ids, r.id).fwd[r.id]
    ensures ChannelIds(ChannelInserted(ids, r.id))
    ensures r.id != ROOT ==> r.parent in IdsFor(ids, r).fwd
    ensures IdsFor(ids, r).fwd.Keys <= ids.fwd.Keys + {r.id, ROOT}
  {
    ChannelInsertedKeeps(ids, r.id);
    ChannelInsertedKeeps(ChannelInserted(ids, r.id), r.parent);
  }

  /** The state after the rooms in `s` were sent: the old table with those rooms overridden. */
  ghost predicate RoomsSent(p: Proj, s: RoomTable, q: Proj, messages: seq<SyncMessage>) {
    && Ok(q) && Rooted(s) && q == p.(rooms := p.rooms + s, channels := q.channels)
    && Grows(p.channels, q.channels) && q.channels.fwd.Keys <= p.channels.fwd.Keys + s.Keys + {ROOT}
    && Carried(p, messages, q)
    && (messages == [] <==> AllSame(p.rooms, s))
  }

  /** The state once room `r` was put over those in `s`. */
  ghost function WithRoom(p: Proj, s: RoomTable, q: Proj, r: Room, ids: Ids): Proj {
    q.(rooms := p.rooms + s[r.id := r], channels := ids)
  }

  lemma {:induction false} RoomPut(p: Proj, s: RoomTable, q: Proj, r: Room, ids: Ids)
    requires Ok(q) && Rooted(s) && Rooted(p.rooms) && q.rooms == p.rooms + s
    requires r.id !in s && (r.id == ROOT || r.parent == ROOT || r.parent in s) && CanPut(q.rooms, q.channels, r, ids)
    ensures Ok(WithRoom(p, s, q, r, ids)) && Rooted(s[r.id := r])
    ensures WellPlaced(ViewOf(q), ChannelState(ids.fwd[r.id], RoomRecord(r, ids)))
  {
    hide Rooted, ChannelsOf, UsersOf, UsersOk, WellPlaced, Located;
    assert q.rooms[r.id := r] == p.rooms + s[r.id := r];
    AddedRooted(s, r);
    OverrideRooted(p.rooms, s[r.id := r]);
    PutRoomPlaced(q, r, ids);
  }

  /** A room not yet put is shown as it was held. */
  lemma {:induction false} NotYetPut(h: RoomTable, t: RoomTable, s: RoomTable, u: Uuid)
    requires Holds(h, t) && u !in s
    ensures HeldAt(h, t + s, u)
  {
    assert u in t ==> Hold(h, t)[u] == h[u];
    assert u in Hold(h, t) <==> u in h;
  }

  lemma {:induction false} PutHasChannel(t: RoomTable, ids: Ids, r: Room, ids': Ids)
    requires CanPut(t, ids, r, ids')
    ensures r.id in ids'.fwd
  {
  }

  lemma {:induction false} RoomMoves(p: Proj, s: RoomTable, q: Proj, r: Room, ids: Ids)
    requires UsersOk(q) && q.rooms == p.rooms + s && r.id !in s && CanPut(q.rooms, q.channels, r, ids)
    ensures Moves(p.rooms, q, ChannelState(ids.fwd[r.id], RoomRecord(r, ids)), WithRoom(p, s, q, r, ids))
  {
    hide HeldView, Holds, Apply, CanPut, UsersOk, HeldAt, RoomRecord;
    PutHasChannel(q.rooms, q.channels, r, ids);
    assert q.rooms[r.id := r] == p.rooms + s[r.id := r];
    forall h | Holds(h, p.rooms)
      ensures Apply(HeldView(h, q), ChannelState(ids.fwd[r.id], RoomRecord(r, ids)))
           == HeldView(h, WithRoom(p, s, q, r, ids))
    {
      NotYetPut(h, p.rooms, s, r.id);
      PutRoom(h, q, r, ids);
    }
  }

  lemma {:induction false} SameRoomAlike(p: Proj, s: RoomTable, q: Proj, r: Room, ids: Ids)
    requires UsersOk(q) && q.rooms == p.rooms + s && r.id !in s && Located(q.rooms, q.channels)
    requires CanPut(q.rooms, q.channels, r, ids) && SameRoom(p.rooms, r)
    ensures LooksAlike(p.rooms, q, WithRoom(p, s, q, r, ids))
  {
    assert q.rooms[r.id] == r && p.rooms + s[r.id := r] == q.rooms;
    assert ids.fwd.Keys <= q.channels.fwd.Keys + {ROOT};
    hide HeldView, Holds, UsersOk, Located;
    forall h | Holds(h, p.rooms) ensures HeldView(h, WithRoom(p, s, q, r, ids)) == HeldView(h, q) {
      IdsUnseen(h, q, ids);
    }
  }

  lemma {:induction false} RoomStep(p: Proj, s: RoomTable, q: Proj, messages: seq<SyncMessage>, r: Room)
    requires Ok(p) && RoomsSent(p, s, q, messages)
    requires r.id !in s && (r.id == ROOT || r.parent == ROOT || r.parent in s)
    ensures var ids := IdsFor(q.channels, r);
      && r.id in ids.fwd
      && RoomsSent(p, s[r.id := r], WithRoom(p, s, q, r, ids),
                   if SameRoom(p.rooms, r) then messages
                   else messages + [ChannelState(ids.fwd[r.id], RoomRecord(r, ids))])
  {
    hide Rooted, ViewOf, UsersOk, WellPlaced, Carried, ChannelIds, Moves, LooksAlike, HeldView;
    var ids := IdsFor(q.channels, r);
    IdsForRoom(q.rooms, q.channels, r);
    RoomPut(p, s, q, r, ids);
    GrowsTrans(p.channels, q.channels, ids);
    OneMoreSame(p.rooms, s, r);
    hide Grows, IdsFor, AllSame;
    if SameRoom(p.rooms, r) {
      SameRoomAlike(p, s, q, r, ids);
      CarriedAlike(p, messages, q, WithRoom(p, s, q, r, ids));
    } else {
      RoomMoves(p, s, q, r, ids);
      CarriedOneMore(p, messages, q, ChannelState(ids.fwd[r.id], RoomRecord(r, ids)), WithRoom(p, s, q, r, ids));
    }
  }

  lemma {:induction false} GrowsTrans(a: Ids, b: Ids, c: Ids)
    requires Grows(a, b) && Grows(b, c)
    ensures Grows(a, c)
  {
  }

  lemma {:induction false} OneMoreSame(old_: RoomTable, s: RoomTable, r: Room)
    requires r.id !in s
    ensures AllSame(old_, s[r.id := r]) <==> AllSame(old_, s) && SameRoom(old_, r)
  {
    var s' := s[r.id := r];
    assert forall u :: u in s ==> s'[u] == s[u];
    assert s'[r.id] == r;
  }

  /** A room is sent when it is new to the cache or its name, description or parent differ. */
  predicate Changed(oldRooms: RoomTable, r: Room)
    requires r.id in oldRooms ==> oldRooms[r.id].id == r.id
    ensures Changed(oldRooms, r) <==> !SameRoom(oldRooms, r)
  {
    r.id !in oldRooms ||
    oldRooms[r.id].name != r.name || oldRooms[r.id].description != r.description || oldRooms[r.id].parent != r.parent
  }

  method LookUp(channels: ChannelMap, r: Room) returns (channelId: nat, parent: Option<nat>)
    requires channels.Valid()
    modifies channels
    ensures channels.Valid() && channels.Abs() == IdsFor(old(channels.Abs()), r)
    ensures r.id in channels.fwd && channelId == channels.fwd[r.id]
    ensures parent == RoomRecord(r, channels.Abs()).parent
  {
    channelId := channels.GetOrInsert(r.id);
    parent := None;
    if r.id != ROOT {
      var parentId := channels.GetOrInsert(r.parent);
      parent := Some(parentId);
    }
  }

  /** The loop state once the first `k` rooms of the walk, those in `s`, were handled and `ids` was reached. */
  ghost predicate Syncing(p: Proj, rooms: seq<Room>, order: seq<nat>, k: nat, s: RoomTable, ids: Ids,
                          messages: seq<SyncMessage>) {
    && WalkedPrefix(rooms, order, k, s)
    && RoomsSent(p, s, p.(rooms := p.rooms + s, channels := ids), messages)
  }

  lemma {:induction false} SyncStep(p: Proj, rooms: seq<Room>, order: seq<nat>, k: nat, s: RoomTable, ids: Ids,
                 messages: seq<SyncMessage>)
    requires Ok(p) && DistinctRooms(rooms) && NoRepeats(order) && ParentsFirst(rooms, order)
    requires Syncing(p, rooms, order, k, s, ids, messages) && k < |order|
    ensures order[k] < |rooms|
    ensures var r := rooms[order[k]]; var ids' := IdsFor(ids, r);
      && r.id in ids'.fwd
      && (r.id in p.rooms ==> p.rooms[r.id].id == r.id)
      && Syncing(p, rooms, order, k + 1, s[r.id := r], ids',
                 if SameRoom(p.rooms, r) then messages
                 else messages + [ChannelState(ids'.fwd[r.id], RoomRecord(r, ids'))])
  {
    hide Ok, RoomsSent, IdsFor;
    WalkedOneMore(rooms, order, k, s);
    hide WalkedPrefix, ParentsFirst, NoRepeats, DistinctRooms;
    OldRoomsKeyed(p, rooms[order[k]]);
    RoomStep(p, s, p.(rooms := p.rooms + s, channels := ids), messages, rooms[order[k]]);
  }

  lemma {:induction false} SyncStart(p: Proj, rooms: seq<Room>, order: seq<nat>)
    requires Ok(p)
    ensures Syncing(p, rooms, order, 0, map[], p.channels, []) && ChannelIds(p.channels)
  {
    assert Elems(order[..0]) == {};
    assert p.rooms + map[] == p.rooms;
    hide Carried;
    NothingSent(p);
  }

  /** Sends every new or changed room, parents first, giving new rooms fresh channel ids. */
  method SyncChannels(oldRooms: RoomTable, newRooms: seq<Room>, channels: ChannelMap, ghost p: Proj)
    returns (messages: seq<SyncMessage>, ghost told: seq<Uuid>)
    requires Ok(p) && p.rooms == oldRooms && channels.Abs() == p.channels
    requires DistinctRooms(newRooms) && Rooted(Table(newRooms))
    modifies channels
    ensures channels.Valid()
    ensures RoomsSent(p, Table(newRooms), p.(rooms := oldRooms + Table(newRooms), channels := channels.Abs()), messages)
    ensures ToldRooms(oldRooms, Table(newRooms), channels.Abs(), told, messages)
  {
    var order := WalkFromRoot(newRooms);
    messages, told := [], [];
    ghost var s: RoomTable := map[];
    SyncStart(p, newRooms, order);
    NothingTold(oldRooms, channels.Abs());
    hide Ok, Rooted, Syncing, ParentsFirst, NoRepeats, DistinctRooms, ReachesRoot, ChannelIds, RoomsSent, ToldRooms;
    for k := 0 to |order|
      invariant channels.Valid() && Syncing(p, newRooms, order, k, s, channels.Abs(), messages)
      invariant ToldRooms(oldRooms, s, channels.Abs(), told, messages)
    {
      SyncStep(p, newRooms, order, k, s, channels.Abs(), messages);
      SyncTells(p, newRooms, order, k, s, channels.Abs(), told, messages);
      var room := newRooms[order[k]];
      told := if SameRoom(oldRooms, room) then told else told + [room.id];
      s := s[room.id := room];
      var channelId, parent := LookUp(channels, room);
      if Changed(oldRooms, room) {
        messages := messages + [ChannelState(channelId, Channel(parent, room.name, room.description))];
      }
    }
    AllSynced(p, newRooms, order, s, channels.Abs(), messages);
    AllWalked(p, newRooms, order, s, channels.Abs(), messages);
  }

  lemma {:induction false} AllWalked(p: Proj, rooms: seq<Room>, order: seq<nat>, s: RoomTable, ids: Ids,
                                     messages: seq<SyncMessage>)
    requires DistinctRooms(rooms) && Rooted(Table(rooms))
    requires forall i: nat :: i in order <==> i < |rooms| && ReachesRoot(Table(rooms), rooms[i].id)
    requires Syncing(p, rooms, order, |order|, s, ids, messages)
    ensures s == Table(rooms)
  {
    hide RoomsSent;
    AllSent(rooms, order, s);
  }

  lemma {:induction false} NothingTold(old_: RoomTable, ids: Ids)
    ensures ToldRooms(old_, map[], ids, [], [])
  {
    assert ChangedRooms(old_, map[]) == {} && Elems([]) == {};
  }

  lemma {:induction false} SyncTells(p: Proj, rooms: seq<Room>, order: seq<nat>, k: nat, s: RoomTable, ids: Ids,
                                     told: seq<Uuid>, messages: seq<SyncMessage>)
    requires Ok(p) && DistinctRooms(rooms) && NoRepeats(order) && ParentsFirst(rooms, order)
    requires Syncing(p, rooms, order, k, s, ids, messages) && k < |order| && order[k] < |rooms|
    requires ToldRooms(p.rooms, s, ids, told, messages) && rooms[order[k]].id in IdsFor(ids, rooms[order[k]]).fwd
    ensures var r := rooms[order[k]]; var ids' := IdsFor(ids, r);
            if SameRoom(p.rooms, r) then ToldRooms(p.rooms, s[r.id := r], ids', told, messages)
            else ToldRooms(p.rooms, s[r.id := r], ids', told + [r.id],
                           messages + [ChannelState(ids'.fwd[r.id], RoomRecord(r, ids'))])
  {
    var r := rooms[order[k]];
    hide ToldRooms, RoomsSent, RoomRecord;
    WalkedOneMore(rooms, order, k, s);
    hide WalkedPrefix, ParentsFirst, NoRepeats, DistinctRooms;
    SentShowsAlike(p, s, ids, messages, r);
    hide Syncing, IdsFor, ShownAlike;
    TellRoom(p.rooms, s, ids, IdsFor(ids, r), told, messages, r);
  }

  lemma {:induction false} SentShowsAlike(p: Proj, s: RoomTable, ids: Ids, messages: seq<SyncMessage>, r: Room)
    requires RoomsSent(p, s, p.(rooms := p.rooms + s, channels := ids), messages)
    ensures ShownAlike(s, ids, IdsFor(ids, r))
  {
    hide Carried, ViewOf, Rooted, AllSame, UsersOk;
    IdsForGrow(ids, r);
    GrownShowsAlike(s, p.rooms + s, ids, IdsFor(ids, r));
  }

  lemma {:induction false} IdsForGrow(ids: Ids, r: Room)
    requires ChannelIds(ids)
    ensures ChannelIds(IdsFor(ids, r)) && Grows(ids, IdsFor(ids, r))
  {
    ChannelInsertedKeeps(ids, r.id);
    ChannelInsertedKeeps(ChannelInserted(ids, r.id), r.parent);
    hide ChannelIds, ChannelInserted;
    if r.id != ROOT {
      GrowsTrans(ids, ChannelInserted(ids, r.id), IdsFor(ids, r));
    }
  }

  lemma {:induction false} AllSynced(p: Proj, rooms: seq<Room>, order: seq<nat>, s: RoomTable, ids: Ids,
                                     messages: seq<SyncMessage>)
    requires DistinctRooms(rooms) && Rooted(Table(rooms))
    requires forall i: nat :: i in order <==> i < |rooms| && ReachesRoot(Table(rooms), rooms[i].id)
    requires Syncing(p, rooms, order, |order|, s, ids, messages)
    ensures RoomsSent(p, Table(rooms), p.(rooms := p.rooms + Table(rooms), channels := ids), messages)
  {
    hide RoomsSent;
    AllSent(rooms, order, s);
  }

  lemma {:induction false} OldRoomsKeyed(p: Proj, r: Room)
    requires Ok(p)
    ensures r.id in p.rooms ==> p.rooms[r.id].id == r.id
  {
  }

  lemma {:induction false} NothingSent(p: Proj)
    requires Ok(p)
    ensures RoomsSent(p, map[], p, [])
  {
    hide Carried;
    CarriedNothing(p);
    assert p.rooms + map[] == p.rooms;
  }

  /** `s` holds the records of the first `k` rooms walked. */
  ghost predicate WalkedPrefix(rooms: seq<Room>, order: seq<nat>, k: nat, s: RoomTable) {
    && k <= |order|
    && s.Keys == IdsAt(rooms, Elems(order[..k]))
    && (forall u :: u in s ==> u in Table(rooms) && s[u] == Table(rooms)[u])
  }

  lemma {:induction false} WalkedOneMore(rooms: seq<Room>, order: seq<nat>, k: nat, s: RoomTable)
    requires DistinctRooms(rooms) && NoRepeats(order) && ParentsFirst(rooms, order)
    requires WalkedPrefix(rooms, order, k, s) && k < |order|
    ensures order[k] < |rooms|
    ensures var r := rooms[order[k]];
      && r.id !in s && (r.id == ROOT || r.parent == ROOT || r.parent in s)
      && WalkedPrefix(rooms, order, k + 1, s[r.id := r])
  {
    hide DistinctRooms, NoRepeats, ParentsFirst;
    OrderStep(rooms, order, k);
    TableAt(rooms, order[k]);
  }

  lemma {:induction false} OrderStep(rooms: seq<Room>, order: seq<nat>, k: nat)
    requires DistinctRooms(rooms) && NoRepeats(order) && ParentsFirst(rooms, order) && k < |order|
    ensures order[k] < |rooms|
    ensures var r := rooms[order[k]]; var before := IdsAt(rooms, Elems(order[..k]));
      && r.id !in before
      && (r.id == ROOT || r.parent == ROOT || r.parent in before)
      && IdsAt(rooms, Elems(order[..k + 1])) == before + {r.id}
  {
    var r := rooms[order[k]];
    assert order[..k + 1] == order[..k] + [order[k]];
    ElemsConcat(order[..k], [order[k]]);
    assert Elems([order[k]]) == {order[k]};
  }

  lemma {:induction false} AllSent(rooms: seq<Room>, order: seq<nat>, s: RoomTable)
    requires DistinctRooms(rooms) && Rooted(Table(rooms))
    requires forall i: nat :: i in order <==> i < |rooms| && ReachesRoot(Table(rooms), rooms[i].id)
    requires WalkedPrefix(rooms, order, |order|, s)
    ensures s == Table(rooms)
  {
    hide ReachesRoot, DistinctRooms;
    assert order[..|order|] == order;
    forall i: nat | i < |rooms| ensures rooms[i].id in s {
      TableHas(rooms, i);
      assert i in order;
      assert i in Elems(order);
    }
    forall u | u in Table(rooms) ensures u in s {
      var i := TableIndex(rooms, u);
    }
  }

  // ---- Users: additions and changes

  /** The users of the list that are projected, by id. */
  function KeptRoster(users: seq<User>, skip: SkipRules): Roster {
    if users == [] then map[]
    else
      var n := |users| - 1;
      var r := KeptRoster(users[..n], skip);
      if skip.Skips(users[n]) then r else r[users[n].id := users[n]]
  }

  lemma {:induction false} KeptIds(users: seq<User>, skip: SkipRules)
    ensures KeptRoster(users, skip).Keys == Announced(users, skip)
    decreases |users|
  {
    if users != [] {
      var n := |users| - 1;
      KeptIds(users[..n], skip);
      assert users == users[..n] + [users[n]];
      assert Announced(users, skip) == Announced(users[..n], skip) + Announced([users[n]], skip);
    }
  }

  lemma {:induction false} KeptFrom(users: seq<User>, skip: SkipRules, id: nat) returns (i: nat)
    requires id in KeptRoster(users, skip)
    ensures i < |users| && users[i] == KeptRoster(users, skip)[id] && users[i].id == id && !skip.Skips(users[i])
    decreases |users|
  {
    var n := |users| - 1;
    i := n;
    if users[n].id != id || skip.Skips(users[n]) {
      i := KeptFrom(users[..n], skip, id);
    }
  }

  lemma {:induction false} KeptOneMore(users: seq<User>, skip: SkipRules, k: nat)
    requires DistinctUsers(users) && k < |users|
    ensures users[k].id !in KeptRoster(users[..k], skip)
    ensures KeptRoster(users[..k + 1], skip)
      == if skip.Skips(users[k]) then KeptRoster(users[..k], skip)
         else KeptRoster(users[..k], skip)[users[k].id := users[k]]
  {
    assert users[..k + 1][..k] == users[..k];
    if users[k].id in KeptRoster(users[..k], skip) {
      var i := KeptFrom(users[..k], skip, users[k].id);
    }
  }

  ghost predicate AllSameUsers(p: Proj, done: Roster) {
    forall i :: i in done ==> SameUser(p, done[i])
  }

  /** The state after the users in `done` were announced: the old roster with those users overridden. */
  ghost predicate UsersSent(p: Proj, done: Roster, q: Proj, messages: seq<SyncMessage>) {
    && Ok(q) && q == p.(users := p.users + done, channels := q.channels, sessions := q.sessions)
    && Grows(p.channels, q.channels) && q.channels.fwd.Keys <= p.channels.fwd.Keys + {ROOT}
    && q.sessions.fwd.Keys == p.sessions.fwd.Keys + done.Keys && NeverReissues(p.sessions, q.sessions)
    && Carried(p, messages, q)
    && (messages == [] <==> AllSameUsers(p, done))
  }

  /** The state once user `u` was looked up and put into the roster. */
  ghost function WithUser(q: Proj, u: User): Proj {
    q.(users := q.users[u.id := u], channels := ChannelInserted(q.channels, u.room), sessions := Inserted(q.sessions, u.id))
  }

  lemma {:induction false} UserPut(p: Proj, q: Proj, u: User)
    requires Ok(q) && (u.room == ROOT || u.room in q.rooms)
    requires NeverReissues(p.sessions, q.sessions) && Grows(p.channels, q.channels)
    ensures var q' := WithUser(q, u);
      && Ok(q') && NeverReissues(p.sessions, q'.sessions) && Grows(p.channels, q'.channels)
      && q'.channels.fwd.Keys == q.channels.fwd.Keys + {u.room}
      && q'.sessions.fwd.Keys == q.sessions.fwd.Keys + {u.id}
      && u.id in q'.sessions.fwd && FIRST_PROXY_SESSION <= q'.sessions.fwd[u.id]
      && WellPlaced(ViewOf(q), UserState(q'.sessions.fwd[u.id], UserRecord(u, q'.channels)))
  {
    hide Rooted, ViewOf, WellPlaced, UserRecord, Located;
    SessionsValid(q);
    PutUserPlaced(q, u, ChannelInserted(q.channels, u.room));
    SessionInserts(p, q, u);
    hide UsersOk;
    GrowsInserted(p.channels, q.channels, u.room);
  }

  lemma {:induction false} UserMoves(t: RoomTable, q: Proj, u: User)
    requires Ok(q) && (u.room == ROOT || u.room in q.rooms)
    requires var q' := WithUser(q, u); u.id in q'.sessions.fwd
    ensures var q' := WithUser(q, u);
            Moves(t, q, UserState(q'.sessions.fwd[u.id], UserRecord(u, q'.channels)), q')
    ensures SameUser(q, u) ==> LooksAlike(t, q, WithUser(q, u))
  {
    hide HeldView, Holds, Apply, Located, UsersOk, Rooted, UserRecord, Inserted, ChannelInserted;
    forall h | Holds(h, t)
      ensures var q' := WithUser(q, u);
        && Apply(HeldView(h, q), UserState(q'.sessions.fwd[u.id], UserRecord(u, q'.channels))) == HeldView(h, q')
        && (SameUser(q, u) ==> HeldView(h, q') == HeldView(h, q))
    {
      PutUser(h, q, u, ChannelInserted(q.channels, u.room));
    }
  }

  lemma {:induction false} SessionInserts(p: Proj, q: Proj, u: User)
    requires UsersOk(q) && NeverReissues(p.sessions, q.sessions)
    ensures var s := Inserted(q.sessions, u.id);
      && NeverReissues(p.sessions, s) && s.fwd.Keys == q.sessions.fwd.Keys + {u.id}
      && FIRST_PROXY_SESSION <= s.fwd[u.id]
  {
    SessionInsertedKeeps(q.sessions, u.id);
  }

  lemma {:induction false} GrowsInserted(a: Ids, b: Ids, u: Uuid)
    requires ChannelIds(b) && Grows(a, b)
    ensures Grows(a, ChannelInserted(b, u)) && ChannelInserted(b, u).fwd.Keys == b.fwd.Keys + {u}
  {
    ChannelInsertedKeeps(b, u);
    GrowsTrans(a, b, ChannelInserted(b, u));
  }

  lemma {:induction false} RosterGrows(p: Proj, done: Roster, q: Proj, u: User)
    requires q == p.(users := p.users + done, channels := q.channels, sessions := q.sessions)
    ensures var q' := WithUser(q, u);
            q' == p.(users := p.users + done[u.id := u], channels := q'.channels, sessions := q'.sessions)
  {
    assert p.users + done[u.id := u] == q.users[u.id := u];
    hide ChannelInserted, Inserted;
  }

  lemma {:induction false} KeysGrow(p: Proj, done: Roster, q: Proj, u: User, q': Proj)
    requires q.channels.fwd.Keys <= p.channels.fwd.Keys + {ROOT}
    requires q.sessions.fwd.Keys == p.sessions.fwd.Keys + done.Keys
    requires u.room == ROOT || u.room in p.channels.fwd
    requires q'.channels.fwd.Keys == q.channels.fwd.Keys + {u.room}
    requires q'.sessions.fwd.Keys == q.sessions.fwd.Keys + {u.id}
    ensures q'.channels.fwd.Keys <= p.channels.fwd.Keys + {ROOT} && u.room in q'.channels.fwd
    ensures q'.sessions.fwd.Keys == p.sessions.fwd.Keys + done[u.id := u].Keys
  {
    assert u.room in q'.channels.fwd.Keys;
    assert done[u.id := u].Keys == done.Keys + {u.id};
  }

  /** One more user is announced, with a message exactly if they changed. */
  lemma {:induction false} UserStep(p: Proj, done: Roster, q: Proj, messages: seq<SyncMessage>, u: User)
    requires Ok(p) && UsersSent(p, done, q, messages)
    requires u.id !in done && (u.room == ROOT || u.room in p.rooms)
    ensures var q' := WithUser(q, u);
      && u.id in q'.sessions.fwd && u.room in q'.channels.fwd
      && (SameUser(p, u) <==> SameUser(q, u))
      && q' == p.(users := p.users + done[u.id := u], channels := q'.channels, sessions := q'.sessions)
      && UsersSent(p, done[u.id := u], q',
                   if SameUser(p, u) then messages
                   else messages + [UserState(q'.sessions.fwd[u.id], UserRecord(u, q'.channels))])
  {
    hide Ok, ViewOf, WellPlaced, UserRecord, Carried, Apply, NeverReissues, Grows, AllSameUsers, UsersSent, SameUser;
    hide WithUser, Moves, LooksAlike, HeldView;
    var q' := WithUser(q, u);
    SentSame(p, done, q, messages, u);
    SentFacts(p, done, q, messages);
    OneMoreSameUser(p, done, u);
    if u.room in p.rooms { RoomsHaveChannels(p, u.room); }
    UserPut(p, q, u);
    UserMoves(p.rooms, q, u);
    RosterGrows(p, done, q, u);
    KeysGrow(p, done, q, u, q');
    if SameUser(p, u) {
      CarriedAlike(p, messages, q, q');
      UsersSentIs(p, done[u.id := u], q', messages);
    } else {
      var m := UserState(q'.sessions.fwd[u.id], UserRecord(u, q'.channels));
      CarriedOneMore(p, messages, q, m, q');
      UsersSentIs(p, done[u.id := u], q', messages + [m]);
    }
  }

  lemma {:induction false} UsersSentIs(p: Proj, done: Roster, q: Proj, messages: seq<SyncMessage>)
    requires Ok(q) && q == p.(users := p.users + done, channels := q.channels, sessions := q.sessions)
    requires Grows(p.channels, q.channels) && q.channels.fwd.Keys <= p.channels.fwd.Keys + {ROOT}
    requires q.sessions.fwd.Keys == p.sessions.fwd.Keys + done.Keys && NeverReissues(p.sessions, q.sessions)
    requires Carried(p, messages, q) && (messages == [] <==> AllSameUsers(p, done))
    ensures UsersSent(p, done, q, messages)
  {
    hide Ok, Grows, NeverReissues, Carried, AllSameUsers;
  }

  lemma {:induction false} SentFacts(p: Proj, done: Roster, q: Proj, messages: seq<SyncMessage>)
    requires UsersSent(p, done, q, messages)
    ensures Ok(q) && q == p.(users := p.users + done, channels := q.channels, sessions := q.sessions)
    ensures Grows(p.channels, q.channels) && q.channels.fwd.Keys <= p.channels.fwd.Keys + {ROOT}
    ensures q.sessions.fwd.Keys == p.sessions.fwd.Keys + done.Keys && NeverReissues(p.sessions, q.sessions)
    ensures Carried(p, messages, q) && (messages == [] <==> AllSameUsers(p, done))
  {
    hide Ok, Grows, NeverReissues, Carried, AllSameUsers;
  }

  lemma {:induction false} SentSame(p: Proj, done: Roster, q: Proj, messages: seq<SyncMessage>, u: User)
    requires UsersSent(p, done, q, messages) && u.id !in done
    ensures SameUser(p, u) <==> SameUser(q, u)
  {
    hide Ok, Grows, NeverReissues, Carried, AllSameUsers;
  }

  lemma {:induction false} RoomsHaveChannels(p: Proj, u: Uuid)
    requires Ok(p) && u in p.rooms
    ensures u in p.channels.fwd
  {
  }

  lemma {:induction false} OneMoreSameUser(p: Proj, done: Roster, u: User)
    requires u.id !in done
    ensures AllSameUsers(p, done[u.id := u]) <==> AllSameUsers(p, done) && SameUser(p, u)
  {
    var done' := done[u.id := u];
    assert forall i :: i in done ==> done'[i] == done[i];
    assert done'[u.id] == u;
  }

  /** The loop state once the first `k` of the new users were handled. */
  ghost predicate Announcing(p: Proj, users: seq<User>, skip: SkipRules, k: nat, ids: Ids, sessions: Ids,
                             messages: seq<SyncMessage>) {
    && k <= |users|
    && var done := KeptRoster(users[..k], skip);
       UsersSent(p, done, p.(users := p.users + done, channels := ids, sessions := sessions), messages)
  }

  lemma {:induction false} AnnounceStart(p: Proj, users: seq<User>, skip: SkipRules)
    requires Ok(p)
    ensures Announcing(p, users, skip, 0, p.channels, p.sessions, [])
    ensures ChannelIds(p.channels) && SessionIds(p.sessions)
  {
    hide ViewOf, Carried, Located, Rooted, UsersOk;
    CarriedNothing(p);
    SessionsValid(p);
    hide ChannelIds, SessionIds;
    assert p.users + KeptRoster(users[..0], skip) == p.users;
  }

  lemma {:induction false} AnnounceStep(p: Proj, users: seq<User>, skip: SkipRules, k: nat, ids: Ids, sessions: Ids,
                     messages: seq<SyncMessage>)
    requires Ok(p) && DistinctUsers(users) && k < |users|
    requires Announcing(p, users, skip, k, ids, sessions, messages)
    requires skip.Skips(users[k]) || users[k].room == ROOT || users[k].room in p.rooms
    ensures var u := users[k]; var ids' := ChannelInserted(ids, u.room); var sessions' := Inserted(sessions, u.id);
      if skip.Skips(u) then Announcing(p, users, skip, k + 1, ids, sessions, messages)
      else
        && u.id in sessions'.fwd && u.room in ids'.fwd && (u.id in p.users ==> p.users[u.id].id == u.id)
        && (u.id in sessions.fwd <==> u.id in p.sessions.fwd)
        && Announcing(p, users, skip, k + 1, ids', sessions',
                      if SameUser(p, u) then messages
                      else messages + [UserState(sessions'.fwd[u.id], UserRecord(u, ids'))])
  {
    hide UsersSent, Ok, SameUser, UserRecord;
    KeptOneMore(users, skip, k);
    hide KeptRoster, DistinctUsers;
    var done := KeptRoster(users[..k], skip);
    var q := p.(users := p.users + done, channels := ids, sessions := sessions);
    if !skip.Skips(users[k]) {
      UserStep(p, done, q, messages, users[k]);
      OldUsersKeyed(p, done, q, messages, users[k]);
    }
  }

  lemma {:induction false} OldUsersKeyed(p: Proj, done: Roster, q: Proj, messages: seq<SyncMessage>, u: User)
    requires Ok(p) && UsersSent(p, done, q, messages) && u.id !in done
    ensures u.id in p.users ==> p.users[u.id].id == u.id
    ensures u.id in q.sessions.fwd <==> u.id in p.sessions.fwd
  {
    hide ViewOf, Carried;
  }

  /** A user is sent when they have no session yet, fell out of the cached roster, or differ from it. */
  predicate UserChanged(hasSession: bool, oldUsers: Roster, u: User)
    requires u.id in oldUsers ==> oldUsers[u.id].id == u.id
    ensures UserChanged(hasSession, oldUsers, u) <==> !(hasSession && u.id in oldUsers && oldUsers[u.id] == u)
  {
    !hasSession || u.id !in oldUsers ||
    oldUsers[u.id].name != u.name || oldUsers[u.id].room != u.room ||
    oldUsers[u.id].muted != u.muted || oldUsers[u.id].deafened != u.deafened
  }

  method LookUpUser(channels: ChannelMap, users: UserMap, oldUsers: Roster, u: User)
    returns (changed: bool, m: SyncMessage)
    requires channels.Valid() && users.Valid() && (u.id in oldUsers ==> oldUsers[u.id].id == u.id)
    modifies channels, users
    ensures channels.Valid() && channels.Abs() == ChannelInserted(old(channels.Abs()), u.room)
    ensures users.Valid() && users.Abs() == Inserted(old(users.Abs()), u.id)
    ensures changed <==> !(old(u.id in users.fwd) && u.id in oldUsers && oldUsers[u.id] == u)
    ensures u.id in users.fwd && m == UserState(users.fwd[u.id], UserRecord(u, channels.Abs()))
  {
    hide ChannelIds, SessionIds;
    var channelId := channels.GetOrInsert(u.room);
    changed := UserChanged(u.id in users.fwd, oldUsers, u);
    var session := users.GetOrInsert(u.id);
    m := UserState(session, Occupant(u.name, Some(channelId), u.muted, u.deafened));
  }

  /** Announces every user that is new or changed, giving new users fresh proxy sessions. */
  method SyncUsers(oldUsers: Roster, newUsers: seq<User>, channels: ChannelMap, users: UserMap, skip: SkipRules,
                   ghost p: Proj)
    returns (messages: seq<SyncMessage>, ghost shown: seq<nat>)
    requires Ok(p) && p.users == oldUsers && channels.Abs() == p.channels && users.Abs() == p.sessions
    requires DistinctUsers(newUsers)
    requires forall u :: u in newUsers && !skip.Skips(u) ==> u.room == ROOT || u.room in p.rooms
    modifies channels, users
    ensures channels.Valid() && users.Valid()
    ensures var done := KeptRoster(newUsers, skip);
      UsersSent(p, done, p.(users := oldUsers + done, channels := channels.Abs(), sessions := users.Abs()), messages)
    ensures ToldUsers(p, KeptRoster(newUsers, skip), channels.Abs(), users.Abs(), shown, messages)
  {
    messages, shown := [], [];
    AnnounceStart(p, newUsers, skip);
    NobodyTold(p, newUsers, skip);
    hide Ok, DistinctUsers, UsersSent, ChannelIds, SessionIds, Announcing, ShowingUsers, UserRecord, Inserted;
    hide ChannelInserted, KeptRoster;
    for k := 0 to |newUsers|
      invariant channels.Valid() && users.Valid()
      invariant Announcing(p, newUsers, skip, k, channels.Abs(), users.Abs(), messages)
      invariant ShowingUsers(p, newUsers, skip, k, channels.Abs(), users.Abs(), shown, messages)
    {
      var user := newUsers[k];
      AnnounceStep(p, newUsers, skip, k, channels.Abs(), users.Abs(), messages);
      AnnounceTells(p, newUsers, skip, k, channels.Abs(), users.Abs(), shown, messages);
      if !skip.Skips(user) {
        shown := if SameUser(p, user) then shown else shown + [user.id];
        var changed, m := LookUpUser(channels, users, oldUsers, user);
        if changed {
          messages := messages + [m];
        }
      }
    }
    AnnounceEnd(p, newUsers, skip, channels.Abs(), users.Abs(), messages);
    EverybodyTold(p, newUsers, skip, channels.Abs(), users.Abs(), shown, messages);
  }

  ghost predicate ShowingUsers(p: Proj, users: seq<User>, skip: SkipRules, k: nat, ids: Ids, sessions: Ids,
                               shown: seq<nat>, messages: seq<SyncMessage>)
  {
    k <= |users| && ToldUsers(p, KeptRoster(users[..k], skip), ids, sessions, shown, messages)
  }

  lemma {:induction false} NobodyTold(p: Proj, users: seq<User>, skip: SkipRules)
    ensures ShowingUsers(p, users, skip, 0, p.channels, p.sessions, [], [])
  {
    assert KeptRoster(users[..0], skip) == map[];
    assert ChangedUsers(p, map[]) == {} && Elems([]) == {};
  }

  lemma {:induction false} EverybodyTold(p: Proj, users: seq<User>, skip: SkipRules, ids: Ids, sessions: Ids,
                                         shown: seq<nat>, messages: seq<SyncMessage>)
    requires ShowingUsers(p, users, skip, |users|, ids, sessions, shown, messages)
    ensures ToldUsers(p, KeptRoster(users, skip), ids, sessions, shown, messages)
  {
    assert users[..|users|] == users;
  }

  lemma {:induction false} AnnounceTells(p: Proj, users: seq<User>, skip: SkipRules, k: nat, ids: Ids, sessions: Ids,
                                         shown: seq<nat>, messages: seq<SyncMessage>)
    requires Ok(p) && DistinctUsers(users) && k < |users|
    requires Announcing(p, users, skip, k, ids, sessions, messages)
    requires ShowingUsers(p, users, skip, k, ids, sessions, shown, messages)
    ensures var u := users[k]; var ids' := ChannelInserted(ids, u.room); var sessions' := Inserted(sessions, u.id);
      if skip.Skips(u) then ShowingUsers(p, users, skip, k + 1, ids, sessions, shown, messages)
      else
        && u.id in sessions'.fwd
        && if SameUser(p, u) then ShowingUsers(p, users, skip, k + 1, ids', sessions', shown, messages)
           else ShowingUsers(p, users, skip, k + 1, ids', sessions', shown + [u.id],
                             messages + [UserState(sessions'.fwd[u.id], UserRecord(u, ids'))])
  {
    hide UsersSent, Ok, SameUser, UserRecord, ToldUsers;
    KeptOneMore(users, skip, k);
    hide KeptRoster, DistinctUsers;
    var u := users[k];
    if !skip.Skips(u) {
      var done := KeptRoster(users[..k], skip);
      SentShowsUsersAlike(p, done, ids, sessions, messages, u);
      hide Inserted, ChannelInserted;
      TellUser(p, done, ids, sessions, ChannelInserted(ids, u.room), Inserted(sessions, u.id), shown, messages, u);
    }
  }

  lemma {:induction false} SentShowsUsersAlike(p: Proj, done: Roster, ids: Ids, sessions: Ids, messages: seq<SyncMessage>,
                                               u: User)
    requires UsersSent(p, done, p.(users := p.users + done, channels := ids, sessions := sessions), messages)
    ensures UsersShownAlike(done, ids, sessions, ChannelInserted(ids, u.room), Inserted(sessions, u.id))
    ensures u.id in Inserted(sessions, u.id).fwd
  {
    hide UsersSent, ChannelIds, ChannelInserted, Inserted, UsersShownAlike;
    UsersSentRooms(p, done, ids, sessions, messages);
    InsertKeepsIds(ids, u.room);
    InsertKeepsSessions(sessions, u.id);
    GrownShowsUsersAlike(done, ids, sessions, ChannelInserted(ids, u.room), Inserted(sessions, u.id));
  }

  lemma {:induction false} InsertKeepsSessions(m: Ids, k: nat)
    ensures k in Inserted(m, k).fwd
    ensures forall j :: j in m.fwd ==> j in Inserted(m, k).fwd && Inserted(m, k).fwd[j] == m.fwd[j]
  {
  }

  lemma {:induction false} GrownShowsUsersAlike(done: Roster, ids: Ids, sessions: Ids, ids': Ids, sessions': Ids)
    requires forall i :: i in done ==> done[i].room in ids.fwd && i in sessions.fwd
    requires forall k :: k in ids.fwd ==> k in ids'.fwd && ids'.fwd[k] == ids.fwd[k]
    requires forall i :: i in sessions.fwd ==> i in sessions'.fwd && sessions'.fwd[i] == sessions.fwd[i]
    ensures UsersShownAlike(done, ids, sessions, ids', sessions')
  {
  }

  lemma {:induction false} InsertKeepsIds(ids: Ids, u: Uuid)
    requires ChannelIds(ids)
    ensures forall k :: k in ids.fwd ==> k in ChannelInserted(ids, u).fwd && ChannelInserted(ids, u).fwd[k] == ids.fwd[k]
  {
  }

  lemma {:induction false} UsersSentRooms(p: Proj, done: Roster, ids: Ids, sessions: Ids, messages: seq<SyncMessage>)
    requires UsersSent(p, done, p.(users := p.users + done, channels := ids, sessions := sessions), messages)
    ensures ChannelIds(ids) && forall i :: i in done ==> done[i].room in ids.fwd && i in sessions.fwd
  {
    hide Carried, ViewOf, Rooted, AllSameUsers, Grows, NeverReissues, ChannelIds, SessionIds;
    forall i | i in done ensures done[i].room in ids.fwd && i in sessions.fwd {
      assert (p.users + done)[i] == done[i];
    }
  }

  lemma {:induction false} AnnounceEnd(p: Proj, users: seq<User>, skip: SkipRules, ids: Ids, sessions: Ids,
                                       messages: seq<SyncMessage>)
    requires Announcing(p, users, skip, |users|, ids, sessions, messages)
    ensures var done := KeptRoster(users, skip);
      UsersSent(p, done, p.(users := p.users + done, channels := ids, sessions := sessions), messages)
  {
    hide UsersSent;
    assert users[..|users|] == users;
  }

  // ---- Channels: removals

  /** The rooms in `gone` lost their channel, and clients have been told. */
  ghost predicate Dropped(p: Proj, gone: set<Uuid>, ids: Ids, messages: seq<SyncMessage>) {
    var q := p.(rooms := p.rooms - gone, channels := ids);
    && Ok(q) && ids.next == p.channels.next && ids.fwd == p.channels.fwd - gone
    && Carried(p, messages, q)
  }

  lemma {:induction false} DropStep(p: Proj, gone: set<Uuid>, ids: Ids, messages: seq<SyncMessage>, u: Uuid)
    requires Dropped(p, gone, ids, messages)
    requires u in p.channels.fwd && u !in gone && u != ROOT
    requires Vacant(p.(rooms := p.rooms - gone, channels := ids), u)
    ensures u in ids.fwd && Dropped(p, gone + {u}, Removed(ids, u), messages + [ChannelRemove(ids.fwd[u])])
  {
    hide ViewOf, WellPlaced, Carried, Apply, Vacant, ChannelIds, Rooted, UsersOk, Moves, HeldView;
    var q := p.(rooms := p.rooms - gone, channels := ids);
    var q' := p.(rooms := p.rooms - (gone + {u}), channels := Removed(ids, u));
    assert q.rooms - {u} == q'.rooms;
    DropRoomPlaced(q, u);
    DropRoomMoves(p.rooms, q, u);
    DroppedRooted(q.rooms, u) by { VacantHasNoKids(q, u); }
    hide Located;
    CarriedOneMore(p, messages, q, ChannelRemove(ids.fwd[u]), q');
    assert Removed(ids, u).fwd == p.channels.fwd - (gone + {u});
  }

  lemma {:induction false} DropRoomMoves(t: RoomTable, q: Proj, u: Uuid)
    requires Located(q.rooms, q.channels) && UsersOk(q) && u in q.channels.fwd && u != ROOT && Vacant(q, u)
    ensures Moves(t, q, ChannelRemove(q.channels.fwd[u]), q.(rooms := q.rooms - {u}, channels := Removed(q.channels, u)))
  {
    hide HeldView, Holds, Apply, Located, UsersOk, Vacant;
    forall h | Holds(h, t)
      ensures Apply(HeldView(h, q), ChannelRemove(q.channels.fwd[u]))
           == HeldView(h, q.(rooms := q.rooms - {u}, channels := Removed(q.channels, u)))
    {
      DropRoom(h, q, u);
    }
  }

  lemma {:induction false} VacantHasNoKids(p: Proj, u: Uuid)
    requires Vacant(p, u)
    ensures forall w :: w in p.rooms && w != ROOT ==> p.rooms[w].parent != u
  {
  }

  /** Rooms of the new state, plus the old Root when the new state lists none: Root is never removed. */
  function SettledRooms(oldRooms: RoomTable, newRooms: RoomTable): RoomTable {
    if ROOT in oldRooms && ROOT !in newRooms then newRooms[ROOT := oldRooms[ROOT]] else newRooms
  }

  ghost predicate DepthsOf(t: RoomTable, depth: map<Uuid, nat>) {
    forall u :: u in depth ==> depth[u] == CappedDepth(t, u)
  }

  /** Once everything deeper has gone, a vanished room has no child left and nobody in it. */
  lemma {:induction false} DeepestIsVacant(oldRooms: RoomTable, newRooms: RoomTable, q: Proj, u: Uuid)
    requires Ok(q) && Rooted(oldRooms) && Rooted(newRooms)
    requires u !in newRooms && u != ROOT
    requires forall w :: w in q.rooms ==>
      if w in newRooms then q.rooms[w] == newRooms[w]
      else w in oldRooms && q.rooms[w] == oldRooms[w] && (w != ROOT ==> NotDeeper(oldRooms, w, u))
    requires forall i :: i in q.users && i in q.sessions.fwd ==> q.users[i].room == ROOT || q.users[i].room in newRooms
    ensures Vacant(q, u)
  {
    hide Ok;
    forall w | w in q.rooms && w != ROOT ensures q.rooms[w].parent != u {
      if w in newRooms {
        ParentsListed(newRooms);
      } else {
        var n: nat :| AtDepth(oldRooms, w, n);
        assert AtDepth(oldRooms, oldRooms[w].parent, n - 1);
      }
    }
  }

  /**
   Removes every room that vanished, deepest in the old tree first, then by channel id; Root stays.
   */
  method PruneChannels(oldRooms: RoomTable, newIds: set<Uuid>, channels: ChannelMap, ghost p: Proj,
                       ghost newRooms: RoomTable)
    returns (messages: seq<SyncMessage>, ghost dropped: seq<Uuid>)
    requires Ok(p) && channels.Abs() == p.channels && newIds == newRooms.Keys
    requires Rooted(oldRooms) && Rooted(newRooms) && p.rooms == oldRooms + newRooms
    requires forall i :: i in p.users && i in p.sessions.fwd ==> p.users[i].room == ROOT || p.users[i].room in newRooms
    modifies channels
    ensures channels.Valid()
    ensures Dropped(p, old(channels.fwd).Keys - newIds - {ROOT}, channels.Abs(), messages)
    ensures Lists(dropped, old(channels.fwd).Keys - newIds - {ROOT}) && messages == ChannelRemoves(p.channels, dropped)
    ensures RemovalSorted(oldRooms, p.channels.fwd, dropped)
    ensures messages == [] <==> old(channels.fwd).Keys <= newIds + {ROOT}
  {
    var order := RemovalOrder(oldRooms, newIds, channels);
    dropped := order;
    messages := [];
    DroppingStart(p, order);
    hide Ok, Carried, ViewOf, Rooted, ChannelIds, Dropping, RemovalSorted, Removed, NoRepeats, Elems;
    for k := 0 to |order|
      invariant channels.Valid() && Dropping(p, order, k, channels.Abs(), messages)
    {
      DroppingStep(p, oldRooms, newRooms, order, k, channels.Abs(), messages);
      var channelId := channels.fwd[order[k]];
      channels.RemoveByUuid(order[k]);
      messages := messages + [ChannelRemove(channelId)];
    }
    DroppingEnd(p, order, channels.Abs(), messages);
  }

  /** Deeper in the old tree first; at one depth, the lower channel id first. */
  ghost predicate RemovalSorted(t: RoomTable, ids: map<Uuid, nat>, order: seq<Uuid>) {
    forall i, j :: 0 <= i < j < |order| ==>
      CappedDepth(t, order[i]) > CappedDepth(t, order[j])
      || (CappedDepth(t, order[i]) == CappedDepth(t, order[j])
          && order[i] in ids && order[j] in ids && ids[order[i]] <= ids[order[j]])
  }

  method RemovalOrder(oldRooms: RoomTable, newIds: set<Uuid>, channels: ChannelMap) returns (order: seq<Uuid>)
    ensures NoRepeats(order) && Elems(order) == channels.fwd.Keys - newIds - {ROOT}
    ensures RemovalSorted(oldRooms, channels.fwd, order)
  {
    var gone := channels.fwd.Keys - newIds - {ROOT};
    var depth := DepthMap(oldRooms, gone);
    hide CappedDepth;
    var key: map<nat, (int, int)> := map u | u in gone && u in channels.fwd :: (0 - depth[u] as int, channels.fwd[u]);
    order := SortedBy(gone, key);
    forall i, j | 0 <= i < j < |order|
      ensures order[i] in depth && order[j] in depth && order[i] in channels.fwd && order[j] in channels.fwd
      ensures depth[order[i]] > depth[order[j]]
              || (depth[order[i]] == depth[order[j]] && channels.fwd[order[i]] <= channels.fwd[order[j]])
    {
      assert order[i] in key && order[j] in key && Leq(key[order[i]], key[order[j]]);
    }
  }

  ghost predicate Dropping(p: Proj, order: seq<Uuid>, k: nat, ids: Ids, messages: seq<SyncMessage>) {
    k <= |order| && Dropped(p, Elems(order[..k]), ids, messages) && messages == ChannelRemoves(p.channels, order[..k])
  }

  lemma {:induction false} DroppingStart(p: Proj, order: seq<Uuid>)
    requires Ok(p)
    ensures Dropping(p, order, 0, p.channels, []) && ChannelIds(p.channels)
  {
    hide Carried, ViewOf;
    CarriedNothing(p);
    assert Elems(order[..0]) == {};
    assert p.rooms - {} == p.rooms && p.channels.fwd - {} == p.channels.fwd;
  }

  lemma {:induction false} DroppingStep(p: Proj, oldRooms: RoomTable, newRooms: RoomTable, order: seq<Uuid>, k: nat,
                                        ids: Ids, messages: seq<SyncMessage>)
    requires Ok(p) && Rooted(oldRooms) && Rooted(newRooms) && p.rooms == oldRooms + newRooms
    requires forall i :: i in p.users && i in p.sessions.fwd ==> p.users[i].room == ROOT || p.users[i].room in newRooms
    requires NoRepeats(order) && Elems(order) == p.channels.fwd.Keys - newRooms.Keys - {ROOT}
    requires RemovalSorted(oldRooms, p.channels.fwd, order) && k < |order|
    requires Dropping(p, order, k, ids, messages)
    ensures order[k] in ids.fwd
    ensures Dropping(p, order, k + 1, Removed(ids, order[k]), messages + [ChannelRemove(ids.fwd[order[k]])])
  {
    hide Ok, Rooted, RemovalSorted, ChannelRemoves;
    VacantNow(p, oldRooms, newRooms, order, k, ids, messages);
    assert order[k] in Elems(order);
    TakeOneMore(order, k);
    DropTold(p, order, k, ids, messages);
    hide Dropped, Elems;
    DropStep(p, Elems(order[..k]), ids, messages, order[k]);
  }

  /** The next room still has the channel it began with. */
  lemma {:induction false} DropTold(p: Proj, order: seq<Uuid>, k: nat, ids: Ids, messages: seq<SyncMessage>)
    requires k < |order| && Dropped(p, Elems(order[..k]), ids, messages)
    requires order[k] in p.channels.fwd && order[k] !in Elems(order[..k])
    ensures order[k] in ids.fwd
    ensures ChannelRemoves(p.channels, order[..k + 1])
         == ChannelRemoves(p.channels, order[..k]) + [ChannelRemove(ids.fwd[order[k]])]
  {
    hide Ok, Carried, ViewOf;
  }

  lemma {:induction false} DroppingEnd(p: Proj, order: seq<Uuid>, ids: Ids, messages: seq<SyncMessage>)
    requires Dropping(p, order, |order|, ids, messages)
    ensures Dropped(p, Elems(order), ids, messages) && messages == ChannelRemoves(p.channels, order)
    ensures messages == [] <==> Elems(order) == {}
  {
    hide Dropped;
    assert order[..|order|] == order;
    if order != [] {
      assert order[0] in Elems(order);
    }
  }

  method DepthMap(t: RoomTable, us: set<Uuid>) returns (depth: map<Uuid, nat>)
    ensures depth.Keys == us && DepthsOf(t, depth)
  {
    depth := map[];
    var rest := us;
    while rest != {}
      invariant rest <= us && depth.Keys == us - rest && DepthsOf(t, depth)
    {
      var u :| u in rest;
      var d := OldDepth(u, t);
      hide CappedDepth;
      depth := depth[u := d];
      rest := rest - {u};
    }
  }

  lemma {:induction false} VacantNow(p: Proj, oldRooms: RoomTable, newRooms: RoomTable, order: seq<Uuid>, k: nat, ids: Ids,
                  messages: seq<SyncMessage>)
    requires Ok(p) && Rooted(oldRooms) && Rooted(newRooms) && p.rooms == oldRooms + newRooms
    requires forall i :: i in p.users && i in p.sessions.fwd ==> p.users[i].room == ROOT || p.users[i].room in newRooms
    requires Elems(order) == p.channels.fwd.Keys - newRooms.Keys - {ROOT}
    requires RemovalSorted(oldRooms, p.channels.fwd, order) && k < |order|
    requires Dropped(p, Elems(order[..k]), ids, messages)
    ensures Vacant(p.(rooms := p.rooms - Elems(order[..k]), channels := ids), order[k])
  {
    var gone := Elems(order[..k]);
    var q := p.(rooms := p.rooms - gone, channels := ids);
    var u := order[k];
    assert u in Elems(order);
    hide Carried, Rooted, ChannelIds, UsersOk, RemovalSorted;
    forall w | w in q.rooms
      ensures if w in newRooms then q.rooms[w] == newRooms[w]
        else w in oldRooms && q.rooms[w] == oldRooms[w] && (w != ROOT ==> NotDeeper(oldRooms, w, u))
    {
      if w !in newRooms && w != ROOT {
        StillThere(p, newRooms, order, k, w);
        LaterIsNotDeeper(oldRooms, p.channels.fwd, order, k, w);
      }
    }
    hide Dropped, NotDeeper;
    DeepestIsVacant(oldRooms, newRooms, q, u);
  }

  lemma {:induction false} StillThere(p: Proj, newRooms: RoomTable, order: seq<Uuid>, k: nat, w: Uuid)
    requires Ok(p) && Elems(order) == p.channels.fwd.Keys - newRooms.Keys - {ROOT} && k <= |order|
    requires w in p.rooms - Elems(order[..k]) && w !in newRooms && w != ROOT
    ensures w in Elems(order) && w !in Elems(order[..k])
  {
    RoomsHaveChannels(p, w);
    hide Ok;
  }

  ghost predicate NotDeeper(t: RoomTable, w: Uuid, u: Uuid) {
    forall m: nat, n: nat :: AtDepth(t, u, m) && AtDepth(t, w, n) ==> n <= m
  }

  lemma {:induction false} LaterIsNotDeeper(t: RoomTable, ids: map<Uuid, nat>, order: seq<Uuid>, k: nat, w: Uuid)
    requires RemovalSorted(t, ids, order) && k < |order| && w in Elems(order) && w !in Elems(order[..k])
    ensures NotDeeper(t, w, order[k])
  {
    hide CappedDepth;
    var j :| 0 <= j < |order| && order[j] == w;
    assert forall x :: 0 <= x < k ==> order[..k][x] == order[x];
    forall m: nat, n: nat | AtDepth(t, order[k], m) && AtDepth(t, w, n) ensures n <= m {
      CappedIsDepth(t, order[k], m);
      CappedIsDepth(t, w, n);
    }
  }

  // ---- The whole diff

  ghost function Projected(rooms: seq<Room>, users: seq<User>, channels: Ids, sessions: Ids): Proj {
    Proj(Table(rooms), RosterOf(users), channels, sessions)
  }

  /** What the server promises of a full state: distinct ids, every room below Root, every user in a listed room. */
  ghost predicate FullState(rooms: seq<Room>, users: seq<User>, skip: SkipRules) {
    && DistinctRooms(rooms) && Rooted(Table(rooms)) && DistinctUsers(users)
    && (forall u :: u in users && !skip.Skips(u) ==> u.room == ROOT || u.room in Table(rooms))
  }

  /** Nothing a client sees differs, and neither map holds anything stale. */
  ghost predicate UpToDate(p: Proj, rooms: seq<Room>, users: seq<User>, skip: SkipRules) {
    && p.sessions.fwd.Keys <= Announced(users, skip)
    && p.channels.fwd.Keys <= Table(rooms).Keys + {ROOT}
    && AllSame(p.rooms, Table(rooms))
    && AllSameUsers(p, KeptRoster(users, skip))
  }

  /** The roster may be exchanged for any other that agrees on the users with a session. */
  lemma {:induction false} RosterExchanged(q: Proj, users: seq<User>, skip: SkipRules, was: Roster)
    requires Ok(q) && DistinctUsers(users) && q.users == was + KeptRoster(users, skip)
    requires q.sessions.fwd.Keys == Announced(users, skip)
    ensures Ok(q.(users := RosterOf(users)))
    ensures UsersOf(RosterOf(users), q.channels, q.sessions) == UsersOf(q.users, q.channels, q.sessions)
    ensures forall i :: i in RosterOf(users) && i in q.sessions.fwd ==>
      RosterOf(users)[i] in users && !skip.Skips(RosterOf(users)[i])
  {
    hide Located, Rooted, RosterOf, KeptRoster, DistinctUsers;
    KeptIds(users, skip);
    var q' := q.(users := RosterOf(users));
    forall i ensures i in RosterOf(users) ==> RosterOf(users)[i].id == i {
      if i in RosterOf(users) {
        var k := RosterIndex(users, i);
      }
    }
    forall i | i in q.sessions.fwd
      ensures i in RosterOf(users) && i in q.users && RosterOf(users)[i] == q.users[i]
      ensures RosterOf(users)[i] in users && !skip.Skips(RosterOf(users)[i])
    {
      var k := KeptFrom(users, skip, i);
      RosterAt(users, k);
    }
    SameUsersOf(RosterOf(users), q.users, q.channels, q.sessions);
  }

  lemma {:induction false} SameUsersOf(a: Roster, b: Roster, ids: Ids, sessions: Ids)
    requires SessionIds(sessions)
    requires forall i :: i in sessions.fwd ==> (i in a <==> i in b) && (i in a ==> a[i] == b[i])
    ensures UsersOf(a, ids, sessions) == UsersOf(b, ids, sessions)
  {
    SameMap(UsersOf(a, ids, sessions), UsersOf(b, ids, sessions));
  }

  lemma {:induction false} DroppedReissuesNothing(a: Ids, b: Ids, c: Ids, d: Ids, gone: set<nat>)
    requires Grows(a, b) && Grows(b, c) && d.next == c.next && d.fwd == c.fwd - gone
    ensures NeverReissuesChannels(a, d)
  {
  }

  lemma {:induction false} AllSettled(oldRooms: RoomTable, newRooms: RoomTable, keys: set<Uuid>)
    requires oldRooms.Keys <= keys
    ensures (oldRooms + newRooms) - (keys - newRooms.Keys - {ROOT}) == SettledRooms(oldRooms, newRooms)
  {
  }

  lemma {:induction false} SameUsersAfterPruning(p: Proj, q: Proj, users: seq<User>, skip: SkipRules)
    requires p.users == q.users
    requires q.sessions.fwd == p.sessions.fwd - (p.sessions.fwd.Keys - Announced(users, skip))
    ensures AllSameUsers(q, KeptRoster(users, skip)) <==> AllSameUsers(p, KeptRoster(users, skip))
  {
    KeptIds(users, skip);
    hide KeptRoster, Announced;
    forall i | i in KeptRoster(users, skip)
      ensures SameUser(p, KeptRoster(users, skip)[i]) <==> SameUser(q, KeptRoster(users, skip)[i])
    {
      var k := KeptFrom(users, skip, i);
    }
  }

  lemma {:induction false} RosterUnseen(t: RoomTable, q: Proj, users: Roster)
    requires UsersOf(users, q.channels, q.sessions) == UsersOf(q.users, q.channels, q.sessions)
    ensures LooksAlike(t, q, q.(users := users))
  {
    hide UsersOf, ChannelsOf;
  }

  /** The kept Root is not the bridge's any more, but clients show it. */
  lemma {:induction false} SettledUnseen(oldRooms: RoomTable, q: Proj)
    ensures LooksAlike(oldRooms, q.(rooms := SettledRooms(oldRooms, q.rooms)), q)
  {
    hide ViewOf;
    forall h | Holds(h, oldRooms) ensures Hold(h, SettledRooms(oldRooms, q.rooms)) == Hold(h, q.rooms) {
      assert ROOT in oldRooms ==> Hold(h, oldRooms)[ROOT] == h[ROOT];
    }
  }

  /** Without the kept Root the state is as sound as with it. */
  lemma {:induction false} SettledOk(oldRooms: RoomTable, q: Proj)
    requires Ok(q.(rooms := SettledRooms(oldRooms, q.rooms))) && Rooted(q.rooms)
    ensures Ok(q)
  {
    ParentsListed(q.rooms);
    hide Rooted, ChannelIds, SessionIds;
    var s := SettledRooms(oldRooms, q.rooms);
    assert forall u :: u in q.rooms ==> u in s && s[u] == q.rooms[u];
    assert forall u :: u in s && u != ROOT ==> u in q.rooms;
    assert Located(s, q.channels);
    assert q.rooms.Keys <= s.Keys;
  }

  /** What clients of `t` come to hold at `b` does not depend on their having been at `a` in between. */
  ghost predicate Through(t: RoomTable, a: RoomTable, b: RoomTable) {
    forall h :: Holds(h, t) ==> Hold(Hold(h, a), b) == Hold(h, b)
  }

  lemma {:induction false} CarriedTrans(p: Proj, ms: seq<SyncMessage>, q: Proj, ns: seq<SyncMessage>, r: Proj)
    requires Carried(p, ms, q) && Carried(q, ns, r) && Through(p.rooms, q.rooms, r.rooms)
    ensures Carried(p, ms + ns, r)
  {
    hide Carries, ViewOf, Hold;
    forall h | Holds(h, p.rooms) ensures Carries(HeldView(h, p), ms + ns, HeldView(h, r)) {
      HoldTwice(h, q.rooms);
      CarriesTrans(HeldView(h, p), ms, HeldView(h, q), ns, HeldView(h, r));
    }
  }

  /** From the old rooms over both together to what is settled. */
  lemma {:induction false} SectionsThrough(t: RoomTable, s: RoomTable, gone: set<Uuid>)
    requires ROOT !in gone
    ensures Through(t, t, t + s) && Through(t, t + s, t + s) && Through(t, t + s, (t + s) - gone)
  {
    forall h | Holds(h, t) ensures Hold(Hold(h, t + s), t + s) == Hold(h, t + s) {
      HoldTwice(h, t + s);
    }
    forall h | Holds(h, t) ensures Hold(Hold(h, t + s), (t + s) - gone) == Hold(h, (t + s) - gone) {
      HoldThrough(h, t + s, (t + s) - gone);
    }
  }

  /**
   What the diff guarantees. A client that replays the messages, in order, goes over from what it held of the old state
   to what it then holds of the new one, and each message on the way is in order. The maps end up with exactly the users
   announced and the rooms listed, and no id ever stands for two things. Nothing is sent if and only if there is nothing
   to tell.
   */
  ghost predicate Reconciled(p: Proj, rooms: seq<Room>, users: seq<User>, skip: SkipRules, ids: Ids, sessions: Ids,
                             messages: seq<SyncMessage>)
  {
    && Ok(Projected(rooms, users, ids, sessions)) && Carried(p, messages, Projected(rooms, users, ids, sessions))
    && sessions.fwd.Keys == Announced(users, skip) && NeverReissues(p.sessions, sessions)
    && ids.fwd.Keys <= Table(rooms).Keys + {ROOT} && NeverReissuesChannels(p.channels, ids)
    && (messages == [] <==> UpToDate(p, rooms, users, skip))
  }

  /** The four sections of a diff: the states between them, and what each one promised. */
  ghost predicate Sections(p: Proj, rooms: seq<Room>, users: seq<User>, skip: SkipRules,
                           q1: Proj, m1: seq<SyncMessage>, q2: Proj, m2: seq<SyncMessage>,
                           q3: Proj, m3: seq<SyncMessage>, ids: Ids, m4: seq<SyncMessage>)
  {
    && Ok(p) && FullState(rooms, users, skip)
    && q1 == p.(sessions := q1.sessions) && q1.sessions.next == p.sessions.next
    && q1.sessions.fwd == p.sessions.fwd - (p.sessions.fwd.Keys - Announced(users, skip))
    && Ok(q1) && Carried(p, m1, q1)
    && (m1 == [] <==> p.sessions.fwd.Keys <= Announced(users, skip))
    && RoomsSent(q1, Table(rooms), q2, m2)
    && UsersSent(q2, KeptRoster(users, skip), q3, m3)
    && UsersOf(RosterOf(users), q3.channels, q3.sessions) == UsersOf(q3.users, q3.channels, q3.sessions)
    && Dropped(q3.(users := RosterOf(users)), q3.channels.fwd.Keys - Table(rooms).Keys - {ROOT}, ids, m4)
    && (m4 == [] <==> q3.channels.fwd.Keys <= Table(rooms).Keys + {ROOT})
  }

  lemma {:induction false} SectionsCarry(p: Proj, rooms: seq<Room>, users: seq<User>, skip: SkipRules,
                                         q1: Proj, m1: seq<SyncMessage>, q2: Proj, m2: seq<SyncMessage>,
                                         q3: Proj, m3: seq<SyncMessage>, ids: Ids, m4: seq<SyncMessage>)
    requires Sections(p, rooms, users, skip, q1, m1, q2, m2, q3, m3, ids, m4)
    ensures var q := Projected(rooms, users, ids, q3.sessions); Ok(q) && Carried(p, m1 + m2 + m3 + m4, q)
  {
    hide Ok, ViewOf, HeldView, Carried, FullState, AllSame, AllSameUsers, KeptRoster, RosterOf, Grows, NeverReissues;
    hide Announced, UsersOf, Through, LooksAlike, Rooted, Table, SettledRooms;
    RoomsListed(q3);
    AllSettled(p.rooms, Table(rooms), q3.channels.fwd.Keys) by { RoomsListed(q1); }
    var q := Projected(rooms, users, ids, q3.sessions);
    var r := q3.(users := RosterOf(users));
    var gone := q3.channels.fwd.Keys - Table(rooms).Keys - {ROOT};
    var settled := q.(rooms := SettledRooms(p.rooms, Table(rooms)));
    assert settled == r.(rooms := r.rooms - gone, channels := ids);
    SectionsThrough(p.rooms, Table(rooms), gone);
    FourCarry(p, m1, q1, m2, q2, m3, q3, r, m4, settled);
    SettledUnseen(p.rooms, q);
    CarriedAlike(p, m1 + m2 + m3 + m4, settled, q);
    SettledOk(p.rooms, q) by { StateRooted(rooms, users, skip); }
  }

  lemma {:induction false} StateRooted(rooms: seq<Room>, users: seq<User>, skip: SkipRules)
    requires FullState(rooms, users, skip)
    ensures Rooted(Table(rooms))
  {
  }

  lemma {:induction false} SectionsMaps(p: Proj, rooms: seq<Room>, users: seq<User>, skip: SkipRules,
                                        q1: Proj, m1: seq<SyncMessage>, q2: Proj, m2: seq<SyncMessage>,
                                        q3: Proj, m3: seq<SyncMessage>, ids: Ids, m4: seq<SyncMessage>)
    requires Sections(p, rooms, users, skip, q1, m1, q2, m2, q3, m3, ids, m4)
    ensures q3.sessions.fwd.Keys == Announced(users, skip) && NeverReissues(p.sessions, q3.sessions)
    ensures ids.fwd.Keys <= Table(rooms).Keys + {ROOT} && NeverReissuesChannels(p.channels, ids)
  {
    hide Ok, UsersOf, Carried, FullState, AllSame, AllSameUsers, KeptRoster, RosterOf, Announced, Table, Rooted;
    KeptIds(users, skip);
    DroppedReissuesNothing(p.channels, q2.channels, q3.channels, ids, q3.channels.fwd.Keys - Table(rooms).Keys - {ROOT});
    NeverReissuesTrans(p.sessions, q1.sessions, q3.sessions);
  }

  lemma {:induction false} SectionsSilent(p: Proj, rooms: seq<Room>, users: seq<User>, skip: SkipRules,
                                          q1: Proj, m1: seq<SyncMessage>, q2: Proj, m2: seq<SyncMessage>,
                                          q3: Proj, m3: seq<SyncMessage>, ids: Ids, m4: seq<SyncMessage>)
    requires Sections(p, rooms, users, skip, q1, m1, q2, m2, q3, m3, ids, m4)
    ensures m1 + m2 + m3 + m4 == [] <==> UpToDate(p, rooms, users, skip)
  {
    hide Ok, UsersOf, Carried, FullState, AllSame, AllSameUsers, KeptRoster, RosterOf, Announced, Table, Rooted;
    hide NeverReissues;
    SameUsersAfterPruning(p, q2, users, skip);
    SameGone(p.channels, q2.channels, q3.channels, Table(rooms));
    hide Grows;
  }

  /** The four sections joined: what they promise separately adds up to the whole diff. */
  lemma {:induction false} FourSections(p: Proj, rooms: seq<Room>, users: seq<User>, skip: SkipRules,
                                        q1: Proj, m1: seq<SyncMessage>, q2: Proj, m2: seq<SyncMessage>,
                                        q3: Proj, m3: seq<SyncMessage>, ids: Ids, m4: seq<SyncMessage>)
    requires Sections(p, rooms, users, skip, q1, m1, q2, m2, q3, m3, ids, m4)
    ensures Reconciled(p, rooms, users, skip, ids, q3.sessions, m1 + m2 + m3 + m4)
  {
    hide Sections, UpToDate, Ok, Carried, Announced, NeverReissues, NeverReissuesChannels, Table, RosterOf;
    SectionsCarry(p, rooms, users, skip, q1, m1, q2, m2, q3, m3, ids, m4);
    SectionsMaps(p, rooms, users, skip, q1, m1, q2, m2, q3, m3, ids, m4);
    SectionsSilent(p, rooms, users, skip, q1, m1, q2, m2, q3, m3, ids, m4);
  }

  lemma {:induction false} FourCarry(p: Proj, m1: seq<SyncMessage>, q1: Proj, m2: seq<SyncMessage>, q2: Proj,
                                     m3: seq<SyncMessage>, q3: Proj, r: Proj, m4: seq<SyncMessage>, s: Proj)
    requires Carried(p, m1, q1) && Carried(q1, m2, q2) && Carried(q2, m3, q3) && Carried(r, m4, s)
    requires q1.rooms == p.rooms && q3.rooms == q2.rooms && r == q3.(users := r.users)
    requires UsersOf(r.users, q3.channels, q3.sessions) == UsersOf(q3.users, q3.channels, q3.sessions)
    requires Through(p.rooms, p.rooms, q2.rooms) && Through(p.rooms, q2.rooms, q2.rooms)
    requires Through(p.rooms, q2.rooms, s.rooms)
    ensures Carried(p, m1 + m2 + m3 + m4, s)
  {
    hide Carried, UsersOf, Through, LooksAlike;
    CarriedTrans(p, m1, q1, m2, q2);
    CarriedTrans(p, m1 + m2, q2, m3, q3);
    RosterUnseen(p.rooms, q3, r.users);
    CarriedAlike(p, m1 + m2 + m3, q3, r);
    CarriedTrans(p, m1 + m2 + m3, r, m4, s);
  }

  lemma {:induction false} RoomsListed(p: Proj)
    requires Ok(p)
    ensures p.rooms.Keys <= p.channels.fwd.Keys && Rooted(p.rooms)
  {
  }

  /** Diffs the old state against a new full one, updating both maps in place. */
  method ReconcileServerState(oldRooms: seq<Room>, oldUsers: seq<User>, newRooms: seq<Room>, newUsers: seq<User>,
                              channels: ChannelMap, users: UserMap, skip: SkipRules)
    returns (messages: seq<SyncMessage>, removedUserIds: seq<nat>, ghost told: Told)
    requires Ok(Projected(oldRooms, oldUsers, channels.Abs(), users.Abs()))
    requires FullState(newRooms, newUsers, skip)
    modifies channels, users
    ensures channels.Valid() && users.Valid()
    ensures Reconciled(old(Projected(oldRooms, oldUsers, channels.Abs(), users.Abs())), newRooms, newUsers, skip,
                       channels.Abs(), users.Abs(), messages)
    ensures Exactly(told, old(Projected(oldRooms, oldUsers, channels.Abs(), users.Abs())), Table(newRooms),
                    KeptRoster(newUsers, skip), channels.Abs(), users.Abs(), messages)
    ensures forall h :: Holds(h, Table(oldRooms)) ==>
              var p := old(Projected(oldRooms, oldUsers, channels.Abs(), users.Abs()));
              Safe(HeldView(h, p), messages) <==> CachesKnow(p, Table(newRooms), KeptRoster(newUsers, skip))
    ensures users.fwd.Keys == set u | u in newUsers && Some(u.id) != skip.bridgeUser && u.id !in skip.virtualUsers
                                      && u.name !in skip.pendingNames :: u.id
    ensures forall m :: m in messages && m.UserState? ==>
              exists u :: u in newUsers && Some(u.id) != skip.bridgeUser && u.id !in skip.virtualUsers
                          && u.name !in skip.pendingNames && TellsUser(m, u, channels.Abs(), users.Abs())
    ensures told.removed == removedUserIds
    ensures forall i, j :: 0 <= i < j < |removedUserIds| ==> removedUserIds[i] < removedUserIds[j]
  {
    var oldRoomByUuid := Table(oldRooms);
    var oldUserById := RosterOf(oldUsers);
    ghost var p := Proj(oldRoomByUuid, oldUserById, channels.Abs(), users.Abs());
    RoomsListed(p);
    hide Ok, UsersOf, Carried, Table, RosterOf, Rooted, Grows, Removed, Announced, ChannelIds, SessionIds, Reconciled;
    hide DistinctRooms, DistinctUsers, KeptRoster, ToldRooms, ToldUsers, Lists, Exactly, UserRemoves, ChannelRemoves;
    hide RemovalSorted, NoRepeats;
    var userRemoves;
    userRemoves, removedUserIds := PruneUsers(newUsers, users, skip, p);
    ghost var q1 := p.(sessions := users.Abs());
    var channelStates, rooms := SyncChannels(oldRoomByUuid, newRooms, channels, q1);
    ghost var q2 := q1.(rooms := oldRoomByUuid + Table(newRooms), channels := channels.Abs());
    var userStates, shown := SyncUsers(oldUserById, newUsers, channels, users, skip, q2);
    ghost var q3 := Proj(q2.rooms, oldUserById + KeptRoster(newUsers, skip), channels.Abs(), users.Abs());
    AfterUsers(q1, q2, q3, newRooms, newUsers, skip, channelStates, userStates);
    ghost var r := q3.(users := RosterOf(newUsers));
    var channelRemoves, dropped := PruneChannels(oldRoomByUuid, Table(newRooms).Keys, channels, r, Table(newRooms));
    told := Told(removedUserIds, rooms, shown, dropped);
    SectionsTell(p, newRooms, newUsers, skip, q1, q2, q3, channels.Abs(), told, channelStates, userStates);
    hide RoomsSent, UsersSent, Dropped;
    FourSections(p, newRooms, newUsers, skip, q1, userRemoves, q2, channelStates, q3, userStates,
                 channels.Abs(), channelRemoves);
    messages := userRemoves + channelStates + userStates + channelRemoves;
    SafeIfKnown(p, newRooms, newUsers, skip, channels.Abs(), users.Abs(), told, messages);
    AnnouncedAre(newUsers, skip);
    OnlyAnnouncedTold(p, newRooms, newUsers, skip, channels.Abs(), users.Abs(), told, messages);
  }

  /** Who is announced: everyone listed but the bridge, its virtual users, and those whose registration is in flight. */
  lemma {:induction false} AnnouncedAre(users: seq<User>, skip: SkipRules)
    ensures Announced(users, skip) == set u | u in users && Some(u.id) != skip.bridgeUser && u.id !in skip.virtualUsers
                                              && u.name !in skip.pendingNames :: u.id
  {
  }

  /** The message shows user `u` under their session: their name, their room's channel, whether muted, whether deafened. */
  ghost predicate TellsUser(m: SyncMessage, u: User, ids: Ids, sessions: Ids) {
    && m.UserState? && u.id in sessions.fwd && m.session == sessions.fwd[u.id]
    && m.occupant.name == u.name && m.occupant.mute == u.muted && m.occupant.deaf == u.deafened
    && u.room in ids.fwd && m.occupant.channel == Some(ids.fwd[u.room])
  }

  /** Every UserState of the diff is about somebody who is announced, as listed. */
  lemma {:induction false} OnlyAnnouncedTold(p: Proj, rooms: seq<Room>, users: seq<User>, skip: SkipRules, ids: Ids,
                                             sessions: Ids, t: Told, messages: seq<SyncMessage>)
    requires Reconciled(p, rooms, users, skip, ids, sessions, messages) && DistinctUsers(users)
    requires Exactly(t, p, Table(rooms), KeptRoster(users, skip), ids, sessions, messages)
    ensures forall m :: m in messages && m.UserState? ==>
              exists u :: u in users && Some(u.id) != skip.bridgeUser && u.id !in skip.virtualUsers
                          && u.name !in skip.pendingNames && TellsUser(m, u, ids, sessions)
  {
    hide Carried, UpToDate, NeverReissues, NeverReissuesChannels, Lists, ChannelStates, Rooted, Announced, Located;
    RemovesCount(p.sessions, t.removed);
    TellsNoRemoval(Table(rooms), KeptRoster(users, skip), ids, sessions, t.rooms, t.users);
    forall m | m in messages && m.UserState?
      ensures exists u :: u in users && Some(u.id) != skip.bridgeUser && u.id !in skip.virtualUsers
                          && u.name !in skip.pendingNames && TellsUser(m, u, ids, sessions)
    {
      var ms := UserStates(KeptRoster(users, skip), ids, sessions, t.users);
      assert m in ms;
      var k :| 0 <= k < |ms| && ms[k] == m;
      var i := KeptFrom(users, skip, t.users[k]);
      ToldAsListed(rooms, users, skip, ids, sessions, i);
      assert TellsUser(m, users[i], ids, sessions);
    }
  }

  lemma {:induction false} ToldAsListed(rooms: seq<Room>, users: seq<User>, skip: SkipRules, ids: Ids, sessions: Ids, i: nat)
    requires i < |users| && DistinctUsers(users) && !skip.Skips(users[i])
    requires Ok(Projected(rooms, users, ids, sessions)) && sessions.fwd.Keys == Announced(users, skip)
    ensures var u := users[i];
            && u.id in sessions.fwd && u.room in ids.fwd
            && TellsUser(UserState(ChannelId(sessions, u.id), UserRecord(u, ids)), u, ids, sessions)
  {
    RosterAt(users, i);
    hide Located, Rooted, RosterOf;
  }

  /** For every client, each message of the diff is receivable exactly if the caches know what the diff removes. */
  lemma {:induction false} SafeIfKnown(p: Proj, rooms: seq<Room>, users: seq<User>, skip: SkipRules, ids: Ids,
                                       sessions: Ids, t: Told, messages: seq<SyncMessage>)
    requires Ok(p) && Reconciled(p, rooms, users, skip, ids, sessions, messages)
    requires Exactly(t, p, Table(rooms), KeptRoster(users, skip), ids, sessions, messages)
    ensures forall h :: Holds(h, p.rooms) ==>
              (Safe(HeldView(h, p), messages) <==> CachesKnow(p, Table(rooms), KeptRoster(users, skip)))
  {
    hide Carries, HeldView, Holds, KeptRoster, Announced, UpToDate, Exactly, NeverReissues, NeverReissuesChannels, Safe;
    hide Orderly, Ok, Table, CachesKnow, KnownAt, SameShape, ViewOf, RosterOf;
    SessionsValid(p);
    SessionsValid(Projected(rooms, users, ids, sessions));
    RoomsListed(Projected(rooms, users, ids, sessions));
    forall h | Holds(h, p.rooms)
      ensures Safe(HeldView(h, p), messages) <==> CachesKnow(p, Table(rooms), KeptRoster(users, skip))
    {
      HeldShape(h, p);
      RemovalsKnown(t, p, Table(rooms), KeptRoster(users, skip), ids, sessions, messages, HeldView(h, p));
      SafeIs(HeldView(h, p), messages);
      CarriesOrderly(HeldView(h, p), messages, HeldView(h, Projected(rooms, users, ids, sessions)));
    }
  }

  lemma {:induction false} CarriesOrderly(v: View, messages: seq<SyncMessage>, w: View)
    requires Carries(v, messages, w)
    ensures Orderly(v, messages)
  {
  }

  lemma {:induction false} AfterUsers(q1: Proj, q2: Proj, q3: Proj, rooms: seq<Room>, users: seq<User>, skip: SkipRules,
                   m2: seq<SyncMessage>, m3: seq<SyncMessage>)
    requires FullState(rooms, users, skip) && q1.sessions.fwd.Keys <= Announced(users, skip)
    requires RoomsSent(q1, Table(rooms), q2, m2) && UsersSent(q2, KeptRoster(users, skip), q3, m3)
    ensures var r := q3.(users := RosterOf(users));
      && Ok(r) && UsersOf(r.users, q3.channels, q3.sessions) == UsersOf(q3.users, q3.channels, q3.sessions)
      && (forall i :: i in r.users && i in r.sessions.fwd ==> r.users[i].room == ROOT || r.users[i].room in Table(rooms))
  {
    hide Ok, UsersOf, Carried, Grows, NeverReissues, Rooted, DistinctRooms, DistinctUsers;
    KeptIds(users, skip);
    RosterExchanged(q3, users, skip, q2.users);
  }

  lemma {:induction false} SameChanged(p: Proj, q: Proj, users: seq<User>, skip: SkipRules)
    requires p.users == q.users
    requires q.sessions.fwd == p.sessions.fwd - (p.sessions.fwd.Keys - Announced(users, skip))
    ensures ChangedUsers(q, KeptRoster(users, skip)) == ChangedUsers(p, KeptRoster(users, skip))
  {
    KeptIds(users, skip);
    hide KeptRoster, Announced;
    forall i | i in KeptRoster(users, skip)
      ensures SameUser(p, KeptRoster(users, skip)[i]) <==> SameUser(q, KeptRoster(users, skip)[i])
    {
      var k := KeptFrom(users, skip, i);
    }
  }

  /** The channel map grew by listed rooms only, so what is gone is what the old map had. */
  lemma {:induction false} SameGone(a: Ids, b: Ids, c: Ids, s: RoomTable)
    requires Grows(a, b) && Grows(b, c)
    requires b.fwd.Keys <= a.fwd.Keys + s.Keys + {ROOT} && c.fwd.Keys <= b.fwd.Keys + {ROOT}
    ensures Grows(a, c) && c.fwd.Keys - s.Keys - {ROOT} == a.fwd.Keys - s.Keys - {ROOT}
  {
    GrowsTrans(a, b, c);
  }

  lemma {:induction false} DropsAlike(a: Ids, c: Ids, dropped: seq<Uuid>)
    requires Grows(a, c) && forall u :: u in dropped ==> u in a.fwd
    ensures ChannelRemoves(c, dropped) == ChannelRemoves(a, dropped)
  {
  }

  /** Listed rooms look the same under the final ids. */
  lemma {:induction false} FinalRooms(t: RoomTable, s: RoomTable, b: Ids, c: Ids, ids: Ids)
    requires Located(t, b) && Rooted(s) && (forall u :: u in s ==> u in t && t[u] == s[u])
    requires ChannelIds(c) && Grows(b, c) && ids.fwd == c.fwd - (c.fwd.Keys - s.Keys - {ROOT})
    ensures ShownAlike(s, b, ids)
  {
    ParentsListed(s);
    GrownShowsAlike(s, t, b, c);
    hide Rooted, Grows, Located;
  }

  /** Announced users look the same under the final ids. */
  lemma {:induction false} FinalUsers(users: seq<User>, skip: SkipRules, s: RoomTable, c: Ids, sessions: Ids, ids: Ids)
    requires forall u :: u in users && !skip.Skips(u) ==> u.room == ROOT || u.room in s
    requires ids.fwd == c.fwd - (c.fwd.Keys - s.Keys - {ROOT})
    ensures UsersShownAlike(KeptRoster(users, skip), c, sessions, ids, sessions)
  {
    var kept := KeptRoster(users, skip);
    forall i | i in kept ensures UserRecord(kept[i], ids) == UserRecord(kept[i], c) {
      var k := KeptFrom(users, skip, i);
      hide KeptRoster;
    }
  }

  lemma {:induction false} RoomsSentFacts(p: Proj, s: RoomTable, q: Proj, messages: seq<SyncMessage>)
    requires RoomsSent(p, s, q, messages)
    ensures Located(q.rooms, q.channels) && q.rooms == p.rooms + s && q.users == p.users && q.sessions == p.sessions
    ensures Grows(p.channels, q.channels) && q.channels.fwd.Keys <= p.channels.fwd.Keys + s.Keys + {ROOT}
  {
    hide Carried, Located, Grows;
  }

  lemma {:induction false} UsersSentFacts(p: Proj, done: Roster, q: Proj, messages: seq<SyncMessage>)
    requires UsersSent(p, done, q, messages)
    ensures ChannelIds(q.channels)
    ensures Grows(p.channels, q.channels) && q.channels.fwd.Keys <= p.channels.fwd.Keys + {ROOT}
  {
    hide Carried, Grows, ChannelIds;
  }

  /** What each section told, restated in terms of the old state and the final ids. */
  lemma {:induction false} SectionsTell(p: Proj, rooms: seq<Room>, users: seq<User>, skip: SkipRules, q1: Proj, q2: Proj,
                                        q3: Proj, ids: Ids, t: Told, m2: seq<SyncMessage>, m3: seq<SyncMessage>)
    requires FullState(rooms, users, skip) && q1 == p.(sessions := q1.sessions)
    requires q1.sessions.fwd == p.sessions.fwd - (p.sessions.fwd.Keys - Announced(users, skip))
    requires RoomsSent(q1, Table(rooms), q2, m2) && ToldRooms(p.rooms, Table(rooms), q2.channels, t.rooms, m2)
    requires UsersSent(q2, KeptRoster(users, skip), q3, m3)
    requires ToldUsers(q2, KeptRoster(users, skip), q3.channels, q3.sessions, t.users, m3)
    requires Lists(t.removed, p.sessions.fwd.Keys - Announced(users, skip))
    requires Lists(t.dropped, q3.channels.fwd.Keys - Table(rooms).Keys - {ROOT})
    requires ids.fwd == q3.channels.fwd - (q3.channels.fwd.Keys - Table(rooms).Keys - {ROOT})
    ensures Exactly(t, p, Table(rooms), KeptRoster(users, skip), ids, q3.sessions,
                    UserRemoves(p.sessions, t.removed) + m2 + m3 + ChannelRemoves(q3.channels, t.dropped))
  {
    var s, kept := Table(rooms), KeptRoster(users, skip);
    RoomsSentFacts(q1, s, q2, m2);
    UsersSentFacts(q2, kept, q3, m3);
    hide RoomsSent, UsersSent, Grows, Located, Rooted, ChannelIds, DistinctRooms, DistinctUsers;
    KeptIds(users, skip);
    SameChanged(p, q2, users, skip);
    SameGone(p.channels, q2.channels, q3.channels, s);
    FinalRooms(q2.rooms, s, q2.channels, q3.channels, ids);
    FinalUsers(users, skip, s, q3.channels, q3.sessions, ids);
    hide FullState, Announced, KeptRoster, Table, ShownAlike, UsersShownAlike, ToldRooms, ToldUsers, Lists, Exactly;
    ToldRoomsAlike(p.rooms, s, q2.channels, ids, t.rooms, m2);
    ToldUsersAlike(q2, p, kept, q3.channels, q3.sessions, ids, t.users, m3);
    ListedIn(t.dropped, p.channels.fwd.Keys - s.Keys - {ROOT}, p.channels.fwd.Keys);
    DropsAlike(p.channels, q3.channels, t.dropped);
    FromSections(t, p, s, kept, ids, q3.sessions, m2, m3);
  }

  lemma {:induction false} ListedIn(list: seq<nat>, s: set<nat>, all: set<nat>)
    requires Lists(list, s) && s <= all
    ensures forall x :: x in list ==> x in all
  {
    forall x | x in list ensures x in all {
      assert x in Elems(list);
    }
  }
}
