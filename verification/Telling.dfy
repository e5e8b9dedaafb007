/** Exactly which messages a diff consists of: one for each thing that changed, and nothing else. */
module Telling {
  import opened Rooms
  import opened RoomWalk
  import opened IdMaps
  import opened ClientView
  import opened Projection

  ghost predicate SameRoom(t: RoomTable, r: Room) {
    r.id in t && t[r.id] == r
  }

  /** The user has a session and the cached roster has this record. */
  ghost predicate SameUser(p: Proj, u: User) {
    u.id in p.sessions.fwd && u.id in p.users && p.users[u.id] == u
  }

  ghost function ChangedRooms(old_: RoomTable, t: RoomTable): set<Uuid> {
    set u | u in t && !SameRoom(old_, t[u])
  }

  ghost function ChangedUsers(p: Proj, roster: Roster): set<nat> {
    set i | i in roster && !SameUser(p, roster[i])
  }

  function UserRemoves(sessions: Ids, removed: seq<nat>): seq<SyncMessage> {
    seq(|removed|, k requires 0 <= k < |removed| => UserRemove(ChannelId(sessions, removed[k])))
  }

  function ChannelStates(t: RoomTable, ids: Ids, told: seq<Uuid>): seq<SyncMessage>
    requires forall u :: u in told ==> u in t
  {
    seq(|told|, k requires 0 <= k < |told| => ChannelState(ChannelId(ids, told[k]), RoomRecord(t[told[k]], ids)))
  }

  function UserStates(roster: Roster, ids: Ids, sessions: Ids, shown: seq<nat>): seq<SyncMessage>
    requires forall i :: i in shown ==> i in roster
  {
    seq(|shown|, k requires 0 <= k < |shown| => UserState(ChannelId(sessions, shown[k]), UserRecord(roster[shown[k]], ids)))
  }

  function ChannelRemoves(ids: Ids, dropped: seq<Uuid>): seq<SyncMessage> {
    seq(|dropped|, k requires 0 <= k < |dropped| => ChannelRemove(ChannelId(ids, dropped[k])))
  }

  /** `list` names each element of `s` once. */
  ghost predicate Lists(list: seq<nat>, s: set<nat>) {
    NoRepeats(list) && Elems(list) == s
  }

  lemma {:induction false} ListsMember(list: seq<nat>, s: set<nat>, x: nat)
    requires Lists(list, s)
    ensures x in list <==> x in s
  {
    assert x in list <==> x in Elems(list);
  }

  lemma {:induction false} ListsOneMore(list: seq<nat>, s: set<nat>, x: nat)
    requires Lists(list, s) && x !in s
    ensures Lists(list + [x], s + {x})
  {
    ElemsConcat(list, [x]);
    assert Elems([x]) == {x};
  }

  // ---- Rooms

  /** The messages so far tell each changed room of `s`, once. */
  ghost predicate ToldRooms(old_: RoomTable, s: RoomTable, ids: Ids, told: seq<Uuid>, messages: seq<SyncMessage>) {
    && Lists(told, ChangedRooms(old_, s)) && (forall u :: u in told ==> u in s)
    && messages == ChannelStates(s, ids, told)
  }

  /** The two id maps show the rooms of `s` alike. */
  ghost predicate ShownAlike(s: RoomTable, ids: Ids, ids': Ids) {
    forall u :: u in s ==>
      s[u].id == u && ChannelId(ids', u) == ChannelId(ids, u)
      && (u == ROOT || ChannelId(ids', s[u].parent) == ChannelId(ids, s[u].parent))
  }

  lemma {:induction false} StatesAlike(s: RoomTable, s': RoomTable, ids: Ids, ids': Ids, told: seq<Uuid>)
    requires (forall u :: u in told ==> u in s) && (forall u :: u in s ==> u in s' && s'[u] == s[u])
    requires ShownAlike(s, ids, ids')
    ensures ChannelStates(s', ids', told) == ChannelStates(s, ids, told)
  {
    forall k | 0 <= k < |told| ensures ChannelStates(s', ids', told)[k] == ChannelStates(s, ids, told)[k] {
      assert told[k] in told;
    }
  }

  lemma {:induction false} GrownShowsAlike(s: RoomTable, t: RoomTable, ids: Ids, ids': Ids)
    requires Located(t, ids) && ChannelIds(ids') && Grows(ids, ids') && forall u :: u in s ==> u in t && t[u] == s[u]
    ensures ShownAlike(s, ids, ids')
  {
    forall u | u in s && u != ROOT ensures ChannelId(ids', s[u].parent) == ChannelId(ids, s[u].parent) {
      assert t[u].parent == ROOT || t[u].parent in t;
    }
  }

  lemma {:induction false} ChangedOneMore(old_: RoomTable, s: RoomTable, r: Room)
    requires r.id !in s
    ensures ChangedRooms(old_, s[r.id := r]) == ChangedRooms(old_, s) + if SameRoom(old_, r) then {} else {r.id}
  {
    var s' := s[r.id := r];
    assert forall u :: u in s ==> s'[u] == s[u];
  }

  /** One more room, told exactly if it changed. */
  lemma {:induction false} TellRoom(old_: RoomTable, s: RoomTable, ids: Ids, ids': Ids, told: seq<Uuid>,
                                    messages: seq<SyncMessage>, r: Room)
    requires ToldRooms(old_, s, ids, told, messages) && ShownAlike(s, ids, ids') && r.id !in s && r.id in ids'.fwd
    ensures var s' := s[r.id := r];
            if SameRoom(old_, r) then ToldRooms(old_, s', ids', told, messages)
            else ToldRooms(old_, s', ids', told + [r.id], messages + [ChannelState(ids'.fwd[r.id], RoomRecord(r, ids'))])
  {
    var s' := s[r.id := r];
    ChangedOneMore(old_, s, r);
    StatesAlike(s, s', ids, ids', told);
    hide ShownAlike, RoomRecord, SameRoom, ChangedRooms;
    if !SameRoom(old_, r) {
      assert r.id !in told;
      ListsOneMore(told, ChangedRooms(old_, s), r.id);
      hide Lists;
      assert ChannelStates(s', ids', told + [r.id])
          == ChannelStates(s', ids', told) + [ChannelState(ids'.fwd[r.id], RoomRecord(r, ids'))];
    }
  }

  // ---- Users

  /** The messages so far show each changed user of `done`, once. */
  ghost predicate ToldUsers(p: Proj, done: Roster, ids: Ids, sessions: Ids, shown: seq<nat>, messages: seq<SyncMessage>) {
    && Lists(shown, ChangedUsers(p, done)) && (forall i :: i in shown ==> i in done)
    && messages == UserStates(done, ids, sessions, shown)
  }

  ghost predicate UsersShownAlike(done: Roster, ids: Ids, sessions: Ids, ids': Ids, sessions': Ids) {
    forall i :: i in done ==>
      ChannelId(sessions', i) == ChannelId(sessions, i) && UserRecord(done[i], ids') == UserRecord(done[i], ids)
  }

  lemma {:induction false} UserStatesAlike(done: Roster, done': Roster, ids: Ids, sessions: Ids, ids': Ids, sessions': Ids,
                                           shown: seq<nat>)
    requires (forall i :: i in shown ==> i in done) && (forall i :: i in done ==> i in done' && done'[i] == done[i])
    requires UsersShownAlike(done, ids, sessions, ids', sessions')
    ensures UserStates(done', ids', sessions', shown) == UserStates(done, ids, sessions, shown)
  {
    forall k | 0 <= k < |shown|
      ensures UserStates(done', ids', sessions', shown)[k] == UserStates(done, ids, sessions, shown)[k]
    {
      assert shown[k] in shown;
    }
  }

  lemma {:induction false} ChangedUsersOneMore(p: Proj, done: Roster, u: User)
    requires u.id !in done
    ensures ChangedUsers(p, done[u.id := u]) == ChangedUsers(p, done) + if SameUser(p, u) then {} else {u.id}
  {
    var done' := done[u.id := u];
    assert forall i :: i in done ==> done'[i] == done[i];
  }

  /** One more user, shown exactly if they changed. */
  lemma {:induction false} TellUser(p: Proj, done: Roster, ids: Ids, sessions: Ids, ids': Ids, sessions': Ids,
                                    shown: seq<nat>, messages: seq<SyncMessage>, u: User)
    requires ToldUsers(p, done, ids, sessions, shown, messages)
    requires UsersShownAlike(done, ids, sessions, ids', sessions') && u.id !in done && u.id in sessions'.fwd
    ensures var done' := done[u.id := u];
            if SameUser(p, u) then ToldUsers(p, done', ids', sessions', shown, messages)
            else ToldUsers(p, done', ids', sessions', shown + [u.id],
                           messages + [UserState(sessions'.fwd[u.id], UserRecord(u, ids'))])
  {
    var done' := done[u.id := u];
    ChangedUsersOneMore(p, done, u);
    UserStatesAlike(done, done', ids, sessions, ids', sessions', shown);
    hide UsersShownAlike, UserRecord, SameUser, ChangedUsers;
    if !SameUser(p, u) {
      ListsOneMore(shown, ChangedUsers(p, done), u.id);
      hide Lists;
      assert UserStates(done', ids', sessions', shown + [u.id])
          == UserStates(done', ids', sessions', shown) + [UserState(sessions'.fwd[u.id], UserRecord(u, ids'))];
    }
  }

  // ---- The whole diff

  /** The four lists of a diff: who lost a session, which rooms and users were told, which rooms lost their channel. */
  datatype Told = Told(removed: seq<nat>, rooms: seq<Uuid>, users: seq<nat>, dropped: seq<Uuid>)

  ghost predicate Complete(t: Told, p: Proj, rooms: RoomTable, kept: Roster) {
    && Lists(t.removed, p.sessions.fwd.Keys - kept.Keys)
    && Lists(t.rooms, ChangedRooms(p.rooms, rooms)) && (forall u :: u in t.rooms ==> u in rooms)
    && Lists(t.users, ChangedUsers(p, kept)) && (forall i :: i in t.users ==> i in kept)
    && Lists(t.dropped, p.channels.fwd.Keys - rooms.Keys - {ROOT})
  }

  /**
   The diff from `p` is, in this order: one UserRemove per user that lost the session, one ChannelState per changed room,
   one UserState per changed user, one ChannelRemove per vanished room.
   */
  ghost predicate Exactly(t: Told, p: Proj, rooms: RoomTable, kept: Roster, ids: Ids, sessions: Ids,
                          messages: seq<SyncMessage>)
  {
    && Complete(t, p, rooms, kept)
    && messages == UserRemoves(p.sessions, t.removed) + ChannelStates(rooms, ids, t.rooms)
                   + UserStates(kept, ids, sessions, t.users) + ChannelRemoves(p.channels, t.dropped)
  }

  lemma {:induction false} ToldRoomsAlike(old_: RoomTable, s: RoomTable, ids: Ids, ids': Ids, told: seq<Uuid>,
                                          messages: seq<SyncMessage>)
    requires ToldRooms(old_, s, ids, told, messages) && ShownAlike(s, ids, ids')
    ensures ToldRooms(old_, s, ids', told, messages)
  {
    StatesAlike(s, s, ids, ids', told);
    hide ChannelStates, Lists, ChangedRooms, ShownAlike;
  }

  lemma {:induction false} ToldUsersAlike(q: Proj, p: Proj, kept: Roster, ids: Ids, sessions: Ids, ids': Ids,
                                          shown: seq<nat>, messages: seq<SyncMessage>)
    requires ToldUsers(q, kept, ids, sessions, shown, messages) && ChangedUsers(q, kept) == ChangedUsers(p, kept)
    requires UsersShownAlike(kept, ids, sessions, ids', sessions)
    ensures ToldUsers(p, kept, ids', sessions, shown, messages)
  {
    UserStatesAlike(kept, kept, ids, sessions, ids', sessions, shown);
    hide UserStates, Lists, ChangedUsers, UsersShownAlike;
  }

  lemma {:induction false} FromSections(t: Told, p: Proj, rooms: RoomTable, kept: Roster, ids: Ids, sessions: Ids,
                                        m2: seq<SyncMessage>, m3: seq<SyncMessage>)
    requires Lists(t.removed, p.sessions.fwd.Keys - kept.Keys)
    requires ToldRooms(p.rooms, rooms, ids, t.rooms, m2) && ToldUsers(p, kept, ids, sessions, t.users, m3)
    requires Lists(t.dropped, p.channels.fwd.Keys - rooms.Keys - {ROOT})
    ensures Exactly(t, p, rooms, kept, ids, sessions,
                    UserRemoves(p.sessions, t.removed) + m2 + m3 + ChannelRemoves(p.channels, t.dropped))
  {
    hide Lists, UserRemoves, ChannelRemoves, ChannelStates, UserStates, ChangedRooms, ChangedUsers;
  }

  /** As many messages as there are changes. */
  lemma {:induction false} AsManyAsChanged(t: Told, p: Proj, rooms: RoomTable, kept: Roster, ids: Ids, sessions: Ids,
                                           messages: seq<SyncMessage>)
    requires Exactly(t, p, rooms, kept, ids, sessions, messages)
    ensures |messages| == |p.sessions.fwd.Keys - kept.Keys| + |ChangedRooms(p.rooms, rooms)| + |ChangedUsers(p, kept)|
                          + |p.channels.fwd.Keys - rooms.Keys - {ROOT}|
  {
    ListSize(t.removed);
    ListSize(t.rooms);
    ListSize(t.users);
    ListSize(t.dropped);
  }

  lemma {:induction false} ListSize(list: seq<nat>)
    requires NoRepeats(list)
    ensures |Elems(list)| == |list|
    decreases |list|
  {
    if list != [] {
      var n := |list| - 1;
      assert list == list[..n] + [list[n]];
      ListSize(list[..n]);
      ElemsConcat(list[..n], [list[n]]);
      assert Elems([list[n]]) == {list[n]};
      assert list[n] !in Elems(list[..n]);
    } else {
      assert Elems(list) == {};
    }
  }

  // ---- Removals

  /** The caches know the users and rooms that a diff towards `rooms` and `kept` removes. */
  ghost predicate CachesKnow(p: Proj, rooms: RoomTable, kept: Roster) {
    && p.sessions.fwd.Keys - kept.Keys <= p.users.Keys
    && p.channels.fwd.Keys - rooms.Keys - {ROOT} <= p.rooms.Keys
  }

  /** The caches know everything the maps hold. */
  ghost predicate NoDrift(p: Proj) {
    p.sessions.fwd.Keys <= p.users.Keys && p.channels.fwd.Keys <= p.rooms.Keys + {ROOT}
  }

  /** Whatever the diff is towards, nothing it removes is unknown, exactly if the maps have not drifted from the caches. */
  lemma {:induction false} NoDriftKnows(p: Proj)
    ensures NoDrift(p) <==> forall rooms, kept :: CachesKnow(p, rooms, kept)
  {
    if forall rooms, kept :: CachesKnow(p, rooms, kept) {
      assert CachesKnow(p, map[], map[]);
    }
  }

  lemma {:induction false} RemovedSession(p: Proj, removed: seq<nat>, k: nat)
    requires SessionIds(p.sessions) && NoRepeats(removed) && Elems(removed) <= p.sessions.fwd.Keys && k < |removed|
    ensures var ms := UserRemoves(p.sessions, removed);
            !Mentions(ms[..k], ms[k]) && (Known(ViewOf(p), ms[k]) <==> removed[k] in p.users)
  {
    var ms := UserRemoves(p.sessions, removed);
    hide ChannelsOf;
    assert removed[k] in Elems(removed);
    forall x | x in ms[..k] ensures x.UserRemove? && x.session != ms[k].session {
      var j :| 0 <= j < k && x == ms[j];
      assert removed[j] in Elems(removed) && removed[j] != removed[k];
    }
  }

  lemma {:induction false} RemovedChannel(p: Proj, dropped: seq<Uuid>, k: nat)
    requires ChannelIds(p.channels) && NoRepeats(dropped) && k < |dropped|
    requires Elems(dropped) <= p.channels.fwd.Keys - {ROOT}
    ensures var ms := ChannelRemoves(p.channels, dropped);
            !Mentions(ms[..k], ms[k]) && (Known(ViewOf(p), ms[k]) <==> dropped[k] in p.rooms)
  {
    var ms := ChannelRemoves(p.channels, dropped);
    hide UsersOf;
    assert dropped[k] in Elems(dropped);
    forall x | x in ms[..k] ensures x.ChannelRemove? && x.channelId != ms[k].channelId {
      var j :| 0 <= j < k && x == ms[j];
      assert dropped[j] in Elems(dropped) && dropped[j] != dropped[k];
    }
  }

  /** Nothing that is told bears the channel of a room that goes. */
  lemma {:induction false} ToldAside(p: Proj, rooms: RoomTable, ids: Ids, told: seq<Uuid>, u: Uuid)
    requires ChannelIds(p.channels) && ChannelIds(ids) && NeverReissuesChannels(p.channels, ids)
    requires u in p.channels.fwd && u !in rooms && u != ROOT && forall w :: w in told ==> w in rooms
    requires rooms.Keys <= ids.fwd.Keys
    ensures !Mentions(ChannelStates(rooms, ids, told), ChannelRemove(p.channels.fwd[u]))
  {
    var ms := ChannelStates(rooms, ids, told);
    forall x | x in ms ensures x.channelId != p.channels.fwd[u] {
      var k :| 0 <= k < |ms| && x == ms[k];
      assert told[k] in rooms;
    }
  }

  lemma {:induction false} OthersAside(users: seq<SyncMessage>, channelId: nat)
    requires forall m :: m in users ==> m.UserRemove? || m.UserState?
    ensures !Mentions(users, ChannelRemove(channelId))
  {
  }

  lemma {:induction false} MentionsParts(a: seq<SyncMessage>, b: seq<SyncMessage>, m: SyncMessage)
    requires (m.UserRemove? || m.ChannelRemove?) && !Mentions(a, m) && !Mentions(b, m)
    ensures !Mentions(a + b, m)
  {
  }

  /** The parts of a diff, and what they cannot be. */
  lemma {:induction false} TellsNoRemoval(rooms: RoomTable, kept: Roster, ids: Ids, sessions: Ids, told: seq<Uuid>,
                                          shown: seq<nat>)
    requires (forall u :: u in told ==> u in rooms) && forall i :: i in shown ==> i in kept
    ensures forall m :: m in ChannelStates(rooms, ids, told) ==> m.ChannelState?
    ensures forall m :: m in UserStates(kept, ids, sessions, shown) ==> m.UserState?
  {
  }

  lemma {:induction false} UserKnownAt(t: Told, p: Proj, rooms: RoomTable, kept: Roster, ids: Ids, sessions: Ids,
                                       messages: seq<SyncMessage>, v: View, k: nat)
    requires SessionIds(p.sessions) && SameShape(v, ViewOf(p))
    requires Exactly(t, p, rooms, kept, ids, sessions, messages) && k < |t.removed|
    ensures k < |messages| && (KnownAt(v, messages, k) <==> t.removed[k] in p.users)
  {
    hide ViewOf, SameShape, SessionIds, Mentions, Known, NoRepeats, Elems;
    var a := UserRemoves(p.sessions, t.removed);
    assert messages[..k] == a[..k] && messages[k] == a[k];
    RemovedSession(p, t.removed, k);
    StillKnown(v, messages[..k], a[k]);
    ShapeDecides(v, ViewOf(p), a[k]);
  }

  lemma {:induction false} ToldKnownAt(t: Told, p: Proj, rooms: RoomTable, kept: Roster, ids: Ids, sessions: Ids,
                                       messages: seq<SyncMessage>, v: View, k: nat)
    requires Exactly(t, p, rooms, kept, ids, sessions, messages)
    requires |t.removed| <= k < |t.removed| + |t.rooms| + |t.users|
    ensures k < |messages| && KnownAt(v, messages, k)
  {
    hide NoRepeats, Elems, UserRemoves, ChannelRemoves;
    TellsNoRemoval(rooms, kept, ids, sessions, t.rooms, t.users);
    var a, cs, us := UserRemoves(p.sessions, t.removed), ChannelStates(rooms, ids, t.rooms),
      UserStates(kept, ids, sessions, t.users);
    assert |a| == |t.removed| && |cs| == |t.rooms| && |us| == |t.users| by {
      RemovesCount(p.sessions, t.removed);
    }
    hide ChannelStates, UserStates;
    if k < |a| + |cs| {
      assert messages[k] == cs[k - |a|] && cs[k - |a|] in cs;
    } else {
      assert messages[k] == us[k - |a| - |cs|] && us[k - |a| - |cs|] in us;
    }
  }

  lemma {:induction false} RemovesCount(m: Ids, list: seq<nat>)
    ensures |UserRemoves(m, list)| == |list| && |ChannelRemoves(m, list)| == |list|
    ensures forall x :: x in UserRemoves(m, list) ==> x.UserRemove?
  {
  }

  lemma {:induction false} ChannelKnownAt(t: Told, p: Proj, rooms: RoomTable, kept: Roster, ids: Ids, sessions: Ids,
                                          messages: seq<SyncMessage>, v: View, j: nat)
    requires ChannelIds(p.channels) && ChannelIds(ids) && SameShape(v, ViewOf(p))
    requires NeverReissuesChannels(p.channels, ids) && rooms.Keys <= ids.fwd.Keys
    requires Exactly(t, p, rooms, kept, ids, sessions, messages) && j < |t.dropped|
    ensures var k := |messages| - |t.dropped| + j;
            0 <= k < |messages| && (KnownAt(v, messages, k) <==> t.dropped[j] in p.rooms)
  {
    hide ViewOf, SameShape, ChannelIds, NeverReissuesChannels, Mentions, Known, NoRepeats, Elems, UserRemoves, ChannelStates;
    hide UserStates, ChannelRemoves;
    var a, cs := UserRemoves(p.sessions, t.removed), ChannelStates(rooms, ids, t.rooms);
    var us, d := UserStates(kept, ids, sessions, t.users), ChannelRemoves(p.channels, t.dropped);
    RemovesCount(p.sessions, t.removed);
    RemovesCount(p.channels, t.dropped);
    TellsNoRemoval(rooms, kept, ids, sessions, t.rooms, t.users);
    var k := |messages| - |d| + j;
    assert messages[..k] == a + cs + us + d[..j] && messages[k] == d[j];
    ListsMember(t.dropped, p.channels.fwd.Keys - rooms.Keys - {ROOT}, t.dropped[j]);
    RemovedChannel(p, t.dropped, j);
    DroppedIs(p.channels, t.dropped, j);
    ToldAside(p, rooms, ids, t.rooms, t.dropped[j]);
    OthersAside(a, p.channels.fwd[t.dropped[j]]);
    OthersAside(us, p.channels.fwd[t.dropped[j]]);
    MentionsParts(a, cs, d[j]);
    MentionsParts(a + cs, us, d[j]);
    MentionsParts(a + cs + us, d[..j], d[j]);
    StillKnown(v, messages[..k], d[j]);
    ShapeDecides(v, ViewOf(p), d[j]);
  }

  lemma {:induction false} DroppedIs(m: Ids, dropped: seq<Uuid>, j: nat)
    requires j < |dropped| && dropped[j] in m.fwd
    ensures ChannelRemoves(m, dropped)[j] == ChannelRemove(m.fwd[dropped[j]])
  {
  }

  lemma {:induction false} ListKnown(list: seq<nat>, s: set<nat>, known: set<nat>)
    requires Lists(list, s)
    ensures s <= known <==> forall j :: 0 <= j < |list| ==> list[j] in known
  {
    if forall j :: 0 <= j < |list| ==> list[j] in known {
      forall x | x in s ensures x in known {
        ListsMember(list, s, x);
        var j :| 0 <= j < |list| && list[j] == x;
      }
    }
    if s <= known {
      forall j | 0 <= j < |list| ensures list[j] in known {
        ListsMember(list, s, list[j]);
      }
    }
  }

  /** A removal of the diff names something its receiver has exactly if the cache knows it. */
  lemma {:induction false} RemovalsKnown(t: Told, p: Proj, rooms: RoomTable, kept: Roster, ids: Ids, sessions: Ids,
                                         messages: seq<SyncMessage>, v: View)
    requires SessionIds(p.sessions) && ChannelIds(p.channels) && ChannelIds(ids) && SameShape(v, ViewOf(p))
    requires NeverReissuesChannels(p.channels, ids) && rooms.Keys <= ids.fwd.Keys
    requires Exactly(t, p, rooms, kept, ids, sessions, messages)
    ensures (forall k: nat :: k < |messages| ==> KnownAt(v, messages, k)) <==> CachesKnow(p, rooms, kept)
  {
    hide ViewOf, SameShape, SessionIds, ChannelIds, NeverReissuesChannels, KnownAt, Lists, UserRemoves, ChannelRemoves;
    hide UserStates, ChannelStates;
    var a, b := |t.removed|, |messages| - |t.dropped|;
    MessageCount(t, p, rooms, kept, ids, sessions, messages);
    forall k: nat | k < a ensures KnownAt(v, messages, k) <==> t.removed[k] in p.users {
      UserKnownAt(t, p, rooms, kept, ids, sessions, messages, v, k);
    }
    forall k: nat | a <= k < b ensures KnownAt(v, messages, k) {
      ToldKnownAt(t, p, rooms, kept, ids, sessions, messages, v, k);
    }
    forall j: nat | j < |t.dropped| ensures KnownAt(v, messages, b + j) <==> t.dropped[j] in p.rooms {
      ChannelKnownAt(t, p, rooms, kept, ids, sessions, messages, v, j);
    }
    ListKnown(t.removed, p.sessions.fwd.Keys - kept.Keys, p.users.Keys);
    ListKnown(t.dropped, p.channels.fwd.Keys - rooms.Keys - {ROOT}, p.rooms.Keys);
    hide Exactly;
    AllKnown(t, p, v, messages);
  }

  lemma {:induction false} MessageCount(t: Told, p: Proj, rooms: RoomTable, kept: Roster, ids: Ids, sessions: Ids,
                                        messages: seq<SyncMessage>)
    requires Exactly(t, p, rooms, kept, ids, sessions, messages)
    ensures |messages| == |t.removed| + |t.rooms| + |t.users| + |t.dropped|
  {
  }

  lemma {:induction false} AllKnown(t: Told, p: Proj, v: View, messages: seq<SyncMessage>)
    requires |messages| >= |t.removed| + |t.dropped|
    requires forall k: nat :: k < |t.removed| ==> (KnownAt(v, messages, k) <==> t.removed[k] in p.users)
    requires forall k: nat :: |t.removed| <= k < |messages| - |t.dropped| ==> KnownAt(v, messages, k)
    requires forall j: nat :: j < |t.dropped| ==>
               (KnownAt(v, messages, |messages| - |t.dropped| + j) <==> t.dropped[j] in p.rooms)
    ensures (forall k: nat :: k < |messages| ==> KnownAt(v, messages, k))
       <==> (forall k :: 0 <= k < |t.removed| ==> t.removed[k] in p.users.Keys)
            && forall j :: 0 <= j < |t.dropped| ==> t.dropped[j] in p.rooms.Keys
  {
    hide KnownAt;
    var b := |messages| - |t.dropped|;
    if (forall k :: 0 <= k < |t.removed| ==> t.removed[k] in p.users.Keys)
       && forall j :: 0 <= j < |t.dropped| ==> t.dropped[j] in p.rooms.Keys {
      forall k: nat | k < |messages| ensures KnownAt(v, messages, k) {
        if k >= b {
          assert k == b + (k - b) && t.dropped[k - b] in p.rooms.Keys;
        }
      }
    } else if j :| 0 <= j < |t.dropped| && t.dropped[j] !in p.rooms.Keys {
      assert !KnownAt(v, messages, b + j);
    }
  }
}
