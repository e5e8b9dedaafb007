/** The full snapshot sent to a Mumble client that joins late: every channel, parents first, then every user. */
module LateJoin {
  import opened Options
  import opened Rooms
  import opened RoomWalk
  import opened IdMaps
  import opened ClientView
  import opened Projection
  import opened Reconcile

  /** A projection that shows no room and no user: its view is a made-up Root. */
  ghost function Blank(ids: Ids): Proj {
    Proj(map[], map[], ids, NO_SESSIONS)
  }

  const MADE_UP_ROOT := ChannelState(0, Channel(None, "Root", None))

  lemma {:induction false} BlankView(ids: Ids)
    requires ChannelIds(ids)
    ensures Ok(Blank(ids)) && ViewOf(Blank(ids)) == Replay(EMPTY, [MADE_UP_ROOT])
    ensures Carries(EMPTY, [MADE_UP_ROOT], ViewOf(Blank(ids)))
  {
    var v := ViewOf(Blank(ids));
    assert [MADE_UP_ROOT][..0] == [] && [MADE_UP_ROOT][..1] == [MADE_UP_ROOT];
    assert v.channels == map[0 := Channel(None, "Root", None)];
    assert ChannelAtDepth(v.channels, 0, 0);
  }

  /** A message that sets channel 0 hides whether a made-up Root was there before. */
  lemma {:induction false} RootFirst(ids: Ids, ms: seq<SyncMessage>)
    requires ChannelIds(ids) && ms != [] && ms[0].ChannelState? && ms[0].channelId == 0
    ensures Replay(EMPTY, ms) == Replay(ViewOf(Blank(ids)), ms)
    decreases |ms|
  {
    BlankView(ids);
    var n := |ms| - 1;
    if n > 0 {
      RootFirst(ids, ms[..n]);
    } else {
      assert ms[..0] == [];
    }
  }

  lemma {:induction false} RootFirstCarries(ids: Ids, ms: seq<SyncMessage>, w: View)
    requires ChannelIds(ids) && ms != [] && ms[0].ChannelState? && ms[0].channelId == 0
    requires Carries(ViewOf(Blank(ids)), ms, w)
    ensures Carries(EMPTY, ms, w)
  {
    RootFirst(ids, ms);
    forall k: nat | k < |ms| ensures OrderlyAt(EMPTY, ms, k) {
      assert OrderlyAt(ViewOf(Blank(ids)), ms, k);
      RootFirst(ids, ms[..k + 1]);
      if k > 0 {
        RootFirst(ids, ms[..k]);
      } else {
        assert ms[..0] == [];
      }
    }
  }

  method AssignIds(rooms: seq<Room>, channels: ChannelMap)
    requires channels.Valid()
    modifies channels
    ensures channels.Valid() && Grows(old(channels.Abs()), channels.Abs())
    ensures forall i :: 0 <= i < |rooms| ==> rooms[i].id in channels.fwd
    ensures (forall i :: 0 <= i < |rooms| ==> rooms[i].id in old(channels.fwd)) ==> channels.Abs() == old(channels.Abs())
  {
    hide ChannelIds, ChannelInserted;
    for i := 0 to |rooms|
      invariant channels.Valid() && Grows(old(channels.Abs()), channels.Abs())
      invariant forall j :: 0 <= j < i ==> rooms[j].id in channels.fwd
      invariant (forall j :: 0 <= j < |rooms| ==> rooms[j].id in old(channels.fwd)) ==> channels.Abs() == old(channels.Abs())
    {
      var id := channels.GetOrInsert(rooms[i].id);
    }
  }

  ghost predicate AllAssigned(rooms: seq<Room>, ids: Ids) {
    forall i :: 0 <= i < |rooms| ==> rooms[i].id in ids.fwd
  }

  ghost predicate StartsWithRoot(ms: seq<SyncMessage>) {
    ms != [] && ms[0].ChannelState? && ms[0].channelId == 0
  }

  /** The loop state after `k` rooms: nothing was there before, so every room walked has been sent. */
  ghost predicate Sending(rooms: seq<Room>, order: seq<nat>, k: nat, start: Ids, s: RoomTable, ids: Ids,
                          ms: seq<SyncMessage>)
  {
    && Syncing(Blank(start), rooms, order, k, s, ids, ms)
    && Grows(start, ids) && ids.fwd.Keys <= start.fwd.Keys + {ROOT}
    && (k > 0 && HasRoot(rooms) ==> StartsWithRoot(ms))
  }

  lemma {:induction false} SendStep(rooms: seq<Room>, order: seq<nat>, k: nat, start: Ids, s: RoomTable, ids: Ids,
                                    ms: seq<SyncMessage>)
    requires ChannelIds(start) && DistinctRooms(rooms) && NoRepeats(order) && ParentsFirst(rooms, order)
    requires AllAssigned(rooms, start)
    requires HasRoot(rooms) ==> order != [] && order[0] < |rooms| && rooms[order[0]].id == ROOT
    requires Sending(rooms, order, k, start, s, ids, ms) && k < |order|
    ensures order[k] < |rooms|
    ensures var r := rooms[order[k]]; var ids' := IdsFor(ids, r);
      && r.id in ids'.fwd
      && Sending(rooms, order, k + 1, start, s[r.id := r], ids', ms + [ChannelState(ids'.fwd[r.id], RoomRecord(r, ids'))])
  {
    BlankView(start);
    hide Ok, ViewOf, ParentsFirst, IdsFor, Syncing, HasRoot;
    SyncStep(Blank(start), rooms, order, k, s, ids, ms);
    SyncKeepsIds(rooms, order, k, start, s, ids, ms);
  }

  lemma {:induction false} SyncKeepsIds(rooms: seq<Room>, order: seq<nat>, k: nat, start: Ids, s: RoomTable, ids: Ids,
                                        ms: seq<SyncMessage>)
    requires DistinctRooms(rooms) && NoRepeats(order) && ParentsFirst(rooms, order)
    requires Syncing(Blank(start), rooms, order, k, s, ids, ms) && k < |order| && order[k] < |rooms|
    requires Grows(start, ids) && ids.fwd.Keys <= start.fwd.Keys + {ROOT} && AllAssigned(rooms, start)
    ensures var r := rooms[order[k]]; var ids' := IdsFor(ids, r);
      && Grows(start, ids') && ids'.fwd.Keys <= start.fwd.Keys + {ROOT}
      && (r.id == ROOT ==> r.id in ids'.fwd && ids'.fwd[r.id] == 0)
  {
    var r := rooms[order[k]];
    hide RoomsSent, Rooted;
    WalkedOneMore(rooms, order, k, s);
    hide WalkedPrefix, ParentsFirst, DistinctRooms, NoRepeats;
    SentLocated(start, s, ids, ms);
    hide Syncing, Located;
    IdsForRoom(s, ids, r);
    GrowsTrans(start, ids, IdsFor(ids, r));
  }

  lemma {:induction false} SentLocated(start: Ids, s: RoomTable, ids: Ids, ms: seq<SyncMessage>)
    requires RoomsSent(Blank(start), s, Blank(start).(rooms := Blank(start).rooms + s, channels := ids), ms)
    ensures Located(s, ids)
  {
    hide HeldView, Carried, Rooted, Located;
    assert map[] + s == s;
  }

  lemma {:induction false} SendStart(rooms: seq<Room>, order: seq<nat>, start: Ids)
    requires ChannelIds(start)
    ensures Sending(rooms, order, 0, start, map[], start, [])
  {
    BlankView(start);
    hide Ok, ViewOf;
    SyncStart(Blank(start), rooms, order);
  }

  /**
   Every channel, parents first. A client that knew nothing and replays the list holds exactly the rooms listed, each
   under its channel id, and each message on the way is safe.
   */
  method BuildChannelStates(rooms: seq<Room>, channels: ChannelMap) returns (states: seq<SyncMessage>)
    requires channels.Valid() && DistinctRooms(rooms) && Rooted(Table(rooms))
    modifies channels
    ensures channels.Valid() && Grows(old(channels.Abs()), channels.Abs())
    ensures Carries(EMPTY, states, View(ChannelsOf(Table(rooms), channels.Abs()), map[]))
    ensures forall m :: m in states ==> m.ChannelState?
    ensures AllAssigned(rooms, old(channels.Abs())) ==> channels.fwd.Keys <= old(channels.fwd).Keys + {ROOT}
  {
    hide Rooted, ParentsFirst, NoRepeats, DistinctRooms, ReachesRoot, ChannelIds, Carries, ChannelsOf;
    AssignIds(rooms, channels);
    ghost var was := old(channels.Abs());
    ghost var start := channels.Abs();
    var order := WalkFromRoot(rooms);
    states := [];
    ghost var s: RoomTable := map[];
    SendStart(rooms, order, start);
    var rootAt := FindRoot(rooms);
    hide Sending, Grows, HasRoot;
    for k := 0 to |order|
      invariant channels.Valid() && Sending(rooms, order, k, start, s, channels.Abs(), states)
      invariant forall m :: m in states ==> m.ChannelState?
    {
      SendStep(rooms, order, k, start, s, channels.Abs(), states);
      var room := rooms[order[k]];
      s := s[room.id := room];
      var channelId, parent := LookUp(channels, room);
      states := states + [ChannelState(channelId, Channel(parent, room.name, room.description))];
    }
    AllSentOut(rooms, order, start, s, channels.Abs(), states);
    GrowsTrans(was, start, channels.Abs());
    if rootAt == |rooms| {
      states := [MADE_UP_ROOT] + states;
    }
  }

  lemma {:induction false} AllSentOut(rooms: seq<Room>, order: seq<nat>, start: Ids, s: RoomTable, ids: Ids,
                                      states: seq<SyncMessage>)
    requires ChannelIds(start) && DistinctRooms(rooms) && Rooted(Table(rooms))
    requires forall i: nat :: i in order <==> i < |rooms| && ReachesRoot(Table(rooms), rooms[i].id)
    requires HasRoot(rooms) ==> order != []
    requires Sending(rooms, order, |order|, start, s, ids, states)
    ensures Grows(start, ids) && ids.fwd.Keys <= start.fwd.Keys + {ROOT}
    ensures Carries(EMPTY, if HasRoot(rooms) then states else [MADE_UP_ROOT] + states,
                    View(ChannelsOf(Table(rooms), ids), map[]))
  {
    hide Rooted, ReachesRoot, Syncing, HasRoot, Carries, ViewOf, Ok, Carried;
    AllSynced(Blank(start), rooms, order, s, ids, states);
    BlankCarries(start, Table(rooms), ids, states);
    BlankView(start);
    assert map[] + Table(rooms) == Table(rooms);
    var w := View(ChannelsOf(Table(rooms), ids), map[]);
    NobodyThere(Table(rooms), ids);
    hide ChannelsOf, Grows;
    if HasRoot(rooms) {
      RootFirstCarries(start, states, w);
    } else {
      CarriesTrans(EMPTY, [MADE_UP_ROOT], ViewOf(Blank(start)), states, w);
    }
  }

  /** A client that holds nothing shows exactly what is projected. */
  lemma {:induction false} BlankCarries(start: Ids, t: RoomTable, ids: Ids, states: seq<SyncMessage>)
    requires RoomsSent(Blank(start), t, Blank(start).(rooms := Blank(start).rooms + t, channels := ids), states)
    ensures Carries(ViewOf(Blank(start)), states, ViewOf(Proj(t, map[], ids, NO_SESSIONS)))
  {
    hide Carries, ViewOf, Ok, Grows, Rooted, AllSame;
    assert map[] + t == t;
    HoldTwice(map[], t);
    HoldTwice(map[], map[]);
    assert Holds(map[], Blank(start).rooms);
  }

  lemma {:induction false} NobodyThere(t: RoomTable, ids: Ids)
    ensures ViewOf(Proj(t, map[], ids, NO_SESSIONS)) == View(ChannelsOf(t, ids), map[])
  {
    assert UsersOf(map[], ids, NO_SESSIONS) == map[];
  }

  function BridgeOnly(bridgeUser: Option<nat>): SkipRules {
    SkipRules(bridgeUser, {}, {})
  }

  lemma {:induction false} OneMoreShown(users: seq<User>, skip: SkipRules, k: nat, ids: Ids, sessions: Ids)
    requires SessionIds(sessions) && DistinctUsers(users) && k < |users|
    ensures var a, b := KeptRoster(users[..k], skip), KeptRoster(users[..k + 1], skip);
      UsersOf(b, ids, sessions)
      == if skip.Skips(users[k]) || users[k].id !in sessions.fwd then UsersOf(a, ids, sessions)
         else UsersOf(a, ids, sessions)[sessions.fwd[users[k].id] := UserRecord(users[k], ids)]
  {
    KeptOneMore(users, skip, k);
    hide DistinctUsers, KeptRoster;
    var a, u := KeptRoster(users[..k], skip), users[k];
    if u.id in sessions.fwd {
      PutUserRecord(a, ids, sessions, u);
    } else {
      SameMap(UsersOf(a[u.id := u], ids, sessions), UsersOf(a, ids, sessions));
    }
  }

  lemma {:induction false} Overridden(v: View, ms: seq<SyncMessage>, us: map<nat, Occupant>, s: nat, o: Occupant)
    requires Replay(v, ms) == v.(users := v.users + us)
    ensures Replay(v, ms + [UserState(s, o)]) == v.(users := v.users + us[s := o])
  {
    ReplayOne(v, ms, UserState(s, o));
    assert (v.users + us)[s := o] == v.users + us[s := o];
  }

  /** The message shows one of the first `k` users that have a session, as the caches have them. */
  ghost predicate ShowsUser(m: SyncMessage, users: seq<User>, k: nat, ids: Ids, sessions: Ids) {
    exists i :: 0 <= i < k && i < |users| && users[i].id in sessions.fwd
                && m == UserState(sessions.fwd[users[i].id], UserRecord(users[i], ids))
  }

  lemma {:induction false} StillShowsUsers(states: seq<SyncMessage>, users: seq<User>, k: nat, ids: Ids, sessions: Ids)
    requires forall m :: m in states ==> ShowsUser(m, users, k, ids, sessions)
    ensures forall m :: m in states ==> ShowsUser(m, users, k + 1, ids, sessions)
  {
    forall m | m in states ensures ShowsUser(m, users, k + 1, ids, sessions) {
      assert ShowsUser(m, users, k, ids, sessions);
    }
  }

  /** The loop state after `k` users. */
  ghost predicate Showing(v: View, users: seq<User>, skip: SkipRules, ids: Ids, sessions: Ids, k: nat,
                          states: seq<SyncMessage>)
  {
    && k <= |users|
    && Replay(v, states) == v.(users := v.users + UsersOf(KeptRoster(users[..k], skip), ids, sessions))
    && forall m :: m in states ==> ShowsUser(m, users, k, ids, sessions)
  }

  lemma {:induction false} ShowingStarts(v: View, users: seq<User>, skip: SkipRules, ids: Ids, sessions: Ids)
    ensures Showing(v, users, skip, ids, sessions, 0, [])
  {
    assert UsersOf(KeptRoster(users[..0], skip), ids, sessions) == map[];
    assert v.users + map[] == v.users;
  }

  lemma {:induction false} ShowingStep(v: View, users: seq<User>, skip: SkipRules, ids: Ids, sessions: Ids, k: nat,
                                       states: seq<SyncMessage>)
    requires SessionIds(sessions) && DistinctUsers(users) && k < |users|
    requires Showing(v, users, skip, ids, sessions, k, states)
    ensures var u := users[k];
            Showing(v, users, skip, ids, sessions, k + 1,
                    if skip.Skips(u) || u.id !in sessions.fwd then states
                    else states + [UserState(sessions.fwd[u.id], UserRecord(u, ids))])
  {
    var u := users[k];
    OneMoreShown(users, skip, k, ids, sessions);
    StillShowsUsers(states, users, k, ids, sessions);
    hide KeptRoster, UsersOf, SessionIds, DistinctUsers;
    if !skip.Skips(u) && u.id in sessions.fwd {
      var m := UserState(sessions.fwd[u.id], UserRecord(u, ids));
      Overridden(v, states, UsersOf(KeptRoster(users[..k], skip), ids, sessions), sessions.fwd[u.id], UserRecord(u, ids));
      assert ShowsUser(m, users, k + 1, ids, sessions);
      hide ShowsUser, Replay, UserRecord;
    }
  }

  lemma {:induction false} ShowingEnds(v: View, users: seq<User>, skip: SkipRules, ids: Ids, sessions: Ids,
                                       states: seq<SyncMessage>)
    requires Showing(v, users, skip, ids, sessions, |users|, states)
    ensures Replay(v, states) == v.(users := v.users + UsersOf(KeptRoster(users, skip), ids, sessions))
    ensures forall m :: m in states ==> ShowsUser(m, users, |users|, ids, sessions)
  {
    assert users[..|users|] == users;
  }

  method RumbleUserStates(users: seq<User>, bridgeUser: Option<nat>, channels: ChannelMap, sessions: UserMap,
                          ghost v: View)
    returns (states: seq<SyncMessage>)
    requires DistinctUsers(users) && sessions.Valid()
    ensures Replay(v, states) == v.(users := v.users
      + UsersOf(KeptRoster(users, BridgeOnly(bridgeUser)), channels.Abs(), sessions.Abs()))
    ensures forall m :: m in states ==> ShowsUser(m, users, |users|, channels.Abs(), sessions.Abs())
  {
    states := [];
    ghost var skip := BridgeOnly(bridgeUser);
    ghost var ids, proxies := channels.Abs(), sessions.Abs();
    ShowingStarts(v, users, skip, ids, proxies);
    hide KeptRoster, UsersOf, SessionIds, DistinctUsers, Showing;
    for k := 0 to |users|
      invariant Showing(v, users, skip, ids, proxies, k, states)
    {
      var user := users[k];
      ShowingStep(v, users, skip, ids, proxies, k, states);
      if Some(user.id) == bridgeUser {
        continue;
      }
      if user.id in sessions.fwd {
        var channelId := if user.room in channels.fwd then Some(channels.fwd[user.room]) else None;
        states := states + [UserState(sessions.fwd[user.id], Occupant(user.name, channelId, user.muted, user.deafened))];
      }
    }
    ShowingEnds(v, users, skip, ids, proxies, states);
  }

  ghost predicate ShowsClient(m: SyncMessage, clients: map<nat, Occupant>) {
    m.UserState? && m.session in clients && m.occupant == clients[m.session]
  }

  method OtherClientStates(clients: map<nat, Occupant>, excludeSession: nat, ghost v: View)
    returns (states: seq<SyncMessage>)
    ensures Replay(v, states) == v.(users := v.users + (clients - {excludeSession}))
    ensures forall m :: m in states ==> ShowsClient(m, clients - {excludeSession})
  {
    states := [];
    var rest := clients.Keys - {excludeSession};
    ghost var sent := map[];
    assert v.users + sent == v.users;
    while rest != {}
      invariant rest <= clients.Keys - {excludeSession} && sent == clients - {excludeSession} - rest
      invariant Replay(v, states) == v.(users := v.users + sent)
      invariant forall m :: m in states ==> ShowsClient(m, clients - {excludeSession})
    {
      var s :| s in rest;
      Overridden(v, states, sent, s, clients[s]);
      states := states + [UserState(s, clients[s])];
      rest, sent := rest - {s}, sent[s := clients[s]];
    }
  }

  /** Every Rumble user with a session except the bridge itself, then every other connected Mumble client. */
  method BuildUserStates(users: seq<User>, bridgeUser: Option<nat>, channels: ChannelMap, sessions: UserMap,
                         clients: map<nat, Occupant>, excludeSession: nat, ghost v: View)
    returns (states: seq<SyncMessage>)
    requires DistinctUsers(users) && sessions.Valid()
    ensures Replay(v, states) == v.(users := v.users
      + UsersOf(KeptRoster(users, BridgeOnly(bridgeUser)), channels.Abs(), sessions.Abs()) + (clients - {excludeSession}))
    ensures forall m :: m in states ==>
      ShowsUser(m, users, |users|, channels.Abs(), sessions.Abs()) || ShowsClient(m, clients - {excludeSession})
  {
    hide UsersOf, KeptRoster, DistinctUsers, SessionIds, ShowsUser, ShowsClient;
    var proxied := RumbleUserStates(users, bridgeUser, channels, sessions, v);
    var others := OtherClientStates(clients, excludeSession, Replay(v, proxied));
    ReplayConcat(v, proxied, others);
    states := proxied + others;
  }
}
