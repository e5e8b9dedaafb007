/** The bridge's shared state over whole runs: full-state refreshes while Mumble clients come and go. */
module Bridge {
  import opened Options
  import opened Rooms
  import opened IdMaps
  import opened ClientView
  import opened Projection
  import opened Telling
  import opened Reconcile
  import opened LateJoin

  // ---- The diff and the snapshot

  /**
   After a refresh a client holds, of what it held before, exactly what it was never told to forget; that is the view of
   a client that joins now exactly if no listed room lost a description it holds, and Root is listed or looks made up.
   */
  lemma {:induction false} RefreshMeetsSnapshot(p: Proj, rooms: seq<Room>, users: seq<User>, skip: SkipRules,
                                                ids: Ids, sessions: Ids, messages: seq<SyncMessage>, h: RoomTable)
    requires Reconciled(p, rooms, users, skip, ids, sessions, messages) && Holds(h, p.rooms)
    ensures var q := Projected(rooms, users, ids, sessions);
      && Carries(HeldView(h, p), messages, HeldView(h, q)) && SameShape(HeldView(h, q), ViewOf(q))
      && (HeldView(h, q) == ViewOf(q) <==> Agrees(h, Table(rooms)))
  {
    hide ViewOf, HeldView, Carries, Holds, UpToDate, NeverReissues, NeverReissuesChannels, Agrees, SameShape, Table, RosterOf;
    hide Rooted, UsersOk;
    var q := Projected(rooms, users, ids, sessions);
    ShowsSnapshot(h, q);
    HeldShape(h, q) by { hide Located; SessionsValid(q); }
  }

  /** After a refresh, reconciling the same state once more has nothing to tell. */
  lemma {:induction false} RefreshIsIdempotent(p: Proj, rooms: seq<Room>, users: seq<User>, skip: SkipRules,
                                               ids: Ids, sessions: Ids, messages: seq<SyncMessage>)
    requires FullState(rooms, users, skip) && Reconciled(p, rooms, users, skip, ids, sessions, messages)
    ensures UpToDate(Projected(rooms, users, ids, sessions), rooms, users, skip)
  {
    hide Ok, ViewOf, Carries, NeverReissues, NeverReissuesChannels, Rooted, DistinctRooms;
    KeptIds(users, skip);
    hide Announced;
    var q := Projected(rooms, users, ids, sessions);
    forall u | u in Table(rooms) ensures SameRoom(q.rooms, Table(rooms)[u]) {
      var i := TableIndex(rooms, u);
    }
    forall i | i in KeptRoster(users, skip) ensures SameUser(q, KeptRoster(users, skip)[i]) {
      var k := KeptFrom(users, skip, i);
      RosterAt(users, k);
    }
  }

  /** `messages` bring every client over from `p` to `q`, each message being safe to receive. */
  ghost predicate Brought(p: Proj, messages: seq<SyncMessage>, q: Proj) {
    Carried(p, messages, q) && forall h :: Holds(h, p.rooms) ==> Safe(HeldView(h, p), messages)
  }

  // ---- The bridge state

  class BridgeState {
    const channels: ChannelMap
    const users: UserMap
    var rumbleRooms: seq<Room>
    var rumbleUsers: seq<User>
    var bridgeUserId: Option<nat>
    var mumbleClients: map<nat, Occupant>
    var nextMumbleSession: nat

    ghost function Proj(): Proj
      reads this, channels, users
    {
      Projected(rumbleRooms, rumbleUsers, channels.Abs(), users.Abs())
    }

    ghost predicate Valid()
      reads this, channels, users
    {
      && Ok(Proj()) && NoDrift(Proj()) && DistinctRooms(rumbleRooms) && DistinctUsers(rumbleUsers)
      && (bridgeUserId.Some? ==> bridgeUserId.value !in users.fwd)
      && FIRST_CLIENT_SESSION <= nextMumbleSession
      && (forall s :: s in mumbleClients ==> FIRST_CLIENT_SESSION <= s < nextMumbleSession)
    }

    constructor ()
      ensures Valid() && fresh(channels) && fresh(users)
      ensures ViewOf(Proj()) == Replay(EMPTY, [MADE_UP_ROOT])
      ensures nextMumbleSession == FIRST_CLIENT_SESSION
    {
      channels := new ChannelMap();
      users := new UserMap();
      rumbleRooms, rumbleUsers, bridgeUserId := [], [], None;
      mumbleClients, nextMumbleSession := map[], FIRST_CLIENT_SESSION;
      new;
      BlankView(NO_CHANNELS);
    }

    /** A full server state: diff it against the cache, replace the cache, and broadcast the messages. */
    method ServerState(newRooms: seq<Room>, newUsers: seq<User>, skip: SkipRules) returns (messages: seq<SyncMessage>)
      requires Valid() && FullState(newRooms, newUsers, skip)
      modifies this, channels, users
      ensures Valid() && Brought(old(Proj()), messages, Proj())
      ensures rumbleRooms == newRooms && rumbleUsers == newUsers && bridgeUserId == skip.bridgeUser
      ensures users.fwd.Keys == set u | u in newUsers && Some(u.id) != skip.bridgeUser && u.id !in skip.virtualUsers
                                        && u.name !in skip.pendingNames :: u.id
      ensures forall m :: m in messages && m.UserState? ==>
                exists u :: u in newUsers && Some(u.id) != skip.bridgeUser && u.id !in skip.virtualUsers
                            && u.name !in skip.pendingNames && TellsUser(m, u, channels.Abs(), users.Abs())
      ensures NeverReissuesChannels(old(channels.Abs()), channels.Abs()) && NeverReissues(old(users.Abs()), users.Abs())
      ensures messages == [] <==> UpToDate(old(Proj()), newRooms, newUsers, skip)
      ensures mumbleClients == old(mumbleClients) && nextMumbleSession == old(nextMumbleSession)
    {
      var removed;
      ghost var told;
      ghost var p := Proj();
      hide Ok, Rooted, Carried, DistinctRooms, DistinctUsers, Table, RosterOf, ChannelIds, SessionIds, NoDrift, HeldView;
      hide NeverReissues, NeverReissuesChannels, UpToDate, Exactly, Holds, Safe, Announced, TellsUser;
      NoDriftKnows(p);
      messages, removed, told := ReconcileServerState(rumbleRooms, rumbleUsers, newRooms, newUsers, channels, users, skip);
      NotDrifted(newRooms, newUsers, skip, channels.Abs(), users.Abs());
      rumbleRooms, rumbleUsers, bridgeUserId := newRooms, newUsers, skip.bridgeUser;
      BridgeSkipped(newUsers, skip);
    }

    /** The k-th client session, counting from 0, is 1000 + k: it leaves the client range at the 99,000th. */
    method AllocateMumbleSession() returns (session: nat)
      requires Valid()
      modifies this`nextMumbleSession
      ensures Valid() && session == old(nextMumbleSession) && nextMumbleSession == session + 1
      ensures session !in mumbleClients
      ensures session < FIRST_PROXY_SESSION <==> old(nextMumbleSession) - FIRST_CLIENT_SESSION < 99_000
    {
      hide Ok, DistinctRooms, DistinctUsers;
      session := nextMumbleSession;
      nextMumbleSession := nextMumbleSession + 1;
    }

    /** The snapshot for session `session`. */
    method InitialSync(session: nat) returns (messages: seq<SyncMessage>)
      requires Valid()
      modifies channels
      ensures Valid() && Snapshot(old(Proj()), Proj(), messages, mumbleClients - {session})
      ensures forall m :: m in messages && m.UserState? ==>
                (m.session in mumbleClients - {session} && m.occupant == mumbleClients[m.session])
                || exists u :: u in rumbleUsers && Some(u.id) != bridgeUserId && TellsUser(m, u, channels.Abs(), users.Abs())
    {
      hide ViewOf, DistinctRooms, DistinctUsers, Rooted, ChannelIds, SessionIds, Carries, Table, RosterOf, KeptRoster;
      hide Ok, Grows, AllAssigned, ShowsUser, ShowsClient, NeverReissuesChannels, Safe, ClientsPlaced, UsersOf, ChannelsOf;
      hide Replay, Snapshot, TellsUser;
      ghost var p := Proj();
      JoinFacts(p, rumbleRooms);
      var channelStates := BuildChannelStates(rumbleRooms, channels);
      ghost var v := Replay(EMPTY, channelStates);
      var userStates := BuildUserStates(rumbleUsers, bridgeUserId, channels, users, mumbleClients, session, v);
      messages := channelStates + userStates;
      ghost var q := Proj();
      assert q == p.(channels := channels.Abs());
      hide BridgeState.Proj;
      SnapshotComplete(p, q.channels, rumbleRooms, rumbleUsers, bridgeUserId, channelStates, userStates,
                       mumbleClients - {session});
      SnapshotTells(q, rumbleUsers, bridgeUserId, channelStates, userStates, mumbleClients - {session});
    }

    /** A client joins, is entered in Root under a fresh session, and is sent the snapshot. */
    method ClientJoins(name: string) returns (session: nat, messages: seq<SyncMessage>)
      requires Valid()
      modifies this, channels
      ensures Valid() && Snapshot(old(Proj()), Proj(), messages, old(mumbleClients))
      ensures rumbleRooms == old(rumbleRooms)
      ensures session == old(nextMumbleSession) && nextMumbleSession == session + 1
      ensures mumbleClients == old(mumbleClients)[session := Occupant(name, Some(0), false, false)]
      ensures rumbleUsers == old(rumbleUsers)
      ensures forall m :: m in messages && m.UserState? ==>
                (m.session in old(mumbleClients) && m.occupant == old(mumbleClients)[m.session])
                || exists u :: u in rumbleUsers && Some(u.id) != bridgeUserId && TellsUser(m, u, channels.Abs(), users.Abs())
    {
      hide Ok, DistinctRooms, DistinctUsers, Table, RosterOf, Snapshot, TellsUser;
      session := AllocateMumbleSession();
      ghost var clients := mumbleClients;
      mumbleClients := mumbleClients[session := Occupant(name, Some(0), false, false)];
      messages := InitialSync(session);
      assert mumbleClients - {session} == clients;
    }
  }

  lemma {:induction false} NotDrifted(rooms: seq<Room>, users: seq<User>, skip: SkipRules, ids: Ids, sessions: Ids)
    requires sessions.fwd.Keys == Announced(users, skip) && ids.fwd.Keys <= Table(rooms).Keys + {ROOT}
    ensures NoDrift(Projected(rooms, users, ids, sessions))
  {
    forall i | i in sessions.fwd.Keys ensures i in RosterOf(users) {
      var u :| u in users && !skip.Skips(u) && u.id == i;
      var k :| 0 <= k < |users| && users[k] == u;
      RosterHas(users, k);
    }
  }

  /** The bridge itself is not announced. */
  lemma {:induction false} BridgeSkipped(users: seq<User>, skip: SkipRules)
    ensures skip.bridgeUser.Some? ==> skip.bridgeUser.value !in Announced(users, skip)
  {
  }

  /** Every UserState of a snapshot is about another Mumble client, or about a listed user with a session, as listed. */
  lemma {:induction false} SnapshotTells(p: Proj, users: seq<User>, bridgeUser: Option<nat>, channelStates: seq<SyncMessage>,
                                         userStates: seq<SyncMessage>, clients: map<nat, Occupant>)
    requires Ok(p) && p.users == RosterOf(users) && DistinctUsers(users)
    requires bridgeUser.Some? ==> bridgeUser.value !in p.sessions.fwd
    requires forall m :: m in channelStates ==> m.ChannelState?
    requires forall m :: m in userStates ==> ShowsUser(m, users, |users|, p.channels, p.sessions) || ShowsClient(m, clients)
    ensures forall m :: m in channelStates + userStates && m.UserState? ==>
              (m.session in clients && m.occupant == clients[m.session])
              || exists u :: u in users && Some(u.id) != bridgeUser && TellsUser(m, u, p.channels, p.sessions)
  {
    hide RosterOf, Rooted, Located, SessionIds;
    forall m | m in channelStates + userStates && m.UserState? && !ShowsClient(m, clients)
      ensures exists u :: u in users && Some(u.id) != bridgeUser && TellsUser(m, u, p.channels, p.sessions)
    {
      assert ShowsUser(m, users, |users|, p.channels, p.sessions);
      var i :| 0 <= i < |users| && users[i].id in p.sessions.fwd
               && m == UserState(p.sessions.fwd[users[i].id], UserRecord(users[i], p.channels));
      RosterAt(users, i);
      assert TellsUser(m, users[i], p.channels, p.sessions);
    }
  }

  /**
   What a snapshot does, from `p` to `q`, for a client beside `clients`: it changes no view and reissues no channel, it
   gives a blank client the view all others have plus those clients, and if they stand in known channels it is safe to
   receive one message at a time. The proxied users always do.
   */
  ghost predicate Snapshot(p: Proj, q: Proj, messages: seq<SyncMessage>, clients: map<nat, Occupant>) {
    && q == p.(channels := q.channels) && ViewOf(q) == ViewOf(p) && LooksAlike(p.rooms, p, q)
    && NeverReissuesChannels(p.channels, q.channels)
    && Replay(EMPTY, messages) == ViewOf(q).(users := ViewOf(q).users + clients)
    && (ClientsPlaced(ViewOf(q), clients) ==> Safe(EMPTY, messages))
  }

  /** Every Mumble client stands in a channel that is shown. */
  ghost predicate ClientsPlaced(v: View, clients: map<nat, Occupant>) {
    forall s :: s in clients ==> InKnownChannel(v, clients[s])
  }

  /** The two parts of a snapshot, put together. */
  lemma {:induction false} SnapshotComplete(p: Proj, ids: Ids, rooms: seq<Room>, users: seq<User>, bridgeUser: Option<nat>,
                                            channelStates: seq<SyncMessage>, userStates: seq<SyncMessage>,
                                            clients: map<nat, Occupant>)
    requires Ok(p) && p.rooms == Table(rooms) && p.users == RosterOf(users) && DistinctUsers(users)
    requires bridgeUser.Some? ==> bridgeUser.value !in p.sessions.fwd
    requires ChannelIds(ids) && Grows(p.channels, ids) && ids.fwd.Keys <= p.channels.fwd.Keys + {ROOT}
    requires Carries(EMPTY, channelStates, View(ChannelsOf(Table(rooms), ids), map[]))
    requires forall m :: m in channelStates ==> m.ChannelState?
    requires var v := Replay(EMPTY, channelStates);
             Replay(v, userStates) == v.(users := v.users
               + UsersOf(KeptRoster(users, BridgeOnly(bridgeUser)), ids, p.sessions) + clients)
    requires forall m :: m in userStates ==> ShowsUser(m, users, |users|, ids, p.sessions) || ShowsClient(m, clients)
    ensures Ok(p.(channels := ids)) && Snapshot(p, p.(channels := ids), channelStates + userStates, clients)
  {
    GrowsReissuesNothing(p.channels, ids);
    Joined(p, ids, rooms, users, bridgeUser, channelStates);
    SafePart(EMPTY, channelStates, View(ChannelsOf(Table(rooms), ids), map[]));
    hide Ok, ViewOf, Carries, Table, RosterOf, KeptRoster, Grows, ShowsUser, ShowsClient, Safe, ClientsPlaced, UsersOf;
    hide ChannelsOf, Replay, DistinctUsers, ChannelIds, NeverReissuesChannels, LooksAlike, Orderly;
    ReplayConcat(EMPTY, channelStates, userStates);
    NobodyBefore(Replay(EMPTY, channelStates), ViewOf(p).users);
    SnapshotSafe(p.(channels := ids), users, channelStates, userStates, clients);
  }

  lemma {:induction false} SafePart(v: View, messages: seq<SyncMessage>, w: View)
    requires Carries(v, messages, w)
    ensures Orderly(v, messages) && Replay(v, messages) == w
  {
  }

  lemma {:induction false} SnapshotSafe(p: Proj, users: seq<User>, channelStates: seq<SyncMessage>,
                                        userStates: seq<SyncMessage>, clients: map<nat, Occupant>)
    requires Ok(p) && p.users == RosterOf(users) && DistinctUsers(users)
    requires Orderly(EMPTY, channelStates) && Replay(EMPTY, channelStates) == View(ViewOf(p).channels, map[])
    requires forall m :: m in channelStates ==> m.ChannelState?
    requires forall m :: m in userStates ==> ShowsUser(m, users, |users|, p.channels, p.sessions) || ShowsClient(m, clients)
    ensures ClientsPlaced(ViewOf(p), clients) ==> Safe(EMPTY, channelStates + userStates)
  {
    var v := Replay(EMPTY, channelStates);
    hide Safe, Orderly;
    if ClientsPlaced(ViewOf(p), clients) {
      forall m | m in userStates ensures m.UserState? && InKnownChannel(v, m.occupant) {
        if ShowsUser(m, users, |users|, p.channels, p.sessions) {
          ShownIsPlaced(p, users, m);
        }
      }
      OkIsLegal(p);
      LegalWithout(ViewOf(p));
      hide Ok, ViewOf, InKnownChannel, Legal;
      UserStatesOrderly(v, userStates);
      OrderlyConcat(EMPTY, channelStates, userStates);
      NoRemovals(EMPTY, channelStates + userStates);
    }
  }

  lemma {:induction false} LegalWithout(v: View)
    requires Legal(v)
    ensures Legal(View(v.channels, map[]))
  {
  }

  lemma {:induction false} ShownIsPlaced(p: Proj, users: seq<User>, m: SyncMessage)
    requires Ok(p) && p.users == RosterOf(users) && DistinctUsers(users)
    requires ShowsUser(m, users, |users|, p.channels, p.sessions)
    ensures m.UserState? && InKnownChannel(ViewOf(p), m.occupant)
  {
    var i :| 0 <= i < |users| && users[i].id in p.sessions.fwd
             && m == UserState(p.sessions.fwd[users[i].id], UserRecord(users[i], p.channels));
    RosterAt(users, i);
    hide RosterOf, Rooted, SessionIds;
  }

  lemma {:induction false} NobodyBefore(v: View, us: map<nat, Occupant>)
    requires v.users == map[]
    ensures v.users + us == us
  {
  }

  lemma {:induction false} JoinFacts(p: Proj, rooms: seq<Room>)
    requires Ok(p) && p.rooms == Table(rooms)
    ensures ChannelIds(p.channels) && SessionIds(p.sessions) && Rooted(p.rooms) && AllAssigned(rooms, p.channels)
  {
    forall i | 0 <= i < |rooms| ensures rooms[i].id in p.channels.fwd {
      TableHas(rooms, i);
    }
  }

  /** A proxied user is kept by the snapshot's filter as by the roster. */
  lemma {:induction false} RosterKept(p: Proj, users: seq<User>, bridgeUser: Option<nat>, i: nat)
    requires p.users == RosterOf(users) && DistinctUsers(users) && i in p.sessions.fwd
    requires bridgeUser.Some? ==> bridgeUser.value !in p.sessions.fwd
    ensures var kept := KeptRoster(users, BridgeOnly(bridgeUser));
            (i in kept <==> i in p.users) && (i in p.users ==> kept[i] == p.users[i])
  {
    var skip := BridgeOnly(bridgeUser);
    if i in KeptRoster(users, skip) {
      var k := KeptFrom(users, skip, i);
      RosterAt(users, k);
    }
    if i in p.users {
      var k := RosterIndex(users, i);
      KeptIds(users, skip);
      assert users[k] in users && !skip.Skips(users[k]);
    }
  }

  /** Giving Root its channel is all a snapshot may change, and no client can see it. */
  lemma {:induction false} Joined(p: Proj, ids: Ids, rooms: seq<Room>, users: seq<User>, bridgeUser: Option<nat>,
                                  states: seq<SyncMessage>)
    requires Ok(p) && p.rooms == Table(rooms) && p.users == RosterOf(users) && DistinctUsers(users)
    requires bridgeUser.Some? ==> bridgeUser.value !in p.sessions.fwd
    requires ChannelIds(ids) && Grows(p.channels, ids) && ids.fwd.Keys <= p.channels.fwd.Keys + {ROOT}
    requires Carries(EMPTY, states, View(ChannelsOf(Table(rooms), ids), map[]))
    ensures Ok(p.(channels := ids)) && ViewOf(p.(channels := ids)) == ViewOf(p)
    ensures LooksAlike(p.rooms, p, p.(channels := ids))
    ensures Replay(EMPTY, states) == View(ViewOf(p).channels, map[])
    ensures UsersOf(KeptRoster(users, BridgeOnly(bridgeUser)), ids, p.sessions) == ViewOf(p).users
  {
    SafePart(EMPTY, states, View(ChannelsOf(Table(rooms), ids), map[]));
    SnapshotUsers(p, ids, users, bridgeUser);
    JoinedOk(p, ids);
    JoinedUnseen(p, ids);
    hide Carries, KeptRoster, RosterOf, Table, ChannelsOf, UsersOf, Ok, DistinctUsers, Grows, ChannelIds, LooksAlike;
  }

  lemma {:induction false} JoinedUnseen(p: Proj, ids: Ids)
    requires Ok(p) && ChannelIds(ids) && Grows(p.channels, ids) && ids.fwd.Keys <= p.channels.fwd.Keys + {ROOT}
    ensures LooksAlike(p.rooms, p, p.(channels := ids))
  {
    hide HeldView, Holds, UsersOk, Placed, Grows, ChannelIds, Rooted;
    forall h | Holds(h, p.rooms) ensures HeldView(h, p.(channels := ids)) == HeldView(h, p) {
      IdsUnseen(h, p, ids);
    }
  }

  lemma {:induction false} JoinedOk(p: Proj, ids: Ids)
    requires Ok(p) && ChannelIds(ids) && Grows(p.channels, ids) && ids.fwd.Keys <= p.channels.fwd.Keys + {ROOT}
    ensures Ok(p.(channels := ids)) && ChannelsOf(p.rooms, ids) == ChannelsOf(p.rooms, p.channels)
    ensures UsersOf(p.users, ids, p.sessions) == UsersOf(p.users, p.channels, p.sessions)
  {
    hide ChannelsOf, UsersOf, Rooted, ChannelIds;
    GrowsKeepsUsers(p, p.rooms, ids);
    RootInsertedChannels(p.rooms, p.channels, ids);
    hide UsersOk;
  }

  lemma {:induction false} SnapshotUsers(p: Proj, ids: Ids, users: seq<User>, bridgeUser: Option<nat>)
    requires SessionIds(p.sessions) && p.users == RosterOf(users) && DistinctUsers(users)
    requires bridgeUser.Some? ==> bridgeUser.value !in p.sessions.fwd
    ensures UsersOf(KeptRoster(users, BridgeOnly(bridgeUser)), ids, p.sessions) == UsersOf(p.users, ids, p.sessions)
  {
    var skip := BridgeOnly(bridgeUser);
    hide KeptRoster, RosterOf, DistinctUsers;
    forall i | i in p.sessions.fwd
      ensures (i in KeptRoster(users, skip) <==> i in p.users) && (i in p.users ==> KeptRoster(users, skip)[i] == p.users[i])
    {
      RosterKept(p, users, bridgeUser, i);
    }
    SameUsersOf(KeptRoster(users, skip), p.users, ids, p.sessions);
  }

  // ---- Runs

  datatype Event =
    | Refresh(rooms: seq<Room>, users: seq<User>, skip: SkipRules)
    | Join(name: string)

  /** What the server promises of every refresh; Root may be missing. */
  ghost predicate Allowed(e: Event) {
    e.Refresh? ==> FullState(e.rooms, e.users, e.skip)
  }

  function Joins(events: seq<Event>): nat {
    if events == [] then 0 else Joins(events[..|events| - 1]) + (if events[|events| - 1].Join? then 1 else 0)
  }

  /** The cached rooms after a run: those of the last refresh. */
  function Cached(rooms: seq<Room>, events: seq<Event>): seq<Room> {
    if events == [] then rooms
    else if events[|events| - 1].Refresh? then events[|events| - 1].rooms
    else Cached(rooms, events[..|events| - 1])
  }

  /** What the clients that joined during a run hold, in the order they joined. */
  function HeldAfter(rooms: seq<Room>, events: seq<Event>): (held: seq<RoomTable>)
    ensures |held| == Joins(events)
  {
    if events == [] then []
    else
      var before := HeldAfter(rooms, events[..|events| - 1]);
      match events[|events| - 1]
      case Refresh(newRooms, _, _) => HoldAll(before, Table(newRooms))
      case Join(_) => before + [Table(Cached(rooms, events[..|events| - 1]))]
  }

  function HoldAll(held: seq<RoomTable>, t: RoomTable): (held': seq<RoomTable>)
    ensures |held'| == |held|
  {
    seq(|held|, i requires 0 <= i < |held| => Hold(held[i], t))
  }

  /** The client shows what it holds, for the bridge's current state. */
  ghost predicate Shows(view: View, h: RoomTable, p: Proj) {
    Holds(h, p.rooms) && AgreeFrom(FIRST_PROXY_SESSION, view, HeldView(h, p))
  }

  ghost predicate AllShow(views: seq<View>, held: seq<RoomTable>, p: Proj) {
    |views| == |held| && forall i :: 0 <= i < |views| ==> Shows(views[i], held[i], p)
  }

  /**
   The view shows the listed rooms and the users with a session, field by field, and no other channel and no other proxied
   user. (A room without a description may keep one it had.)
   */
  ghost predicate ShownAsListed(view: View, rooms: seq<Room>, users: seq<User>, ids: Ids, sessions: Ids) {
    && (forall r :: r in rooms ==> ShownRoom(view, r, ids))
    && (forall c :: c in view.channels && c != 0 ==> exists r :: r in rooms && r.id in ids.fwd && ids.fwd[r.id] == c)
    && (forall u :: u in users && u.id in sessions.fwd ==> ShownUser(view, u, ids, sessions))
    && (forall s :: s in view.users && s >= FIRST_PROXY_SESSION ==>
          exists u :: u in users && u.id in sessions.fwd && sessions.fwd[u.id] == s)
  }

  ghost predicate ShownRoom(view: View, r: Room, ids: Ids) {
    && r.id in ids.fwd && ids.fwd[r.id] in view.channels
    && var ch := view.channels[ids.fwd[r.id]];
       && ch.name == r.name && (r.description.Some? ==> ch.description == r.description)
       && (if r.id == ROOT then ids.fwd[r.id] == 0 && ch.parent == None
           else if r.parent == ROOT then ch.parent == Some(0)
           else r.parent in ids.fwd && ch.parent == Some(ids.fwd[r.parent]))
  }

  ghost predicate ShownUser(view: View, u: User, ids: Ids, sessions: Ids) {
    && u.id in sessions.fwd && sessions.fwd[u.id] in view.users
    && var o := view.users[sessions.fwd[u.id]];
       && o.name == u.name && o.mute == u.muted && o.deaf == u.deafened
       && u.room in ids.fwd && o.channel == Some(ids.fwd[u.room])
  }

  /** A client that shows what it holds of a state shows that state as listed. */
  lemma {:induction false} ShowsListed(view: View, h: RoomTable, p: Proj, rooms: seq<Room>, users: seq<User>)
    requires Shows(view, h, p) && Ok(p) && p.rooms == Table(rooms) && p.users == RosterOf(users)
    requires DistinctRooms(rooms) && DistinctUsers(users)
    ensures ShownAsListed(view, rooms, users, p.channels, p.sessions)
  {
    hide ShownRoom, ShownUser, Holds, Hold, Rooted, ViewOf;
    forall r | r in rooms ensures ShownRoom(view, r, p.channels) {
      RoomShown(view, h, p, rooms, r);
    }
    forall u | u in users && u.id in p.sessions.fwd ensures ShownUser(view, u, p.channels, p.sessions) {
      UserShown(view, h, p, users, u);
    }
    forall c | c in view.channels && c != 0
      ensures exists r :: r in rooms && r.id in p.channels.fwd && p.channels.fwd[r.id] == c
    {
      ChannelListed(view, h, p, rooms, c);
    }
    forall s | s in view.users && s >= FIRST_PROXY_SESSION
      ensures exists u :: u in users && u.id in p.sessions.fwd && p.sessions.fwd[u.id] == s
    {
      SessionListed(view, h, p, users, s);
    }
    hide Shows, Ok, Table, RosterOf;
  }

  lemma {:induction false} RoomShown(view: View, h: RoomTable, p: Proj, rooms: seq<Room>, r: Room)
    requires Shows(view, h, p) && Ok(p) && p.rooms == Table(rooms) && DistinctRooms(rooms) && r in rooms
    ensures ShownRoom(view, r, p.channels)
  {
    hide Rooted, UsersOf, DistinctRooms;
    var i :| 0 <= i < |rooms| && rooms[i] == r;
    TableAt(rooms, i);
    hide Table;
    assert Hold(h, p.rooms)[r.id] == Remember(h, r.id, r);
    hide Hold, Holds;
  }

  lemma {:induction false} ChannelListed(view: View, h: RoomTable, p: Proj, rooms: seq<Room>, c: nat)
    requires Shows(view, h, p) && Ok(p) && p.rooms == Table(rooms) && c in view.channels && c != 0
    ensures exists r :: r in rooms && r.id in p.channels.fwd && p.channels.fwd[r.id] == c
  {
    hide Rooted, UsersOf, Table, RoomRecord, RootRecord;
    var u := p.channels.bwd[c];
    assert u in Hold(h, p.rooms) && u != ROOT;
    var i := TableIndex(rooms, u);
    assert rooms[i] in rooms;
  }

  lemma {:induction false} UserShown(view: View, h: RoomTable, p: Proj, users: seq<User>, u: User)
    requires Shows(view, h, p) && Ok(p) && p.users == RosterOf(users) && DistinctUsers(users)
    requires u in users && u.id in p.sessions.fwd
    ensures ShownUser(view, u, p.channels, p.sessions)
  {
    hide Rooted, ChannelsOf, DistinctUsers, Located, Holds, Hold;
    var i :| 0 <= i < |users| && users[i] == u;
    RosterAt(users, i);
    hide RosterOf;
  }

  lemma {:induction false} SessionListed(view: View, h: RoomTable, p: Proj, users: seq<User>, s: nat)
    requires Shows(view, h, p) && Ok(p) && p.users == RosterOf(users) && s in view.users && s >= FIRST_PROXY_SESSION
    ensures exists u :: u in users && u.id in p.sessions.fwd && p.sessions.fwd[u.id] == s
  {
    hide Rooted, ChannelsOf, Located, Holds, Hold, RosterOf, UserRecord;
    var k := p.sessions.bwd[s];
    var i := RosterIndex(users, k);
    assert users[i] in users;
  }

  /** The last full state of a run. */
  function LastRefresh(events: seq<Event>): Option<Event> {
    if events == [] then None
    else if events[|events| - 1].Refresh? then Some(events[|events| - 1])
    else LastRefresh(events[..|events| - 1])
  }

  /** Everybody has a session whom the last full state lists and its rules do not leave out, and nobody else. */
  ghost predicate SessionsFollow(events: seq<Event>, users: seq<User>, sessions: Ids) {
    match LastRefresh(events)
    case None => true
    case Some(e) => e.Refresh? ==>
      && users == e.users
      && sessions.fwd.Keys == set u | u in users && Some(u.id) != e.skip.bridgeUser && u.id !in e.skip.virtualUsers
                                      && u.name !in e.skip.pendingNames :: u.id
  }

  /** What a run is judged by. */
  datatype Summary = Summary(rooms: seq<Room>, users: seq<User>, proj: Proj, nextSession: nat)

  ghost function Now(b: BridgeState): Summary
    reads b, b.channels, b.users
  {
    Summary(b.rumbleRooms, b.rumbleUsers, b.Proj(), b.nextMumbleSession)
  }

  /** After `events` from `start`, the clients that joined hold `views`. */
  ghost predicate Kept(start: Summary, events: seq<Event>, now: Summary, views: seq<View>) {
    && now.nextSession == start.nextSession + Joins(events)
    && now.rooms == Cached(start.rooms, events) && now.proj.rooms == Table(now.rooms)
    && AllShow(views, HeldAfter(start.rooms, events), now.proj) && SessionsFollow(events, now.users, now.proj.sessions)
    && NeverReissuesChannels(start.proj.channels, now.proj.channels)
    && NeverReissues(start.proj.sessions, now.proj.sessions)
  }

  /**
   Any run of refreshes and joins, for the first 99,000 client sessions: every client, whenever it joined, shows the
   rooms and the proxied users of the bridge's current state as listed, with the descriptions and the Root that it holds;
   the proxied users are those the last full state lists, but the bridge's own, virtual and pending ones. So it shows
   exactly what a client that joins now is sent, if and only if what it holds agrees with the rooms now listed.
   No channel and no session is reissued.
   */
  method Run(b: BridgeState, events: seq<Event>) returns (ghost views: seq<View>)
    requires b.Valid() && forall i :: 0 <= i < |events| ==> Allowed(events[i])
    requires b.nextMumbleSession + Joins(events) <= FIRST_PROXY_SESSION
    modifies b, b.channels, b.users
    ensures b.Valid() && |views| == Joins(events) && b.rumbleRooms == Cached(old(b.rumbleRooms), events)
    ensures AllShow(views, HeldAfter(old(b.rumbleRooms), events), b.Proj())
    ensures SessionsFollow(events, b.rumbleUsers, b.users.Abs())
    ensures forall i :: 0 <= i < |views| ==>
              ShownAsListed(views[i], b.rumbleRooms, b.rumbleUsers, b.channels.Abs(), b.users.Abs())
    ensures forall i :: 0 <= i < |views| ==>
              (AgreeFrom(FIRST_PROXY_SESSION, views[i], ViewOf(b.Proj())) <==>
               Agrees(HeldAfter(old(b.rumbleRooms), events)[i], b.Proj().rooms))
    ensures NeverReissuesChannels(old(b.channels.Abs()), b.channels.Abs())
    ensures NeverReissues(old(b.users.Abs()), b.users.Abs())
  {
    views := [];
    ghost var start := Now(b);
    NothingYet(start);
    hide BridgeState.Valid, ViewOf, Kept, Allowed, AgreeFrom, Agrees, AllShow, ShownAsListed, SessionsFollow;
    for k := 0 to |events|
      invariant b.Valid() && Kept(start, events[..k], Now(b), views)
    {
      OneMoreEvent(start, events, k, Now(b), views);
      hide Now;
      views := Handle(b, events[k], views, start, events[..k]);
    }
    assert events[..|events|] == events;
    StateOk(b);
    RunKept(start, events, Now(b), views);
  }

  lemma {:induction false} StateOk(b: BridgeState)
    requires b.Valid()
    ensures Ok(b.Proj()) && DistinctRooms(b.rumbleRooms) && DistinctUsers(b.rumbleUsers)
    ensures b.Proj().rooms == Table(b.rumbleRooms) && b.Proj().users == RosterOf(b.rumbleUsers)
  {
  }

  lemma {:induction false} NothingYet(start: Summary)
    requires start.proj.rooms == Table(start.rooms)
    ensures Kept(start, [], start, [])
  {
  }

  lemma {:induction false} OneMoreEvent(start: Summary, events: seq<Event>, k: nat, now: Summary, views: seq<View>)
    requires k < |events| && Kept(start, events[..k], now, views)
    requires start.nextSession + Joins(events) <= FIRST_PROXY_SESSION
    ensures events[..k + 1] == events[..k] + [events[k]] && now.nextSession <= FIRST_PROXY_SESSION
  {
    hide AllShow, NeverReissues, NeverReissuesChannels, HeldAfter, SessionsFollow;
    JoinsGrow(events, k);
  }

  lemma {:induction false} RunKept(start: Summary, events: seq<Event>, now: Summary, views: seq<View>)
    requires Kept(start, events, now, views) && Ok(now.proj) && now.proj.users == RosterOf(now.users)
    requires DistinctRooms(now.rooms) && DistinctUsers(now.users)
    ensures |views| == Joins(events) && now.rooms == Cached(start.rooms, events)
    ensures SessionsFollow(events, now.users, now.proj.sessions)
    ensures forall i :: 0 <= i < |views| ==>
              ShownAsListed(views[i], now.rooms, now.users, now.proj.channels, now.proj.sessions)
    ensures AllShow(views, HeldAfter(start.rooms, events), now.proj)
    ensures forall i :: 0 <= i < |views| ==>
              (AgreeFrom(FIRST_PROXY_SESSION, views[i], ViewOf(now.proj)) <==>
               Agrees(HeldAfter(start.rooms, events)[i], now.proj.rooms))
    ensures NeverReissuesChannels(start.proj.channels, now.proj.channels)
    ensures NeverReissues(start.proj.sessions, now.proj.sessions)
  {
    hide Shows, Agrees, AgreeFrom, ViewOf, NeverReissues, NeverReissuesChannels, Ok, HeldAfter, Table, ShownAsListed;
    hide SessionsFollow, RosterOf, DistinctRooms, DistinctUsers;
    var held := HeldAfter(start.rooms, events);
    forall i | 0 <= i < |views| ensures ShownAsListed(views[i], now.rooms, now.users, now.proj.channels, now.proj.sessions) {
      ShowsListed(views[i], held[i], now.proj, now.rooms, now.users);
    }
    forall i | 0 <= i < |views|
      ensures AgreeFrom(FIRST_PROXY_SESSION, views[i], ViewOf(now.proj)) <==> Agrees(held[i], now.proj.rooms)
    {
      ShownAgrees(views[i], held[i], now.proj);
    }
  }

  lemma {:induction false} ShownAgrees(view: View, h: RoomTable, p: Proj)
    requires Shows(view, h, p) && Ok(p)
    ensures AgreeFrom(FIRST_PROXY_SESSION, view, ViewOf(p)) <==> Agrees(h, p.rooms)
  {
    hide ChannelsOf, UsersOf, Agrees, Hold, Rooted;
    ShowsSnapshot(h, p);
  }

  method Handle(b: BridgeState, e: Event, ghost views: seq<View>, ghost start: Summary, ghost before: seq<Event>)
    returns (ghost views': seq<View>)
    requires b.Valid() && Allowed(e) && Kept(start, before, Now(b), views) && b.nextMumbleSession <= FIRST_PROXY_SESSION
    modifies b, b.channels, b.users
    ensures b.Valid() && Kept(start, before + [e], Now(b), views')
  {
    hide BridgeState.Valid, Now, FullState, Kept;
    match e
    case Refresh(rooms, users, skip) => views' := OnRefresh(b, rooms, users, skip, views, start, before);
    case Join(name) => views' := OnJoin(b, name, views, start, before);
  }

  method OnRefresh(b: BridgeState, rooms: seq<Room>, users: seq<User>, skip: SkipRules, ghost views: seq<View>,
                   ghost start: Summary, ghost before: seq<Event>)
    returns (ghost views': seq<View>)
    requires b.Valid() && FullState(rooms, users, skip) && Kept(start, before, Now(b), views)
    modifies b, b.channels, b.users
    ensures b.Valid() && Kept(start, before + [Refresh(rooms, users, skip)], Now(b), views')
  {
    ghost var now := Now(b);
    hide BridgeState.Valid, FullState, Kept, Table, NeverReissues, NeverReissuesChannels, Brought, UpToDate, Announced;
    var messages := b.ServerState(rooms, users, skip);
    KeptByRefresh(start, before, Refresh(rooms, users, skip), now, Now(b), views, messages);
    views' := ReplayAll(views, messages);
  }

  method OnJoin(b: BridgeState, name: string, ghost views: seq<View>, ghost start: Summary, ghost before: seq<Event>)
    returns (ghost views': seq<View>)
    requires b.Valid() && Kept(start, before, Now(b), views) && b.nextMumbleSession <= FIRST_PROXY_SESSION
    modifies b, b.channels
    ensures b.Valid() && Kept(start, before + [Join(name)], Now(b), views')
  {
    ghost var now, others := Now(b), b.mumbleClients;
    assert forall s :: s in others ==> s < b.nextMumbleSession;
    hide BridgeState.Valid, Kept, Snapshot;
    var session, messages := b.ClientJoins(name);
    KeptByJoin(start, before, name, now, Now(b), views, messages, others);
    views' := views + [Replay(EMPTY, messages)];
  }

  lemma {:induction false} OneMore(rooms: seq<Room>, before: seq<Event>, e: Event)
    ensures Joins(before + [e]) == Joins(before) + (if e.Join? then 1 else 0)
    ensures Cached(rooms, before + [e]) == if e.Refresh? then e.rooms else Cached(rooms, before)
    ensures LastRefresh(before + [e]) == if e.Refresh? then Some(e) else LastRefresh(before)
    ensures HeldAfter(rooms, before + [e])
         == if e.Refresh? then HoldAll(HeldAfter(rooms, before), Table(e.rooms))
            else HeldAfter(rooms, before) + [Table(Cached(rooms, before))]
  {
    hide Table, HoldAll;
    assert (before + [e])[..|before|] == before;
  }

  lemma {:induction false} KeptByRefresh(start: Summary, before: seq<Event>, e: Event, now: Summary, after: Summary,
                                         views: seq<View>, messages: seq<SyncMessage>)
    requires Kept(start, before, now, views) && e.Refresh? && after.rooms == e.rooms
    requires after.nextSession == now.nextSession && after.proj.rooms == Table(after.rooms)
    requires Brought(now.proj, messages, after.proj) && after.users == e.users
    requires after.proj.sessions.fwd.Keys == set u | u in e.users && Some(u.id) != e.skip.bridgeUser
                                                     && u.id !in e.skip.virtualUsers && u.name !in e.skip.pendingNames :: u.id
    requires NeverReissuesChannels(now.proj.channels, after.proj.channels)
    requires NeverReissues(now.proj.sessions, after.proj.sessions)
    ensures Kept(start, before + [e], after, ReplayAll(views, messages))
  {
    hide Joins, Cached, HeldAfter, Table, AllShow, NeverReissues, NeverReissuesChannels, Carried, Safe, Holds, HoldAll;
    OneMore(start.rooms, before, e);
    AllShowOn(views, HeldAfter(start.rooms, before), now.proj, messages, after.proj);
    NeverReissuesChannelsTrans(start.proj.channels, now.proj.channels, after.proj.channels);
    NeverReissuesTrans(start.proj.sessions, now.proj.sessions, after.proj.sessions);
  }

  lemma {:induction false} AllShowOn(views: seq<View>, held: seq<RoomTable>, p: Proj, messages: seq<SyncMessage>, q: Proj)
    requires AllShow(views, held, p) && Carried(p, messages, q)
    ensures AllShow(ReplayAll(views, messages), HoldAll(held, q.rooms), q)
  {
    hide Carried, Shows;
    forall i | 0 <= i < |views| ensures Shows(ReplayAll(views, messages)[i], HoldAll(held, q.rooms)[i], q) {
      ShowsOn(views[i], held[i], p, messages, q);
    }
  }

  lemma {:induction false} ShowsOn(view: View, h: RoomTable, p: Proj, messages: seq<SyncMessage>, q: Proj)
    requires Shows(view, h, p) && Carried(p, messages, q)
    ensures Shows(Replay(view, messages), Hold(h, q.rooms), q)
  {
    hide ViewOf, Hold, AgreeFrom, Orderly;
    HoldTwice(h, q.rooms);
    assert Carries(HeldView(h, p), messages, HeldView(h, q));
    ReplayAgrees(FIRST_PROXY_SESSION, view, HeldView(h, p), messages);
  }

  lemma {:induction false} KeptByJoin(start: Summary, before: seq<Event>, name: string, now: Summary, after: Summary,
                                      views: seq<View>, messages: seq<SyncMessage>, others: map<nat, Occupant>)
    requires Kept(start, before, now, views) && after.rooms == now.rooms && after.nextSession == now.nextSession + 1
    requires after.users == now.users
    requires Snapshot(now.proj, after.proj, messages, others)
    requires now.nextSession <= FIRST_PROXY_SESSION && forall s :: s in others ==> s < now.nextSession
    ensures Kept(start, before + [Join(name)], after, views + [Replay(EMPTY, messages)])
  {
    hide Joins, Cached, HeldAfter, Table, AllShow, NeverReissues, NeverReissuesChannels, ViewOf, LooksAlike, Replay, Safe;
    hide ClientsPlaced, Shows;
    OneMore(start.rooms, before, Join(name));
    var held := HeldAfter(start.rooms, before);
    AllShowAlike(views, held, now.proj, after.proj);
    JoinerShows(now.proj, after.proj, messages, others, now.nextSession);
    OneMoreShows(views, held, after.proj, Replay(EMPTY, messages), now.proj.rooms);
    NeverReissuesChannelsTrans(start.proj.channels, now.proj.channels, after.proj.channels);
  }

  lemma {:induction false} AllShowAlike(views: seq<View>, held: seq<RoomTable>, p: Proj, q: Proj)
    requires AllShow(views, held, p) && LooksAlike(p.rooms, p, q) && q.rooms == p.rooms
    ensures AllShow(views, held, q)
  {
    hide HeldView, Holds, AgreeFrom;
    forall i | 0 <= i < |views| ensures Shows(views[i], held[i], q) {
      assert Shows(views[i], held[i], p);
    }
  }

  lemma {:induction false} OneMoreShows(views: seq<View>, held: seq<RoomTable>, p: Proj, view: View, h: RoomTable)
    requires AllShow(views, held, p) && Shows(view, h, p)
    ensures AllShow(views + [view], held + [h], p)
  {
    hide Shows;
  }

  /** A client that joins holds the cached rooms as they are. */
  lemma {:induction false} JoinerShows(p: Proj, q: Proj, messages: seq<SyncMessage>, others: map<nat, Occupant>, next: nat)
    requires Snapshot(p, q, messages, others) && forall s :: s in others ==> s < next <= FIRST_PROXY_SESSION
    ensures Shows(Replay(EMPTY, messages), p.rooms, q)
  {
    hide ViewOf, Safe, ClientsPlaced, AgreeFrom, Replay, NeverReissuesChannels, LooksAlike;
    JoinerAgrees(ViewOf(q), others, next);
    HoldTwice(map[], p.rooms);
    SelfHeld(p.rooms);
  }

  lemma {:induction false} SelfHeld(t: RoomTable)
    ensures Hold(t, t) == t && Holds(t, t)
  {
  }

  // ---- When nothing is forgotten

  /** The refresh clears no description and does not drop a Root that would be missed. */
  ghost predicate ForgetsNothing(t: RoomTable, t': RoomTable) {
    && (forall u :: u in t && u in t' && t'[u].description.None? ==> t[u].description.None?)
    && (ROOT in t' || RootRecord(t) == RootRecord(map[]))
  }

  ghost predicate Steady(rooms: seq<Room>, events: seq<Event>) {
    events != [] ==>
      var before, e := events[..|events| - 1], events[|events| - 1];
      Steady(rooms, before) && (e.Refresh? ==> ForgetsNothing(Table(Cached(rooms, before)), Table(e.rooms)))
  }

  lemma {:induction false} HoldAgrees(h: RoomTable, t: RoomTable, t': RoomTable)
    requires Holds(h, t) && Agrees(h, t) && ForgetsNothing(t, t')
    ensures Holds(Hold(h, t'), t') && Agrees(Hold(h, t'), t')
  {
    HoldTwice(h, t');
    forall u | u in h && u in t ensures h[u].description == t[u].description && h[u].name == t[u].name {
      assert Hold(h, t)[u] == h[u];
    }
    assert forall u :: u in h && u !in t ==> u == ROOT by {
      assert forall u :: u in Hold(h, t) ==> u in t || u == ROOT;
    }
    assert ROOT in t ==> ROOT in h by {
      assert ROOT in t ==> ROOT in Hold(h, t);
    }
  }

  /** If no refresh of a run cleared a description or dropped Root, all clients agree with what is held and listed. */
  lemma {:induction false} SteadyAgrees(rooms: seq<Room>, events: seq<Event>, i: nat)
    requires Steady(rooms, events) && i < |HeldAfter(rooms, events)|
    ensures var h, t := HeldAfter(rooms, events)[i], Table(Cached(rooms, events)); Holds(h, t) && Agrees(h, t)
    decreases |events|
  {
    hide Agrees, Holds, Hold, Table, ForgetsNothing;
    var n := |events| - 1;
    if events[n].Refresh? {
      SteadyAgrees(rooms, events[..n], i);
      HoldAgrees(HeldAfter(rooms, events[..n])[i], Table(Cached(rooms, events[..n])), Table(events[n].rooms));
    } else if i < |HeldAfter(rooms, events[..n])| {
      SteadyAgrees(rooms, events[..n], i);
    } else {
      SelfHeld(Table(Cached(rooms, events)));
      SelfAgrees(Table(Cached(rooms, events)));
    }
  }

  lemma {:induction false} SelfAgrees(t: RoomTable)
    ensures Agrees(t, t)
  {
  }

  // ---- When something is

  /** Two states of Root alone, with a client that joins after each. */
  method EarlyAndLate(first: seq<Room>, second: seq<Room>) returns (ghost early: View, ghost late: View)
    requires forall r :: r in first + second ==> r.id == ROOT
    requires |first| <= 1 && |second| <= 1
    ensures 0 in early.channels && early.channels[0] == RootRecord(Hold(Table(first), Table(second)))
    ensures 0 in late.channels && late.channels[0] == RootRecord(Table(second))
  {
    hide BridgeState.Valid, FullState, NeverReissues, NeverReissuesChannels, Agrees, Table, HeldAfter, Cached, Joins, Hold;
    hide ViewOf, AgreeFrom, Shows, Replay, RootRecord;
    var b := new BridgeState();
    var nobody := SkipRules(None, {}, {});
    RootAlone(first, nobody);
    RootAlone(second, nobody);
    FourEvents(b.rumbleRooms, first, second, nobody);
    ghost var views := Run(b, [Refresh(first, [], nobody), Join("early"), Refresh(second, [], nobody), Join("late")]);
    early, late := views[0], views[1];
    RootShown(early, Hold(Table(first), Table(second)), b.Proj());
    RootShown(late, Table(second), b.Proj());
  }

  lemma {:induction false} RootAlone(rooms: seq<Room>, nobody: SkipRules)
    requires |rooms| <= 1 && forall r :: r in rooms ==> r.id == ROOT
    ensures FullState(rooms, [], nobody)
  {
    if rooms != [] {
      assert rooms == [rooms[0]] && rooms[0] in rooms && rooms[..0] == [];
      assert Table(rooms) == map[ROOT := rooms[0]];
      assert AtDepth(Table(rooms), ROOT, 0);
    } else {
      assert Table(rooms) == map[];
    }
  }

  lemma {:induction false} FourEvents(rooms: seq<Room>, first: seq<Room>, second: seq<Room>, nobody: SkipRules)
    ensures var es := [Refresh(first, [], nobody), Join("early"), Refresh(second, [], nobody), Join("late")];
            && Joins(es) == 2 && Cached(rooms, es) == second
            && HeldAfter(rooms, es) == [Hold(Table(first), Table(second)), Table(second)]
  {
    var e1, e2 := Refresh(first, [], nobody), Join("early");
    var e3, e4 := Refresh(second, [], nobody), Join("late");
    hide Table, Hold;
    OneMore(rooms, [], e1);
    OneMore(rooms, [e1], e2);
    OneMore(rooms, [e1, e2], e3);
    OneMore(rooms, [e1, e2, e3], e4);
    assert [] + [e1] == [e1] && [e1] + [e2] == [e1, e2] && [e1, e2] + [e3] == [e1, e2, e3];
    assert [e1, e2, e3] + [e4] == [e1, e2, e3, e4];
    hide HeldAfter, Cached, Joins;
  }

  lemma {:induction false} RootShown(view: View, h: RoomTable, p: Proj)
    requires Shows(view, h, p)
    ensures 0 in view.channels && view.channels[0] == RootRecord(h)
  {
  }

  /**
   The condition on Root is needed: clients that were told of a Root called Lobby keep it through a refresh that lists
   none, while a client that joins then is sent a made-up one.
   */
  method RootlessRefreshDisagrees() returns (ghost early: View, ghost late: View)
    ensures 0 in early.channels && early.channels[0] == Channel(None, "Lobby", None)
    ensures 0 in late.channels && late.channels[0] == Channel(None, "Root", None)
  {
    var lobby := Room(ROOT, "Lobby", ROOT, None);
    OneRoom(lobby);
    early, late := EarlyAndLate([lobby], []);
  }

  /** So is the one on descriptions: a client that was told of one keeps it when it is cleared. */
  method ClearedDescriptionStays() returns (ghost early: View, ghost late: View)
    ensures 0 in early.channels && early.channels[0] == Channel(None, "Lobby", Some("come in"))
    ensures 0 in late.channels && late.channels[0] == Channel(None, "Lobby", None)
  {
    var described, plain := Room(ROOT, "Lobby", ROOT, Some("come in")), Room(ROOT, "Lobby", ROOT, None);
    OneRoom(described);
    OneRoom(plain);
    early, late := EarlyAndLate([described], [plain]);
  }

  lemma {:induction false} OneRoom(r: Room)
    ensures Table([]) == map[] && Table([r]) == map[r.id := r]
  {
    assert [r][..0] == [] && Table([]) == map[];
  }

  ghost function ReplayAll(views: seq<View>, messages: seq<SyncMessage>): seq<View> {
    seq(|views|, i requires 0 <= i < |views| => Replay(views[i], messages))
  }

  lemma {:induction false} JoinsGrow(events: seq<Event>, k: nat)
    requires k <= |events|
    ensures Joins(events[..k]) <= Joins(events)
    decreases |events|
  {
    if k < |events| {
      assert events[..|events| - 1][..k] == events[..k];
      JoinsGrow(events[..|events| - 1], k);
    } else {
      assert events[..k] == events;
    }
  }

  lemma {:induction false} JoinerAgrees(w: View, others: map<nat, Occupant>, next: nat)
    requires forall s :: s in others ==> s < next <= FIRST_PROXY_SESSION
    ensures AgreeFrom(FIRST_PROXY_SESSION, w.(users := w.users + others), w)
  {
  }
}
