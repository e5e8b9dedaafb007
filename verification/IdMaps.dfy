/** The bridge's two id maps: Rumble rooms to Mumble channels, Rumble users to Mumble proxy sessions. */
module IdMaps {
  import opened Rooms

  const FIRST_CLIENT_SESSION := 1000
  const FIRST_PROXY_SESSION := 100_000

  // Both hash maps and the next id to hand out.
  datatype Ids = Ids(fwd: map<nat, nat>, bwd: map<nat, nat>, next: nat)

  const NO_CHANNELS := Ids(map[], map[], 1)
  const NO_SESSIONS := Ids(map[], map[], FIRST_PROXY_SESSION)

  ghost predicate Inverse(m: Ids) {
    && (forall k :: k in m.fwd ==> m.fwd[k] in m.bwd && m.bwd[m.fwd[k]] == k)
    && (forall v :: v in m.bwd ==> m.bwd[v] in m.fwd && m.fwd[m.bwd[v]] == v)
  }

  /** Mutually inverse, every id below the next one, and 0 standing for Root alone. */
  ghost predicate ChannelIds(m: Ids) {
    && Inverse(m) && 1 <= m.next
    && (forall v :: v in m.bwd ==> v < m.next)
    && (forall k :: k in m.fwd ==> (m.fwd[k] == 0 <==> k == ROOT))
  }

  /** Mutually inverse, every session in the proxy range and below the next one. */
  ghost predicate SessionIds(m: Ids) {
    && Inverse(m) && FIRST_PROXY_SESSION <= m.next
    && (forall v :: v in m.bwd ==> FIRST_PROXY_SESSION <= v < m.next)
  }

  /** `m'` keeps every pair of `m` and gives new keys only ids that were never issued. */
  ghost predicate Grows(m: Ids, m': Ids) {
    && m.next <= m'.next
    && (forall k :: k in m.fwd ==> k in m'.fwd && m'.fwd[k] == m.fwd[k])
    && (forall k :: k in m'.fwd && k !in m.fwd && k != ROOT ==> m.next <= m'.fwd[k])
  }

  /** No key changes its id, and a key that had none gets one that was never issued: ids are not reused. */
  ghost predicate NeverReissues(m: Ids, m': Ids) {
    && m.next <= m'.next
    && (forall k :: k in m'.fwd ==> (k in m.fwd && m'.fwd[k] == m.fwd[k]) || m.next <= m'.fwd[k])
  }

  /** The same for channels, where 0 is not issued: it is Root's from the start. */
  ghost predicate NeverReissuesChannels(m: Ids, m': Ids) {
    && m.next <= m'.next
    && (forall k :: k in m'.fwd && k != ROOT ==> (k in m.fwd && m'.fwd[k] == m.fwd[k]) || m.next <= m'.fwd[k])
  }

  function Inserted(m: Ids, k: nat): Ids {
    if k in m.fwd then m else Ids(m.fwd[k := m.next], m.bwd[m.next := k], m.next + 1)
  }

  function ChannelInserted(m: Ids, u: Uuid): Ids {
    if u == ROOT then Ids(m.fwd[ROOT := 0], m.bwd[0 := ROOT], m.next) else Inserted(m, u)
  }

  function Removed(m: Ids, k: nat): Ids {
    if k in m.fwd then Ids(m.fwd - {k}, m.bwd - {m.fwd[k]}, m.next) else m
  }

  lemma {:induction false} ChannelInsertedKeeps(m: Ids, u: Uuid)
    requires ChannelIds(m)
    ensures ChannelIds(ChannelInserted(m, u)) && Grows(m, ChannelInserted(m, u))
    ensures ChannelInserted(m, u).fwd.Keys == m.fwd.Keys + {u}
    ensures u in m.fwd ==> ChannelInserted(m, u) == m
  {
    var m' := ChannelInserted(m, u);
    if u == ROOT && u in m.fwd {
      assert m'.fwd == m.fwd && m'.bwd == m.bwd;
    }
  }

  lemma {:induction false} SessionInsertedKeeps(m: Ids, k: nat)
    requires SessionIds(m)
    ensures SessionIds(Inserted(m, k))
    ensures Inserted(m, k).fwd.Keys == m.fwd.Keys + {k}
    ensures forall j :: j in m.fwd ==> Inserted(m, k).fwd[j] == m.fwd[j]
    ensures k !in m.fwd ==> Inserted(m, k).fwd[k] == m.next
  {
  }

  lemma {:induction false} RemovedKeeps(m: Ids, k: nat)
    requires Inverse(m)
    ensures Inverse(Removed(m, k)) && Removed(m, k).next == m.next
    ensures Removed(m, k).fwd.Keys == m.fwd.Keys - {k}
    ensures ChannelIds(m) ==> ChannelIds(Removed(m, k))
    ensures SessionIds(m) ==> SessionIds(Removed(m, k))
  {
  }

  lemma {:induction false} NeverReissuesTrans(a: Ids, b: Ids, c: Ids)
    requires NeverReissues(a, b) && NeverReissues(b, c)
    ensures NeverReissues(a, c)
  {
  }

  lemma {:induction false} NeverReissuesChannelsTrans(a: Ids, b: Ids, c: Ids)
    requires NeverReissuesChannels(a, b) && NeverReissuesChannels(b, c)
    ensures NeverReissuesChannels(a, c)
  {
  }

  lemma {:induction false} GrowsReissuesNothing(a: Ids, b: Ids)
    requires Grows(a, b)
    ensures NeverReissuesChannels(a, b)
  {
  }

  // ---- Runs of insertions and removals

  datatype Change = Insert(key: nat) | Remove(key: nat)

  function SessionsAfter(m: Ids, cs: seq<Change>): Ids
    decreases |cs|
  {
    if cs == [] then m
    else
      var rest := SessionsAfter(m, cs[..|cs| - 1]);
      match cs[|cs| - 1]
      case Insert(k) => Inserted(rest, k)
      case Remove(k) => Removed(rest, k)
  }

  function ChannelsAfter(m: Ids, cs: seq<Change>): Ids
    decreases |cs|
  {
    if cs == [] then m
    else
      var rest := ChannelsAfter(m, cs[..|cs| - 1]);
      match cs[|cs| - 1]
      case Insert(u) => ChannelInserted(rest, u)
      case Remove(u) => Removed(rest, u)
  }

  /** Between any two moments of a run no session is reissued, and the map is sound at both. */
  lemma {:induction false} SessionRunReissuesNothing(m: Ids, cs: seq<Change>, i: nat, j: nat)
    requires SessionIds(m) && i <= j <= |cs|
    ensures SessionIds(SessionsAfter(m, cs[..i])) && SessionIds(SessionsAfter(m, cs[..j]))
    ensures NeverReissues(SessionsAfter(m, cs[..i]), SessionsAfter(m, cs[..j]))
    decreases i + j
  {
    if i < j {
      SessionRunReissuesNothing(m, cs, i, j - 1);
      var rest, k := SessionsAfter(m, cs[..j - 1]), cs[j - 1].key;
      assert cs[..j][..j - 1] == cs[..j - 1];
      SessionInsertedKeeps(rest, k);
      RemovedKeeps(rest, k);
      NeverReissuesTrans(SessionsAfter(m, cs[..i]), rest, SessionsAfter(m, cs[..j]));
    } else if i > 0 {
      SessionRunReissuesNothing(m, cs, i - 1, j - 1);
      var rest, k := SessionsAfter(m, cs[..i - 1]), cs[i - 1].key;
      assert cs[..i][..i - 1] == cs[..i - 1];
      SessionInsertedKeeps(rest, k);
      RemovedKeeps(rest, k);
    }
  }

  lemma {:induction false} ChannelRunReissuesNothing(m: Ids, cs: seq<Change>, i: nat, j: nat)
    requires ChannelIds(m) && i <= j <= |cs|
    ensures ChannelIds(ChannelsAfter(m, cs[..i])) && ChannelIds(ChannelsAfter(m, cs[..j]))
    ensures NeverReissuesChannels(ChannelsAfter(m, cs[..i]), ChannelsAfter(m, cs[..j]))
    decreases i + j
  {
    hide ChannelsAfter, ChannelIds, NeverReissuesChannels;
    if i < j {
      ChannelRunReissuesNothing(m, cs, i, j - 1);
      OneMoreChannelChange(m, cs, j);
      NeverReissuesChannelsTrans(ChannelsAfter(m, cs[..i]), ChannelsAfter(m, cs[..j - 1]), ChannelsAfter(m, cs[..j]));
    } else if i > 0 {
      ChannelRunReissuesNothing(m, cs, i - 1, j - 1);
      OneMoreChannelChange(m, cs, i);
      SameReissuesNothing(ChannelsAfter(m, cs[..i]));
    } else {
      assert ChannelsAfter(m, cs[..0]) == m by {
        NoChannelChange(m);
      }
      SameReissuesNothing(m);
    }
  }

  lemma {:induction false} NoChannelChange(m: Ids)
    ensures ChannelsAfter(m, []) == m
  {
  }

  lemma {:induction false} SameReissuesNothing(m: Ids)
    requires ChannelIds(m)
    ensures NeverReissuesChannels(m, m)
  {
  }

  lemma {:induction false} OneMoreChannelChange(m: Ids, cs: seq<Change>, n: nat)
    requires 0 < n <= |cs| && ChannelIds(ChannelsAfter(m, cs[..n - 1]))
    ensures ChannelIds(ChannelsAfter(m, cs[..n]))
    ensures NeverReissuesChannels(ChannelsAfter(m, cs[..n - 1]), ChannelsAfter(m, cs[..n]))
  {
    var rest, u := ChannelsAfter(m, cs[..n - 1]), cs[n - 1].key;
    assert cs[..n][..n - 1] == cs[..n - 1];
    ChannelInsertedKeeps(rest, u);
    RemovedKeeps(rest, u);
  }

  /** An id never stands for two users: whenever it is in the map during a run, it stands for the same one. */
  lemma {:induction false} SessionStandsForOneUser(m: Ids, cs: seq<Change>, i: nat, j: nat, session: nat)
    requires SessionIds(m) && i <= j <= |cs|
    requires session in SessionsAfter(m, cs[..i]).bwd && session in SessionsAfter(m, cs[..j]).bwd
    ensures SessionsAfter(m, cs[..i]).bwd[session] == SessionsAfter(m, cs[..j]).bwd[session]
  {
    SessionRunReissuesNothing(m, cs, i, j);
    hide SessionsAfter;
  }

  lemma {:induction false} ChannelStandsForOneRoom(m: Ids, cs: seq<Change>, i: nat, j: nat, channel: nat)
    requires ChannelIds(m) && i <= j <= |cs|
    requires channel in ChannelsAfter(m, cs[..i]).bwd && channel in ChannelsAfter(m, cs[..j]).bwd
    ensures ChannelsAfter(m, cs[..i]).bwd[channel] == ChannelsAfter(m, cs[..j]).bwd[channel]
  {
    ChannelRunReissuesNothing(m, cs, i, j);
    hide ChannelsAfter;
  }

  class ChannelMap {
    var fwd: map<Uuid, nat>
    var bwd: map<nat, Uuid>
    var next: nat

    ghost function Abs(): Ids reads this { Ids(fwd, bwd, next) }

    ghost predicate Valid() reads this { ChannelIds(Abs()) }

    constructor ()
      ensures Valid() && Abs() == NO_CHANNELS
    {
      fwd, bwd, next := map[], map[], 1;
    }

    /** The channel of room `u`, allocated on first use; Root is always channel 0. */
    method GetOrInsert(u: Uuid) returns (id: nat)
      requires Valid()
      modifies this
      ensures Valid() && Abs() == ChannelInserted(old(Abs()), u) && Grows(old(Abs()), Abs())
      ensures u in Abs().fwd && id == Abs().fwd[u]
      ensures old(u in fwd) ==> Abs() == old(Abs())
    {
      ChannelInsertedKeeps(Abs(), u);
      if u == ROOT {
        fwd, bwd := fwd[u := 0], bwd[0 := u];
        return 0;
      }
      if u in fwd {
        return fwd[u];
      }
      id := next;
      next := next + 1;
      fwd, bwd := fwd[u := id], bwd[id := u];
    }

    method RemoveByUuid(u: Uuid)
      requires Valid()
      modifies this
      ensures Valid() && Abs() == Removed(old(Abs()), u)
    {
      RemovedKeeps(Abs(), u);
      if u in fwd {
        var id := fwd[u];
        fwd := fwd - {u};
        bwd := bwd - {id};
      }
    }
  }

  class UserMap {
    var fwd: map<nat, nat>
    var bwd: map<nat, nat>
    var next: nat

    ghost function Abs(): Ids reads this { Ids(fwd, bwd, next) }

    ghost predicate Valid() reads this { SessionIds(Abs()) }

    constructor ()
      ensures Valid() && Abs() == NO_SESSIONS
    {
      fwd, bwd, next := map[], map[], FIRST_PROXY_SESSION;
    }

    method GetOrInsert(user: nat) returns (session: nat)
      requires Valid()
      modifies this
      ensures Valid() && Abs() == Inserted(old(Abs()), user)
      ensures user in Abs().fwd && session == Abs().fwd[user]
    {
      SessionInsertedKeeps(Abs(), user);
      if user in fwd {
        return fwd[user];
      }
      session := next;
      next := next + 1;
      fwd, bwd := fwd[user := session], bwd[session := user];
    }

    method RemoveByRumbleId(user: nat)
      requires Valid()
      modifies this
      ensures Valid() && Abs() == Removed(old(Abs()), user)
    {
      RemovedKeeps(Abs(), user);
      if user in fwd {
        var session := fwd[user];
        fwd := fwd - {user};
        bwd := bwd - {session};
      }
    }
  }
}
