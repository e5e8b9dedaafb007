/** What one connected Mumble client knows, how a message changes it, and when a message is safe to receive. */
module ClientView {
  import opened Options

  datatype Channel = Channel(parent: Option<nat>, name: string, description: Option<string>)

  datatype Occupant = Occupant(name: string, channel: Option<nat>, mute: bool, deaf: bool)

  datatype View = View(channels: map<nat, Channel>, users: map<nat, Occupant>)

  const EMPTY := View(map[], map[])

  datatype SyncMessage =
    | UserRemove(session: nat)
    | UserState(session: nat, occupant: Occupant)
    | ChannelRemove(channelId: nat)
    | ChannelState(channelId: nat, channel: Channel)

  /** A field that a ChannelState leaves out stays as the client has it, so a description cannot be cleared. */
  function Merged(v: View, c: nat, ch: Channel): Channel {
    if c !in v.channels then ch
    else
      var old_ := v.channels[c];
      Channel(if ch.parent.None? then old_.parent else ch.parent, ch.name,
              if ch.description.None? then old_.description else ch.description)
  }

  /** A UserState that may be sent carries every field, so it replaces the whole record. */
  function Apply(v: View, m: SyncMessage): View {
    match m
    case UserRemove(s) => v.(users := v.users - {s})
    case UserState(s, o) => v.(users := v.users[s := o])
    case ChannelRemove(c) => v.(channels := v.channels - {c})
    case ChannelState(c, ch) => v.(channels := v.channels[c := Merged(v, c, ch)])
  }

  function Replay(v: View, ms: seq<SyncMessage>): View {
    if ms == [] then v else Apply(Replay(v, ms[..|ms| - 1]), ms[|ms| - 1])
  }

  ghost predicate ChannelAtDepth(chs: map<nat, Channel>, c: nat, n: nat)
    decreases n
  {
    && c in chs
    && if c == 0 then n == 0 && chs[c].parent == None
       else n > 0 && chs[c].parent.Some? && ChannelAtDepth(chs, chs[c].parent.value, n - 1)
  }

  /** The channels are a tree rooted at 0, and every user stands in one of them. */
  ghost predicate Legal(v: View) {
    && 0 in v.channels
    && (forall c :: c in v.channels ==> exists n: nat :: ChannelAtDepth(v.channels, c, n))
    && (forall s :: s in v.users ==> v.users[s].channel.Some? && v.users[s].channel.value in v.channels)
  }

  /** What a message puts somewhere has a known place to be in, and what it removes is no one's parent or place. */
  ghost predicate WellPlaced(v: View, m: SyncMessage) {
    match m
    case UserRemove(_) => true
    case UserState(_, o) => o.channel.Some? && o.channel.value in v.channels
    case ChannelState(c, ch) => if c == 0 then ch.parent == None else ch.parent.Some? && ch.parent.value in v.channels
    case ChannelRemove(c) =>
      && c != 0
      && (forall x :: x in v.channels ==> v.channels[x].parent != Some(c))
      && (forall s :: s in v.users ==> v.users[s].channel != Some(c))
  }

  /** What a message removes, the client has. */
  ghost predicate Known(v: View, m: SyncMessage) {
    match m
    case UserRemove(s) => s in v.users
    case ChannelRemove(c) => c in v.channels
    case _ => true
  }

  /** A message refers only to what the client already knows; a removed channel is an empty leaf. */
  ghost predicate Receivable(v: View, m: SyncMessage) {
    Known(v, m) && WellPlaced(v, m)
  }

  ghost predicate SafeAt(v: View, ms: seq<SyncMessage>, k: nat)
    requires k < |ms|
  {
    Receivable(Replay(v, ms[..k]), ms[k]) && Legal(Replay(v, ms[..k + 1]))
  }

  /** Each message is receivable when it arrives and leaves a legal view. */
  ghost predicate Safe(v: View, ms: seq<SyncMessage>) {
    forall k: nat :: k < |ms| ==> SafeAt(v, ms, k)
  }

  ghost predicate OrderlyAt(v: View, ms: seq<SyncMessage>, k: nat)
    requires k < |ms|
  {
    WellPlaced(Replay(v, ms[..k]), ms[k]) && Legal(Replay(v, ms[..k + 1]))
  }

  /** The same, but for removals of what the client does not have. */
  ghost predicate Orderly(v: View, ms: seq<SyncMessage>) {
    forall k: nat :: k < |ms| ==> OrderlyAt(v, ms, k)
  }

  ghost predicate KnownAt(v: View, ms: seq<SyncMessage>, k: nat)
    requires k < |ms|
  {
    Known(Replay(v, ms[..k]), ms[k])
  }

  lemma {:induction false} SafeIs(v: View, ms: seq<SyncMessage>)
    ensures Safe(v, ms) <==> Orderly(v, ms) && forall k: nat :: k < |ms| ==> KnownAt(v, ms, k)
  {
    hide Replay, Legal, WellPlaced, Known;
    if Safe(v, ms) {
      forall k: nat | k < |ms| ensures OrderlyAt(v, ms, k) && KnownAt(v, ms, k) {
        assert SafeAt(v, ms, k);
      }
    } else {
      var k: nat :| k < |ms| && !SafeAt(v, ms, k);
      assert !OrderlyAt(v, ms, k) || !KnownAt(v, ms, k);
    }
  }

  lemma {:induction false} NoRemovals(v: View, ms: seq<SyncMessage>)
    requires forall m :: m in ms ==> m.UserState? || m.ChannelState?
    ensures Safe(v, ms) <==> Orderly(v, ms)
  {
    hide Safe, Orderly, Replay;
    SafeIs(v, ms);
    forall k: nat | k < |ms| ensures KnownAt(v, ms, k) {
      assert ms[k] in ms;
    }
  }

  lemma {:induction false} ReplayOne(v: View, ms: seq<SyncMessage>, m: SyncMessage)
    ensures Replay(v, ms + [m]) == Apply(Replay(v, ms), m)
    ensures Orderly(v, ms) && WellPlaced(Replay(v, ms), m) && Legal(Replay(v, ms + [m])) ==> Orderly(v, ms + [m])
  {
    var ms' := ms + [m];
    assert ms'[..|ms|] == ms;
    if Orderly(v, ms) && WellPlaced(Replay(v, ms), m) && Legal(Replay(v, ms')) {
      forall k: nat | k < |ms'| ensures OrderlyAt(v, ms', k) {
        if k < |ms| {
          assert OrderlyAt(v, ms, k);
          assert ms'[..k] == ms[..k] && ms'[..k + 1] == ms[..k + 1];
        } else {
          assert ms'[..k + 1] == ms';
        }
      }
    }
  }

  lemma {:induction false} ReplayConcat(v: View, ms: seq<SyncMessage>, ns: seq<SyncMessage>)
    ensures Replay(v, ms + ns) == Replay(Replay(v, ms), ns)
    decreases |ns|
  {
    if ns == [] {
      assert ms + ns == ms;
    } else {
      var n := |ns| - 1;
      ReplayConcat(v, ms, ns[..n]);
      assert (ms + ns)[..|ms + ns| - 1] == ms + ns[..n];
    }
  }

  lemma {:induction false} OrderlyConcat(v: View, ms: seq<SyncMessage>, ns: seq<SyncMessage>)
    requires Orderly(v, ms) && Orderly(Replay(v, ms), ns)
    ensures Orderly(v, ms + ns)
  {
    var all := ms + ns;
    forall k: nat | k < |all| ensures OrderlyAt(v, all, k) {
      if k < |ms| {
        assert OrderlyAt(v, ms, k);
        assert all[..k] == ms[..k] && all[..k + 1] == ms[..k + 1];
      } else {
        var j := k - |ms|;
        assert all[..k] == ms + ns[..j] && all[..k + 1] == ms + ns[..j + 1];
        assert OrderlyAt(Replay(v, ms), ns, j);
        ReplayConcat(v, ms, ns[..j]);
        ReplayConcat(v, ms, ns[..j + 1]);
      }
    }
  }

  ghost predicate TouchesOnlySessionsFrom(ms: seq<SyncMessage>, low: nat) {
    forall m :: m in ms && (m.UserRemove? || m.UserState?) ==> m.session >= low
  }

  /** Two clients that agree on the channels and on every occupant from session `low` up. */
  ghost predicate AgreeFrom(low: nat, v: View, w: View) {
    && v.channels == w.channels
    && (forall s :: s >= low ==> (s in v.users <==> s in w.users) && (s in v.users ==> v.users[s] == w.users[s]))
  }

  /** Messages about sessions from `low` up keep such clients in agreement and pass over everybody below `low`. */
  lemma {:induction false} ReplayAgrees(low: nat, v: View, w: View, ms: seq<SyncMessage>)
    requires AgreeFrom(low, v, w) && TouchesOnlySessionsFrom(ms, low)
    ensures AgreeFrom(low, Replay(v, ms), Replay(w, ms))
    ensures forall s :: s < low ==>
      (s in Replay(v, ms).users <==> s in v.users) && (s in v.users ==> Replay(v, ms).users[s] == v.users[s])
    decreases |ms|
  {
    if ms != [] {
      var n := |ms| - 1;
      ReplayAgrees(low, v, w, ms[..n]);
      assert ms[n] in ms;
    }
  }

  // ---- Up to names and descriptions

  /** The same channel tree with the same people in it. */
  ghost predicate SameShape(v: View, w: View) {
    && v.channels.Keys == w.channels.Keys && v.users == w.users
    && (forall c :: c in v.channels ==> v.channels[c].parent == w.channels[c].parent)
  }

  lemma {:induction false} ShapeDepth(v: View, w: View, c: nat, n: nat)
    requires SameShape(v, w) && ChannelAtDepth(v.channels, c, n)
    ensures ChannelAtDepth(w.channels, c, n)
    decreases n
  {
    if c != 0 {
      ShapeDepth(v, w, v.channels[c].parent.value, n - 1);
    }
  }

  /** Legality and what may be received depend on the shape only. */
  lemma {:induction false} ShapeDecides(v: View, w: View, m: SyncMessage)
    requires SameShape(v, w)
    ensures Legal(v) ==> Legal(w)
    ensures WellPlaced(v, m) <==> WellPlaced(w, m)
    ensures Known(v, m) <==> Known(w, m)
  {
    if Legal(v) {
      forall c | c in w.channels ensures exists n: nat :: ChannelAtDepth(w.channels, c, n) {
        var n: nat :| ChannelAtDepth(v.channels, c, n);
        ShapeDepth(v, w, c, n);
      }
    }
  }

  // ---- What a message does not mention

  ghost predicate Mentions(ms: seq<SyncMessage>, m: SyncMessage) {
    match m
    case UserRemove(s) => exists x :: x in ms && (x.UserRemove? || x.UserState?) && x.session == s
    case ChannelRemove(c) => exists x :: x in ms && (x.ChannelRemove? || x.ChannelState?) && x.channelId == c
    case _ => true
  }

  /** Whether a removal names something known is not changed by messages about other things. */
  lemma {:induction false} StillKnown(v: View, ms: seq<SyncMessage>, m: SyncMessage)
    requires !Mentions(ms, m)
    ensures Known(Replay(v, ms), m) <==> Known(v, m)
    decreases |ms|
  {
    if ms != [] {
      var n := |ms| - 1;
      assert ms == ms[..n] + [ms[n]] && ms[n] in ms && forall x :: x in ms[..n] ==> x in ms;
      StillKnown(v, ms[..n], m);
    }
  }

  // ---- Users alone

  ghost predicate InKnownChannel(v: View, o: Occupant) {
    o.channel.Some? && o.channel.value in v.channels
  }

  /** Showing users in known channels is orderly. */
  lemma {:induction false} UserStatesOrderly(v: View, ms: seq<SyncMessage>)
    requires Legal(v) && forall m :: m in ms ==> m.UserState? && InKnownChannel(v, m.occupant)
    ensures Orderly(v, ms) && Legal(Replay(v, ms)) && Replay(v, ms).channels == v.channels
    decreases |ms|
  {
    if ms == [] {
    } else {
      var n := |ms| - 1;
      assert ms == ms[..n] + [ms[n]] && ms[n] in ms;
      assert forall m :: m in ms[..n] ==> m in ms;
      UserStatesOrderly(v, ms[..n]);
      var u := Replay(v, ms[..n]);
      assert Replay(v, ms) == Apply(u, ms[n]);
      assert WellPlaced(u, ms[n]) && Legal(Apply(u, ms[n]));
      hide WellPlaced, Legal, Apply;
      ReplayOne(v, ms[..n], ms[n]);
    }
  }
}
