/** The session's chat log, its id set and the epoch that tells caches when entries may have moved. */
module ChatLog {

  type Id = nat

  // `key` stands for everything else a message carries.
  datatype Message = Message(id: Id, timestamp: int, key: nat)

  // A draft and its mirror twin share an id; a notice is given a random one.
  datatype Event =
    | MessageAdded(msg: Message)
    | SystemNotice(msg: Message)
    | SenderDraftInserted(msg: Message)
    | SenderMirrorInserted(msg: Message)
    | HistoryMerged(msgs: seq<Message>)
    | ConnectStarted
    | OtherConnectionEvent

  datatype State = State(log: seq<Message>, epoch: nat, ids: set<Id>)

  const EMPTY := State([], 0, {})

  // ---- Stable sorting by timestamp

  predicate Sorted(s: seq<Message>) {
    forall i, j :: 0 <= i < j < |s| ==> s[i].timestamp <= s[j].timestamp
  }

  /** The entries of one timestamp, in order. */
  function At(s: seq<Message>, t: int): seq<Message> {
    if s == [] then [] else At(s[..|s| - 1], t) + if s[|s| - 1].timestamp == t then [s[|s| - 1]] else []
  }

  /** Ordered by timestamp, nothing lost or added, and entries of one timestamp in their old order. */
  ghost predicate StablySorted(before: seq<Message>, after: seq<Message>) {
    Sorted(after) && multiset(after) == multiset(before) && forall t :: At(after, t) == At(before, t)
  }

  /** After every entry that is not later. */
  function Insert(s: seq<Message>, m: Message): seq<Message> {
    if s == [] || s[|s| - 1].timestamp <= m.timestamp then s + [m]
    else Insert(s[..|s| - 1], m) + [s[|s| - 1]]
  }

  function SortByTimestamp(s: seq<Message>): seq<Message> {
    if s == [] then [] else Insert(SortByTimestamp(s[..|s| - 1]), s[|s| - 1])
  }

  lemma {:induction false} InsertCounts(s: seq<Message>, m: Message)
    ensures multiset(Insert(s, m)) == multiset(s) + multiset{m}
    decreases |s|
  {
    if s != [] && s[|s| - 1].timestamp > m.timestamp {
      InsertCounts(s[..|s| - 1], m);
      assert s == s[..|s| - 1] + [s[|s| - 1]];
    }
  }

  lemma {:induction false} InsertSorted(s: seq<Message>, m: Message)
    requires Sorted(s)
    ensures Sorted(Insert(s, m))
    ensures forall i :: 0 <= i < |Insert(s, m)| ==>
              Insert(s, m)[i].timestamp <= m.timestamp || (s != [] && Insert(s, m)[i].timestamp <= s[|s| - 1].timestamp)
    decreases |s|
  {
    if s != [] && s[|s| - 1].timestamp > m.timestamp {
      InsertSorted(s[..|s| - 1], m);
    }
  }

  lemma {:induction false} AtAppend(s: seq<Message>, m: Message, t: int)
    ensures At(s + [m], t) == At(s, t) + if m.timestamp == t then [m] else []
  {
    assert (s + [m])[..|s|] == s;
  }

  lemma {:induction false} EitherEmpty(a: seq<Message>, x: seq<Message>, y: seq<Message>)
    requires x == [] || y == []
    ensures a + x + y == a + y + x
  {
  }

  lemma {:induction false} InsertAt(s: seq<Message>, m: Message, t: int)
    ensures At(Insert(s, m), t) == At(s, t) + if m.timestamp == t then [m] else []
    decreases |s|
  {
    if s == [] || s[|s| - 1].timestamp <= m.timestamp {
      AtAppend(s, m, t);
    } else {
      var rest, last := s[..|s| - 1], s[|s| - 1];
      assert rest + [last] == s && Insert(s, m) == Insert(rest, m) + [last];
      hide At, Insert;
      InsertAt(rest, m, t);
      AtAppend(Insert(rest, m), last, t);
      AtAppend(rest, last, t);
      EitherEmpty(At(rest, t), if m.timestamp == t then [m] else [], if last.timestamp == t then [last] else []);
    }
  }

  lemma {:induction false} SortIsStable(s: seq<Message>)
    ensures StablySorted(s, SortByTimestamp(s))
    decreases |s|
  {
    if s != [] {
      var n := |s| - 1;
      var rest := SortByTimestamp(s[..n]);
      SortIsStable(s[..n]);
      InsertSorted(rest, s[n]);
      InsertCounts(rest, s[n]);
      assert s == s[..n] + [s[n]];
      forall t ensures At(SortByTimestamp(s), t) == At(s, t) {
        InsertAt(rest, s[n], t);
        AtAppend(s[..n], s[n], t);
      }
    }
  }

  /** There is only one stably sorted order. */
  lemma {:induction false} StableOrderIsUnique(s: seq<Message>, a: seq<Message>, b: seq<Message>)
    requires StablySorted(s, a) && StablySorted(s, b)
    ensures a == b
  {
    SortedAgree(a, b);
  }

  lemma {:induction false} SortedAgree(a: seq<Message>, b: seq<Message>)
    requires Sorted(a) && Sorted(b) && forall t :: At(a, t) == At(b, t)
    ensures a == b
    decreases |a| + |b|
  {
    if b != [] {
      NeitherEmpty(a, b);
    }
    if a != [] {
      NeitherEmpty(b, a);
      var x, y, a', b' := a[|a| - 1], b[|b| - 1], a[..|a| - 1], b[..|b| - 1];
      LastOf(a, b);
      LastOf(b, a);
      assert a == a' + [x] && b == b' + [y];
      AtAppend(a', x, x.timestamp);
      AtAppend(b', y, x.timestamp);
      SameLast(At(a', x.timestamp), x, At(b', x.timestamp), y);
      forall t {:trigger At(a', t)} ensures At(a', t) == At(b', t) {
        AtAppend(a', x, t);
        AtAppend(b', y, t);
        SameInit(At(a', t), At(b', t), if x.timestamp == t then [x] else []);
      }
      SortedAgree(a', b');
    }
  }

  lemma {:induction false} SameLast(a: seq<Message>, x: Message, b: seq<Message>, y: Message)
    requires a + [x] == b + [y]
    ensures x == y
  {
    assert (a + [x])[|a|] == x && (b + [y])[|b|] == y;
  }

  lemma {:induction false} SameInit(a: seq<Message>, b: seq<Message>, tail: seq<Message>)
    requires a + tail == b + tail
    ensures a == b
  {
    assert (a + tail)[..|a|] == a && (b + tail)[..|b|] == b;
  }

  lemma {:induction false} NeitherEmpty(a: seq<Message>, b: seq<Message>)
    requires b != [] && forall t :: At(a, t) == At(b, t)
    ensures a != []
  {
    var t := b[|b| - 1].timestamp;
    assert At(a, t) == At(b, t) && At(b, t) != [];
  }

  lemma {:induction false} LastOf(a: seq<Message>, b: seq<Message>)
    requires a != [] && b != [] && Sorted(b) && forall t :: At(a, t) == At(b, t)
    ensures a[|a| - 1].timestamp <= b[|b| - 1].timestamp
  {
    var t := a[|a| - 1].timestamp;
    assert At(a, t) == At(b, t) && At(a, t) != [];
    AtOccurs(b, t);
  }

  lemma {:induction false} AtOccurs(s: seq<Message>, t: int)
    requires At(s, t) != []
    ensures exists i :: 0 <= i < |s| && s[i].timestamp == t
    decreases |s|
  {
    var n := |s| - 1;
    if s[n].timestamp != t {
      AtOccurs(s[..n], t);
      var i :| 0 <= i < n && s[..n][i].timestamp == t;
      assert s[i].timestamp == t;
    }
  }

  // ---- Events

  /** The messages of `msgs` whose id is new, the first of each id counting. */
  function NewOnes(ids: set<Id>, msgs: seq<Message>): seq<Message>
    decreases |msgs|
  {
    if msgs == [] then []
    else if msgs[0].id in ids then NewOnes(ids, msgs[1..])
    else [msgs[0]] + NewOnes(ids + {msgs[0].id}, msgs[1..])
  }

  function IdsOf(s: seq<Message>): set<Id> {
    set i | 0 <= i < |s| :: s[i].id
  }

  function Append(s: State, m: Message): State {
    State(s.log + [m], s.epoch, s.ids + {m.id})
  }

  function Merge(s: State, msgs: seq<Message>): State {
    var incoming := NewOnes(s.ids, msgs);
    if incoming == [] then s
    else State(SortByTimestamp(s.log + incoming), s.epoch + 1, s.ids + IdsOf(incoming))
  }

  function Step(s: State, e: Event): State {
    match e
    case MessageAdded(m) => if m.id in s.ids then s else Append(s, m)
    case SystemNotice(m) => Append(s, m)
    case SenderDraftInserted(m) => Append(s, m)
    case SenderMirrorInserted(m) => Append(s, m)
    case HistoryMerged(msgs) => Merge(s, msgs)
    case ConnectStarted => State([], s.epoch + 1, {})
    case OtherConnectionEvent => s
  }

  function Run(s: State, es: seq<Event>): State
    decreases |es|
  {
    if es == [] then s else Step(Run(s, es[..|es| - 1]), es[|es| - 1])
  }

  // ---- The contract

  /** What one step may do under one epoch: append. */
  lemma {:induction false} StepAppends(s: State, e: Event)
    ensures s.epoch <= Step(s, e).epoch <= s.epoch + 1
    ensures Step(s, e).epoch == s.epoch ==> s.log <= Step(s, e).log
  {
  }

  /** Two states of one run with the same epoch: the earlier log is a prefix of the later. */
  lemma {:induction false} SameEpochIsPrefix(s: State, es: seq<Event>, i: nat, j: nat)
    requires i <= j <= |es|
    ensures Run(s, es[..i]).epoch <= Run(s, es[..j]).epoch
    ensures Run(s, es[..i]).epoch == Run(s, es[..j]).epoch ==> Run(s, es[..i]).log <= Run(s, es[..j]).log
    decreases j
  {
    if i < j {
      SameEpochIsPrefix(s, es, i, j - 1);
      assert es[..j][..j - 1] == es[..j - 1];
      StepAppends(Run(s, es[..j - 1]), es[j - 1]);
      hide Step;
    }
  }

  lemma {:induction false} IdsConcat(a: seq<Message>, b: seq<Message>)
    ensures IdsOf(a + b) == IdsOf(a) + IdsOf(b)
  {
    forall x ensures x in IdsOf(a + b) <==> x in IdsOf(a) + IdsOf(b) {
      if x in IdsOf(a) {
        var i :| 0 <= i < |a| && a[i].id == x;
        assert (a + b)[i].id == x;
      }
      if x in IdsOf(b) {
        var i :| 0 <= i < |b| && b[i].id == x;
        assert (a + b)[|a| + i].id == x;
      }
    }
  }

  lemma {:induction false} IdsPermuted(a: seq<Message>, b: seq<Message>)
    requires multiset(a) == multiset(b)
    ensures IdsOf(a) == IdsOf(b)
  {
    IdsWithin(a, b);
    IdsWithin(b, a);
  }

  lemma {:induction false} IdsWithin(a: seq<Message>, b: seq<Message>)
    requires multiset(a) == multiset(b)
    ensures IdsOf(a) <= IdsOf(b)
  {
    forall x | x in IdsOf(a) ensures x in IdsOf(b) {
      var i :| 0 <= i < |a| && a[i].id == x;
      assert a[i] in multiset(b);
      var k :| 0 <= k < |b| && b[k] == a[i];
    }
  }

  /** The id set is the ids of the log, whatever happens. */
  lemma {:induction false} IdsMirrorLog(es: seq<Event>)
    ensures Run(EMPTY, es).ids == IdsOf(Run(EMPTY, es).log)
    decreases |es|
  {
    if es != [] {
      var s, e := Run(EMPTY, es[..|es| - 1]), es[|es| - 1];
      IdsMirrorLog(es[..|es| - 1]);
      IdsStep(s, e);
      hide Step;
    }
  }

  lemma {:induction false} IdsStep(s: State, e: Event)
    requires s.ids == IdsOf(s.log)
    ensures Step(s, e).ids == IdsOf(Step(s, e).log)
  {
    if e.HistoryMerged? {
      var incoming := NewOnes(s.ids, e.msgs);
      IdsConcat(s.log, incoming);
      SortIsStable(s.log + incoming);
      IdsPermuted(s.log + incoming, SortByTimestamp(s.log + incoming));
    } else if !e.ConnectStarted? && !e.OtherConnectionEvent? {
      IdsConcat(s.log, [e.msg]);
      assert IdsOf([e.msg]) == {e.msg.id} by {
        assert [e.msg][0].id == e.msg.id;
      }
    }
  }

  /** The new ones are among those received, bring each id once, and bring every id that was missing. */
  lemma {:induction false} NewOnesAre(ids: set<Id>, msgs: seq<Message>)
    ensures forall i :: 0 <= i < |NewOnes(ids, msgs)| ==> NewOnes(ids, msgs)[i] in msgs
    ensures forall i, j :: 0 <= i < j < |NewOnes(ids, msgs)| ==> NewOnes(ids, msgs)[i].id != NewOnes(ids, msgs)[j].id
    ensures IdsOf(NewOnes(ids, msgs)) == IdsOf(msgs) - ids
    decreases |msgs|
  {
    if msgs != [] {
      var m := msgs[0];
      IdsConcat([m], msgs[1..]);
      assert msgs == [m] + msgs[1..];
      assert IdsOf([m]) == {m.id} by {
        assert [m][0].id == m.id;
      }
      if m.id in ids {
        NewOnesAre(ids, msgs[1..]);
      } else {
        var rest := NewOnes(ids + {m.id}, msgs[1..]);
        NewOnesAre(ids + {m.id}, msgs[1..]);
        IdsConcat([m], rest);
        assert forall i :: 0 <= i < |rest| ==> rest[i].id in IdsOf(rest);
      }
    }
  }

  /**
   A merge that adds entries leaves the one stable order of the old log followed by the new entries, and a new epoch; one
   that adds none changes nothing.
   */
  lemma {:induction false} MergeIsStable(s: State, msgs: seq<Message>)
    requires s.ids == IdsOf(s.log)
    ensures var t := Step(s, HistoryMerged(msgs));
            var incoming := NewOnes(s.ids, msgs);
            && (IdsOf(msgs) <= IdsOf(s.log) ==> t == s)
            && (!(IdsOf(msgs) <= IdsOf(s.log)) ==> StablySorted(s.log + incoming, t.log) && t.epoch == s.epoch + 1)
            && IdsOf(t.log) == IdsOf(s.log) + IdsOf(msgs)
  {
    var incoming := NewOnes(s.ids, msgs);
    NewOnesAre(s.ids, msgs);
    SortIsStable(s.log + incoming);
    IdsStep(s, HistoryMerged(msgs));
    IdsConcat(s.log, incoming);
    assert incoming != [] ==> incoming[0].id in IdsOf(incoming);
    hide StablySorted, NewOnes, SortByTimestamp;
  }

  /** Which are new, told one message at a time: a message is, if its id was neither known nor came earlier. */
  lemma {:induction false} NewOnesGrow(ids: set<Id>, msgs: seq<Message>, m: Message)
    ensures NewOnes(ids, []) == []
    ensures NewOnes(ids, msgs + [m]) == NewOnes(ids, msgs) + if m.id in ids + IdsOf(msgs) then [] else [m]
    decreases |msgs|
  {
    if msgs == [] {
      assert [] + [m] == [m];
    } else {
      var x, rest := msgs[0], msgs[1..];
      assert msgs + [m] == [x] + (rest + [m]) && (msgs + [m])[1..] == rest + [m] && msgs == [x] + rest;
      IdsConcat([x], rest);
      assert IdsOf([x]) == {x.id} by {
        assert [x][0].id == x.id;
      }
      hide IdsOf;
      if x.id in ids {
        NewOnesGrow(ids, rest, m);
      } else {
        NewOnesGrow(ids + {x.id}, rest, m);
        assert [x] + NewOnes(ids + {x.id}, rest) + (if m.id in ids + IdsOf(msgs) then [] else [m])
            == [x] + (NewOnes(ids + {x.id}, rest) + (if m.id in ids + IdsOf(msgs) then [] else [m]));
      }
    }
  }

  // ---- What the log holds

  /** The messages an event brings. */
  function Carried(e: Event): seq<Message> {
    match e
    case MessageAdded(m) => [m]
    case HistoryMerged(msgs) => msgs
    case ConnectStarted => []
    case OtherConnectionEvent => []
    case _ => [e.msg]
  }

  predicate IsLocal(e: Event) {
    e.SystemNotice? || e.SenderDraftInserted? || e.SenderMirrorInserted?
  }

  /** Event `i` brought the message, and no connect started after it. */
  ghost predicate CameAt(es: seq<Event>, i: nat, x: Message) {
    i < |es| && x in Carried(es[i]) && forall j :: i < j < |es| ==> !es[j].ConnectStarted?
  }

  ghost predicate Came(es: seq<Event>, x: Message) {
    exists i: nat :: CameAt(es, i, x)
  }

  /** It came as a notice, a draft or a mirror. */
  ghost predicate CameLocally(es: seq<Event>, x: Message) {
    exists i: nat :: CameAt(es, i, x) && IsLocal(es[i])
  }

  lemma {:induction false} CameNext(es: seq<Event>, e: Event, x: Message)
    ensures Came(es + [e], x) <==> x in Carried(e) || (Came(es, x) && !e.ConnectStarted?)
    ensures CameLocally(es + [e], x) <==> (x in Carried(e) && IsLocal(e)) || (CameLocally(es, x) && !e.ConnectStarted?)
  {
    var more := es + [e];
    hide Carried;
    assert forall i :: 0 <= i < |es| ==> more[i] == es[i];
    assert more[|es|] == e;
    forall i: nat ensures CameAt(more, i, x) <==> (i == |es| && x in Carried(e)) || (CameAt(es, i, x) && !e.ConnectStarted?) {
      if CameAt(more, i, x) && i < |es| {
        assert !more[|es|].ConnectStarted?;
        assert forall j :: i < j < |es| ==> !more[j].ConnectStarted?;
      }
    }
    if x in Carried(e) {
      assert CameAt(more, |es|, x);
    }
    if i: nat :| CameAt(es, i, x) && !e.ConnectStarted? {
      assert CameAt(more, i, x);
    }
    if i: nat :| CameAt(es, i, x) && IsLocal(es[i]) && !e.ConnectStarted? {
      assert CameAt(more, i, x);
    }
  }

  /** What one event does to the log's entries. */
  ghost predicate Takes(s: State, e: Event, t: State) {
    if e.ConnectStarted? then t.log == []
    else
      && (forall x :: x in t.log ==> x in s.log || x in Carried(e)) && (forall x :: x in s.log ==> x in t.log)
      && IdsOf(t.log) == IdsOf(s.log) + IdsOf(Carried(e)) && (IsLocal(e) ==> forall x :: x in Carried(e) ==> x in t.log)
  }

  lemma {:induction false} MergeTakes(s: State, msgs: seq<Message>)
    requires s.ids == IdsOf(s.log)
    ensures Takes(s, HistoryMerged(msgs), Step(s, HistoryMerged(msgs)))
  {
    var incoming, t := NewOnes(s.ids, msgs), Step(s, HistoryMerged(msgs));
    MergeIsStable(s, msgs);
    NewOnesAre(s.ids, msgs);
    if incoming != [] {
      SortIsStable(s.log + incoming);
      forall x ensures x in t.log <==> x in s.log || x in incoming {
        assert x in multiset(t.log) <==> x in multiset(s.log + incoming);
      }
    }
    hide NewOnes, SortByTimestamp, IdsOf;
  }

  lemma {:induction false} StepTakes(s: State, e: Event)
    requires s.ids == IdsOf(s.log)
    ensures Takes(s, e, Step(s, e))
  {
    if e.HistoryMerged? {
      MergeTakes(s, e.msgs);
    } else if !e.ConnectStarted? && !e.OtherConnectionEvent? {
      IdsConcat(s.log, [e.msg]);
      assert IdsOf([e.msg]) == {e.msg.id} by {
        assert [e.msg][0].id == e.msg.id;
      }
      hide Merge;
    }
  }

  /** Exactly what came since the last connect is in the log. */
  ghost predicate HoldsWhatCame(log: seq<Message>, es: seq<Event>) {
    && (forall x :: x in log ==> Came(es, x))
    && (forall x :: Came(es, x) ==> x.id in IdsOf(log))
    && (forall x :: CameLocally(es, x) ==> x in log)
  }

  lemma {:induction false} HoldsNext(s: State, es: seq<Event>, e: Event, t: State)
    requires HoldsWhatCame(s.log, es) && Takes(s, e, t)
    ensures HoldsWhatCame(t.log, es + [e])
  {
    forall x
      ensures Came(es + [e], x) <==> x in Carried(e) || (Came(es, x) && !e.ConnectStarted?)
      ensures CameLocally(es + [e], x) <==> (x in Carried(e) && IsLocal(e)) || (CameLocally(es, x) && !e.ConnectStarted?)
      ensures x in Carried(e) ==> x.id in IdsOf(Carried(e))
    {
      CameNext(es, e, x);
    }
    hide Came, CameLocally, IdsOf;
  }

  lemma {:induction false} NothingCame()
    ensures HoldsWhatCame([], [])
  {
  }

  /**
   Over every run: the log's entries are messages that came since the last connect; every message that came since is there
   under its id, and every notice, draft and mirror as such.
   */
  lemma {:induction false} LogHoldsWhatCame(es: seq<Event>)
    ensures HoldsWhatCame(Run(EMPTY, es).log, es)
    decreases |es|
  {
    hide Step, HoldsWhatCame, Takes;
    if es == [] {
      NothingCame();
    } else {
      var n := |es| - 1;
      LogHoldsWhatCame(es[..n]);
      IdsMirrorLog(es[..n]);
      StepTakes(Run(EMPTY, es[..n]), es[n]);
      HoldsNext(Run(EMPTY, es[..n]), es[..n], es[n], Run(EMPTY, es));
      assert es[..n] + [es[n]] == es;
    }
  }

  // ---- One entry an id

  /** The entries of one id. */
  function Count(s: seq<Message>, k: Id): nat {
    if s == [] then 0 else Count(s[..|s| - 1], k) + if s[|s| - 1].id == k then 1 else 0
  }

  lemma {:induction false} CountJoin(a: seq<Message>, b: seq<Message>, k: Id)
    ensures Count(a + b, k) == Count(a, k) + Count(b, k)
    decreases |b|
  {
    if b == [] {
      assert a + b == a;
    } else {
      assert (a + b)[..|a + b| - 1] == a + b[..|b| - 1];
      CountJoin(a, b[..|b| - 1], k);
    }
  }

  lemma {:induction false} InsertCounted(s: seq<Message>, m: Message, k: Id)
    ensures Count(Insert(s, m), k) == Count(s, k) + if m.id == k then 1 else 0
    decreases |s|
  {
    if s != [] && s[|s| - 1].timestamp > m.timestamp {
      InsertCounted(s[..|s| - 1], m, k);
    }
  }

  lemma {:induction false} SortCounted(s: seq<Message>, k: Id)
    ensures Count(SortByTimestamp(s), k) == Count(s, k)
    decreases |s|
  {
    if s != [] {
      SortCounted(s[..|s| - 1], k);
      InsertCounted(SortByTimestamp(s[..|s| - 1]), s[|s| - 1], k);
    }
  }

  lemma {:induction false} CountKnown(s: seq<Message>, k: Id)
    ensures Count(s, k) > 0 <==> k in IdsOf(s)
    ensures (forall i, j :: 0 <= i < j < |s| ==> s[i].id != s[j].id) ==> Count(s, k) <= 1
    decreases |s|
  {
    if s != [] {
      var n := |s| - 1;
      CountKnown(s[..n], k);
      assert s == s[..n] + [s[n]];
      IdsConcat(s[..n], [s[n]]);
      assert IdsOf([s[n]]) == {s[n].id} by {
        assert [s[n]][0].id == s[n].id;
      }
      if (forall i, j :: 0 <= i < j < |s| ==> s[i].id != s[j].id) && s[n].id == k {
        assert k !in IdsOf(s[..n]);
      }
    }
  }

  /** A notice, a draft or a mirror came under the id since the last connect. */
  ghost predicate LocalCame(es: seq<Event>, k: Id) {
    exists i: nat :: LocalAt(es, k, i)
  }

  ghost predicate LocalAt(es: seq<Event>, k: Id, i: nat) {
    i < |es| && IsLocal(es[i]) && es[i].msg.id == k && forall j :: i < j < |es| ==> !es[j].ConnectStarted?
  }

  lemma {:induction false} LocalNext(es: seq<Event>, e: Event, k: Id)
    ensures LocalCame(es, k) && !e.ConnectStarted? ==> LocalCame(es + [e], k)
    ensures IsLocal(e) && e.msg.id == k ==> LocalCame(es + [e], k)
  {
    var more := es + [e];
    if i: nat :| LocalAt(es, k, i) && !e.ConnectStarted? {
      assert LocalAt(more, k, i);
    }
    if IsLocal(e) && e.msg.id == k {
      assert LocalAt(more, k, |es|);
    }
  }

  lemma {:induction false} MergeCounts(s: State, msgs: seq<Message>, k: Id)
    requires s.ids == IdsOf(s.log) && Count(s.log, k) <= 1
    ensures Count(Step(s, HistoryMerged(msgs)).log, k) <= 1
  {
    var incoming := NewOnes(s.ids, msgs);
    NewOnesAre(s.ids, msgs);
    CountKnown(incoming, k);
    CountKnown(s.log, k);
    CountJoin(s.log, incoming, k);
    SortCounted(s.log + incoming, k);
    hide NewOnes, SortByTimestamp, IdsOf, Count;
  }

  lemma {:induction false} StepCounts(s: State, e: Event, k: Id)
    requires s.ids == IdsOf(s.log) && Count(s.log, k) <= 1 && !(IsLocal(e) && e.msg.id == k)
    ensures Count(Step(s, e).log, k) <= 1
  {
    if e.HistoryMerged? {
      MergeCounts(s, e.msgs, k);
    } else if !e.ConnectStarted? && !e.OtherConnectionEvent? {
      CountKnown(s.log, k);
      CountJoin(s.log, [e.msg], k);
      assert Count([e.msg], k) == if e.msg.id == k then 1 else 0;
      hide Count, Merge;
    }
  }

  /** What is received is in the log once: an id that did not come locally since the last connect has at most one entry. */
  lemma {:induction false} OneEntryAnId(es: seq<Event>, k: Id)
    requires !LocalCame(es, k)
    ensures Count(Run(EMPTY, es).log, k) <= 1
    decreases |es|
  {
    if es != [] {
      hide Step;
      var n := |es| - 1;
      var e := es[n];
      LocalNext(es[..n], e, k);
      assert es[..n] + [e] == es;
      if e.ConnectStarted? {
        Cleared(Run(EMPTY, es[..n]));
      } else {
        hide LocalCame;
        OneEntryAnId(es[..n], k);
        IdsMirrorLog(es[..n]);
        StepCounts(Run(EMPTY, es[..n]), e, k);
      }
    }
  }

  lemma {:induction false} Cleared(s: State)
    ensures Step(s, ConnectStarted).log == []
  {
  }

  // ---- The code

  /** After `i` of the received messages, `incoming` having been added. */
  ghost predicate Merging(s: State, msgs: seq<Message>, i: nat, now: State, incoming: seq<Message>) {
    && i <= |msgs| && incoming + NewOnes(now.ids, msgs[i..]) == NewOnes(s.ids, msgs)
    && now == State(s.log + incoming, s.epoch, s.ids + IdsOf(incoming))
  }

  lemma {:induction false} MergingStep(s: State, msgs: seq<Message>, i: nat, now: State, incoming: seq<Message>)
    requires i < |msgs| && Merging(s, msgs, i, now, incoming)
    ensures var m := msgs[i];
            if m.id in now.ids then Merging(s, msgs, i + 1, now, incoming)
            else Merging(s, msgs, i + 1, Append(now, m), incoming + [m])
  {
    var m := msgs[i];
    assert msgs[i..][0] == m && msgs[i..][1..] == msgs[i + 1..];
    if m.id !in now.ids {
      IdsConcat(incoming, [m]);
      assert IdsOf([m]) == {m.id} by {
        assert [m][0].id == m.id;
      }
    }
  }

  class ChatProjection {
    var chatMessages: seq<Message>
    var chatEpoch: nat
    var chatIds: set<Id>

    ghost function Now(): State
      reads this
    {
      State(chatMessages, chatEpoch, chatIds)
    }

    constructor ()
      ensures Now() == EMPTY
    {
      chatMessages, chatEpoch, chatIds := [], 0, {};
    }

    method AddMessage(msg: Message)
      modifies this
      ensures Now() == Step(old(Now()), MessageAdded(msg))
    {
      if msg.id in chatIds {
        return;
      }
      chatIds := chatIds + {msg.id};
      chatMessages := chatMessages + [msg];
    }

    /** Notices, drafts and mirrors are not deduplicated. */
    method AddLocal(msg: Message)
      modifies this
      ensures Now() == Append(old(Now()), msg)
    {
      chatIds := chatIds + {msg.id};
      chatMessages := chatMessages + [msg];
    }

    method MergeHistory(msgs: seq<Message>)
      modifies this
      ensures Now() == Step(old(Now()), HistoryMerged(msgs))
    {
      var added := false;
      ghost var s := Now();
      ghost var incoming: seq<Message> := [];
      for i := 0 to |msgs|
        invariant Merging(s, msgs, i, Now(), incoming) && (added <==> incoming != [])
      {
        var msg := msgs[i];
        MergingStep(s, msgs, i, Now(), incoming);
        hide Merging;
        if msg.id !in chatIds {
          chatIds := chatIds + {msg.id};
          chatMessages := chatMessages + [msg];
          added := true;
          incoming := incoming + [msg];
        }
      }
      assert incoming == NewOnes(s.ids, msgs);
      if added {
        chatMessages := SortByTimestamp(chatMessages);
        chatEpoch := chatEpoch + 1;
      }
    }

    method StartConnect()
      modifies this
      ensures Now() == Step(old(Now()), ConnectStarted)
    {
      chatMessages := [];
      chatEpoch := chatEpoch + 1;
      chatIds := {};
    }

    /** One event of the bus, folded into the log. */
    method Fold(e: Event)
      modifies this
      ensures Now() == Step(old(Now()), e)
    {
      match e
      case MessageAdded(msg) => AddMessage(msg);
      case SystemNotice(msg) => AddLocal(msg);
      case SenderDraftInserted(msg) => AddLocal(msg);
      case SenderMirrorInserted(msg) => AddLocal(msg);
      case HistoryMerged(msgs) => MergeHistory(msgs);
      case ConnectStarted => StartConnect();
      case OtherConnectionEvent =>
    }
  }
}
