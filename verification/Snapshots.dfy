/**
 The "latest value wins" channel: any number of readers and writer handles over one cell, interleaved at every reference
 count they read or change. Buffers are reference counted; a writer recycles the buffer it swapped out.
 */
module Snapshots {

  type Buffer = nat
  type Value = int

  // Every place that can own a reference, each at most one: the cell, a writer handle (its spare, or the buffer its store
  // is working on), a reader in the middle of a load.
  datatype Holder = Cell | WriterRef(w: nat) | ReaderRef(r: nat)

  // Where a writer is in a store: about to look whether its spare is unshared, about to write into it in place, about to
  // allocate, about to swap, about to look whether the buffer it got back is unshared.
  datatype Phase = Idle | Checking(v: Value) | Writing(v: Value) | Allocating(v: Value) | Ready(v: Value) | Swapped

  datatype State = State(
    heap: map<Buffer, Value>,
    count: map<Buffer, nat>,
    refs: map<Holder, Buffer>,
    phase: map<nat, Phase>,
    next: Buffer,
    latest: Value,              // the value of the last swap
    expected: map<nat, Value>,  // per reader: the value published when it loaded
    loads: seq<(Value, Value)>) // per finished copy: the value published at the load, and the value returned

  datatype Event =
    | Load(r: nat) | Copy(r: nat) | Drop(r: nat)
    | CloneWriter(w: nat, to: nat) | DropWriter(w: nat)
    | Store(w: nat, v: Value) | Advance(w: nat)

  function Fresh(initial: Value): State {
    State(map[0 := initial], map[0 := 1], map[Cell := 0], map[0 := Idle], 1, initial, map[], [])
  }

  // ---- References

  /** `h` takes one more reference to `b`. */
  function Acquire(s: State, h: Holder, b: Buffer): State {
    if b in s.count then s.(refs := s.refs[h := b], count := s.count[b := s.count[b] + 1]) else s
  }

  /** `h` gives up its reference; the last one frees the buffer. */
  function Release(s: State, h: Holder): State {
    if h !in s.refs then s
    else
      var b := s.refs[h];
      var t := s.(refs := s.refs - {h});
      if b !in s.count || s.count[b] <= 1 then t.(heap := s.heap - {b}, count := s.count - {b})
      else t.(count := s.count[b := s.count[b] - 1])
  }

  function Allocate(s: State, h: Holder, v: Value): State {
    s.(heap := s.heap[s.next := v], count := s.count[s.next := 1], refs := s.refs[h := s.next], next := s.next + 1)
  }

  predicate Unshared(s: State, h: Holder) {
    h in s.refs && s.refs[h] in s.count && s.count[s.refs[h]] == 1
  }

  // ---- Steps

  function WriterStep(s: State, w: nat): State
    requires w in s.phase
  {
    var h := WriterRef(w);
    match s.phase[w]
    case Idle => s
    case Checking(v) => s.(phase := s.phase[w := if Unshared(s, h) then Writing(v) else Allocating(v)])
    case Writing(v) => if h in s.refs then s.(heap := s.heap[s.refs[h] := v], phase := s.phase[w := Ready(v)]) else s
    case Allocating(v) => Allocate(Release(s, h), h, v).(phase := s.phase[w := Ready(v)])
    case Ready(v) => Swap(s, w, v)
    case Swapped => (if Unshared(s, h) then s else Release(s, h)).(phase := s.phase[w := Idle])
  }

  function Swap(s: State, w: nat, v: Value): State {
    var h := WriterRef(w);
    if h in s.refs && Cell in s.refs then
      s.(refs := s.refs[Cell := s.refs[h]][h := s.refs[Cell]], phase := s.phase[w := Swapped], latest := v)
    else s
  }

  function LoadStep(s: State, r: nat): State {
    if ReaderRef(r) !in s.refs && Cell in s.refs then
      Acquire(s, ReaderRef(r), s.refs[Cell]).(expected := s.expected[r := s.latest])
    else s
  }

  function CopyStep(s: State, r: nat): State {
    if ReaderRef(r) in s.refs && s.refs[ReaderRef(r)] in s.heap && r in s.expected then
      s.(loads := s.loads + [(s.expected[r], s.heap[s.refs[ReaderRef(r)]])])
    else s
  }

  function CloneStep(s: State, w: nat, to: nat): State {
    if w in s.phase && s.phase[w].Idle? && to !in s.phase then
      var t := if WriterRef(w) in s.refs then Acquire(s, WriterRef(to), s.refs[WriterRef(w)]) else s;
      t.(phase := s.phase[to := Idle])
    else s
  }

  function DropWriterStep(s: State, w: nat): State {
    if w in s.phase && s.phase[w].Idle? then Release(s, WriterRef(w)).(phase := s.phase - {w}) else s
  }

  function Step(s: State, e: Event): State {
    match e
    case Load(r) => LoadStep(s, r)
    case Copy(r) => CopyStep(s, r)
    case Drop(r) => Release(s, ReaderRef(r))
    case CloneWriter(w, to) => CloneStep(s, w, to)
    case DropWriter(w) => DropWriterStep(s, w)
    case Store(w, v) => if w in s.phase && s.phase[w].Idle? then s.(phase := s.phase[w := Checking(v)]) else s
    case Advance(w) => if w in s.phase then WriterStep(s, w) else s
  }

  function Run(s: State, es: seq<Event>): State
    decreases |es|
  {
    if es == [] then s else Step(Run(s, es[..|es| - 1]), es[|es| - 1])
  }

  // ---- The invariant

  function Holders(s: State, b: Buffer): set<Holder> {
    set h | h in s.refs && s.refs[h] == b
  }

  /** Nothing dangles, nothing leaks, and every count is honest. */
  ghost predicate Counted(s: State) {
    && s.heap.Keys == s.count.Keys
    && (forall h :: h in s.refs ==> s.refs[h] in s.heap)
    && (forall b :: b in s.count ==> s.count[b] == |Holders(s, b)| && s.count[b] > 0 && b < s.next)
  }

  ghost predicate WriterOk(s: State, w: nat)
    requires w in s.phase
  {
    var h := WriterRef(w);
    match s.phase[w]
    case Writing(v) => h in s.refs && Holders(s, s.refs[h]) == {h}
    case Ready(v) => h in s.refs && s.refs[h] in s.heap && s.heap[s.refs[h]] == v
    case Swapped => h in s.refs
    case _ => true
  }

  ghost predicate ReaderOk(s: State, r: nat) {
    ReaderRef(r) in s.refs ==>
      r in s.expected && s.refs[ReaderRef(r)] in s.heap && s.heap[s.refs[ReaderRef(r)]] == s.expected[r]
  }

  ghost predicate Published(s: State) {
    Cell in s.refs && s.refs[Cell] in s.heap && s.heap[s.refs[Cell]] == s.latest
  }

  ghost predicate LoadsAgree(s: State) {
    forall i :: 0 <= i < |s.loads| ==> s.loads[i].0 == s.loads[i].1
  }

  ghost predicate Safe(s: State) {
    && Counted(s) && Published(s) && LoadsAgree(s)
    && (forall w :: w in s.phase ==> WriterOk(s, w))
    && (forall w :: WriterRef(w) in s.refs ==> w in s.phase)
    && (forall r :: ReaderOk(s, r))
  }

  // ---- Reference counting is honest

  ghost predicate Refers(s: State, h: Holder, b: Buffer) {
    h in s.refs && s.refs[h] == b
  }

  ghost predicate SameElsewhere(s: State, t: State, h: Holder) {
    forall g :: g != h ==> (g in s.refs <==> g in t.refs) && (g in s.refs ==> s.refs[g] == t.refs[g])
  }

  lemma {:induction false} HoldersSame(s: State, t: State, h: Holder, b: Buffer)
    requires SameElsewhere(s, t, h) && (Refers(s, h, b) <==> Refers(t, h, b))
    ensures Holders(t, b) == Holders(s, b)
  {
  }

  lemma {:induction false} HoldersGrow(s: State, t: State, h: Holder, b: Buffer)
    requires SameElsewhere(s, t, h) && !Refers(s, h, b) && Refers(t, h, b)
    ensures Holders(t, b) == Holders(s, b) + {h} && |Holders(t, b)| == |Holders(s, b)| + 1
  {
    assert Holders(t, b) == Holders(s, b) + {h};
    assert h !in Holders(s, b);
  }

  lemma {:induction false} HoldersChange(s: State, t: State, h: Holder, b: Buffer)
    requires SameElsewhere(s, t, h)
    ensures |Holders(t, b)| == |Holders(s, b)| + (if Refers(t, h, b) then 1 else 0) - (if Refers(s, h, b) then 1 else 0)
  {
    hide SameElsewhere, Holders;
    if Refers(s, h, b) == Refers(t, h, b) {
      HoldersSame(s, t, h, b);
    } else if Refers(t, h, b) {
      HoldersGrow(s, t, h, b);
    } else {
      SameBack(s, t, h);
      HoldersGrow(t, s, h, b);
    }
  }

  lemma {:induction false} SameBack(s: State, t: State, h: Holder)
    requires SameElsewhere(s, t, h)
    ensures SameElsewhere(t, s, h)
  {
  }

  lemma {:induction false} OnlyHolder(s: State, h: Holder)
    requires Counted(s) && Unshared(s, h)
    ensures Holders(s, s.refs[h]) == {h}
  {
    var hs := Holders(s, s.refs[h]);
    assert h in hs && |hs| == 1;
    assert |hs - {h}| == 0;
    assert hs == {h} + (hs - {h});
  }

  lemma {:induction false} NoHolders(s: State, b: Buffer, h: Holder)
    requires |Holders(s, b)| == 0 && h in s.refs
    ensures s.refs[h] != b
  {
    assert h !in Holders(s, b);
  }

  lemma {:induction false} AcquireCounted(s: State, h: Holder, b: Buffer)
    requires Counted(s) && h !in s.refs && b in s.heap
    ensures Counted(Acquire(s, h, b))
  {
    hide Holders;
    var t := Acquire(s, h, b);
    forall c | c in t.count ensures t.count[c] == |Holders(t, c)| && t.count[c] > 0 && c < t.next {
      HoldersChange(s, t, h, c);
    }
  }

  lemma {:induction false} ReleaseCounted(s: State, h: Holder)
    requires Counted(s)
    ensures Counted(Release(s, h))
    ensures forall c :: c in Release(s, h).heap ==> c in s.heap && Release(s, h).heap[c] == s.heap[c]
    ensures forall g :: g != h && g in s.refs ==> s.refs[g] in Release(s, h).heap
  {
    hide Holders;
    if h in s.refs {
      var t, b := Release(s, h), s.refs[h];
      forall c | c in t.count ensures t.count[c] == |Holders(t, c)| && t.count[c] > 0 && c < t.next {
        HoldersChange(s, t, h, c);
      }
      HoldersChange(s, t, h, b);
      if s.count[b] == 1 {
        forall g | g in t.refs ensures t.refs[g] != b {
          NoHolders(t, b, g);
        }
      }
    }
  }

  lemma {:induction false} AllocateCounted(s: State, h: Holder, v: Value)
    requires Counted(s) && h !in s.refs
    ensures Counted(Allocate(s, h, v))
  {
    var t := Allocate(s, h, v);
    assert s.next !in s.count;
    assert Holders(s, s.next) == {};
    forall c | c in t.count ensures t.count[c] == |Holders(t, c)| && t.count[c] > 0 && c < t.next {
      HoldersChange(s, t, h, c);
    }
  }

  // ---- Every step is safe

  /** Nobody else's buffer was touched. */
  ghost predicate BuffersKept(s: State, t: State, h: Holder) {
    forall g :: g != h && g in s.refs && s.refs[g] in s.heap ==>
      s.refs[g] in t.heap && t.heap[s.refs[g]] == s.heap[s.refs[g]]
  }

  /** `h` has not come to share a buffer that a writer is about to write in place. */
  ghost predicate Polite(s: State, t: State, h: Holder) {
    forall w :: w in s.phase && s.phase[w].Writing? && WriterRef(w) != h && WriterRef(w) in s.refs ==>
      Refers(t, h, s.refs[WriterRef(w)]) ==> Refers(s, h, s.refs[WriterRef(w)])
  }

  ghost predicate PhasesKept(s: State, t: State, h: Holder) {
    && (forall w :: WriterRef(w) != h ==> (w in s.phase <==> w in t.phase) && (w in s.phase ==> t.phase[w] == s.phase[w]))
    && (forall r :: ReaderRef(r) != h && r in s.expected ==> r in t.expected && t.expected[r] == s.expected[r])
    && t.latest == s.latest
  }

  ghost predicate Aside(s: State, t: State, h: Holder) {
    SameElsewhere(s, t, h) && BuffersKept(s, t, h) && Polite(s, t, h) && PhasesKept(s, t, h)
  }

  /** What the step owes for its own holder. */
  ghost predicate OwnOk(t: State, h: Holder) {
    match h
    case Cell => false
    case WriterRef(w) => (w in t.phase ==> WriterOk(t, w)) && (h in t.refs ==> w in t.phase)
    case ReaderRef(r) => ReaderOk(t, r)
  }

  lemma {:induction false} WriterKept(s: State, t: State, h: Holder, w: nat)
    requires Aside(s, t, h) && WriterRef(w) != h && w in s.phase && WriterOk(s, w)
    ensures w in t.phase && WriterOk(t, w)
  {
    if s.phase[w].Writing? {
      var b := s.refs[WriterRef(w)];
      assert Refers(s, h, b) ==> h in Holders(s, b);
      HoldersSame(s, t, h, b);
    }
  }

  lemma {:induction false} ReaderKept(s: State, t: State, h: Holder, r: nat)
    requires Aside(s, t, h) && ReaderRef(r) != h && ReaderOk(s, r)
    ensures ReaderOk(t, r)
  {
    hide Polite;
  }

  /** A step of `h` alone keeps the whole system safe. */
  lemma {:induction false} AsideSafe(s: State, t: State, h: Holder)
    requires Safe(s) && Aside(s, t, h) && Counted(t) && LoadsAgree(t) && OwnOk(t, h)
    ensures Safe(t)
  {
    hide Counted, LoadsAgree, Polite, WriterOk, ReaderOk;
    forall w | w in t.phase ensures WriterOk(t, w) {
      if WriterRef(w) != h {
        WriterKept(s, t, h, w);
      }
    }
    forall r ensures ReaderOk(t, r) {
      if ReaderRef(r) != h {
        ReaderKept(s, t, h, r);
      }
    }
  }

  /** A buffer someone else holds is not one a writer is about to write. */
  lemma {:induction false} WritingIsAlone(s: State, w: nat, g: Holder)
    requires Safe(s) && w in s.phase && s.phase[w].Writing? && g != WriterRef(w) && g in s.refs
    ensures WriterRef(w) in s.refs && s.refs[WriterRef(w)] != s.refs[g]
  {
    hide Counted, LoadsAgree, ReaderOk;
    assert WriterOk(s, w);
    var b := s.refs[WriterRef(w)];
    assert (g in Holders(s, b)) == (s.refs[g] == b);
  }

  lemma {:induction false} AcquireAside(s: State, h: Holder, g: Holder)
    requires Safe(s) && h !in s.refs && g in s.refs && g != h
    requires g.WriterRef? ==> g.w in s.phase && s.phase[g.w].Idle?
    ensures Aside(s, Acquire(s, h, s.refs[g]), h) && Counted(Acquire(s, h, s.refs[g]))
  {
    AcquireCounted(s, h, s.refs[g]);
    var t := Acquire(s, h, s.refs[g]);
    assert Polite(s, t, h) by {
      forall w | w in s.phase && s.phase[w].Writing? && WriterRef(w) != h && WriterRef(w) in s.refs
        ensures !Refers(t, h, s.refs[WriterRef(w)])
      {
        WritingIsAlone(s, w, g);
      }
    }
    hide Counted, WriterOk, ReaderOk, Polite;
  }

  lemma {:induction false} ReleasePolite(s: State, h: Holder)
    ensures Polite(s, Release(s, h), h)
  {
    assert h !in Release(s, h).refs;
    hide Release;
  }

  lemma {:induction false} ReleaseSame(s: State, h: Holder)
    ensures SameElsewhere(s, Release(s, h), h) && PhasesKept(s, Release(s, h), h)
  {
    var t := Release(s, h);
    assert t.phase == s.phase && t.expected == s.expected && t.latest == s.latest && t.refs == s.refs - {h};
    hide Release;
  }

  lemma {:induction false} ReleaseBuffers(s: State, h: Holder)
    requires Counted(s)
    ensures BuffersKept(s, Release(s, h), h)
  {
    ReleaseCounted(s, h);
    hide Release, Counted;
  }

  lemma {:induction false} ReleaseAside(s: State, h: Holder)
    requires Safe(s)
    ensures Aside(s, Release(s, h), h) && Counted(Release(s, h))
  {
    ReleaseCounted(s, h);
    ReleasePolite(s, h);
    ReleaseSame(s, h);
    ReleaseBuffers(s, h);
    hide Release, Counted, SameElsewhere, BuffersKept, Polite, PhasesKept;
  }

  /** Phases, expectations and loads do not bear on the references. */
  lemma {:induction false} Relabelled(s: State, u: State, t: State, h: Holder)
    requires Aside(s, u, h) && Counted(u) && PhasesKept(s, t, h)
    requires t.refs == u.refs && t.heap == u.heap && t.count == u.count && t.next == u.next
    ensures Aside(s, t, h) && Counted(t)
    ensures forall b :: Holders(t, b) == Holders(u, b)
  {
    hide PhasesKept;
    SameHolders(u, t);
    hide Holders;
  }

  lemma {:induction false} SameHolders(u: State, t: State)
    requires t.refs == u.refs
    ensures forall b :: Holders(t, b) == Holders(u, b)
  {
  }

  lemma {:induction false} SelfAside(s: State, h: Holder)
    ensures Aside(s, s, h)
  {
  }

  lemma {:induction false} ReleaseOnlyRefs(s: State, h: Holder)
    ensures var t := Release(s, h);
            t.phase == s.phase && t.expected == s.expected && t.latest == s.latest && t.loads == s.loads
            && h !in t.refs && t.next == s.next
  {
  }

  lemma {:induction false} AcquireOnlyRefs(s: State, h: Holder, b: Buffer)
    requires b in s.count
    ensures var t := Acquire(s, h, b);
            t.phase == s.phase && t.expected == s.expected && t.latest == s.latest && t.loads == s.loads
            && t.refs == s.refs[h := b] && t.heap == s.heap
  {
  }

  lemma {:induction false} WriterPhaseKept(s: State, t: State, w: nat)
    requires t.expected == s.expected && t.latest == s.latest && w in s.phase
    requires forall x :: x != w ==> (x in s.phase <==> x in t.phase) && (x in s.phase ==> t.phase[x] == s.phase[x])
    ensures PhasesKept(s, t, WriterRef(w))
  {
  }

  lemma {:induction false} RelabelledSafe(s: State, u: State, t: State, h: Holder)
    requires Safe(s) && Aside(s, u, h) && Counted(u) && PhasesKept(s, t, h) && LoadsAgree(t) && OwnOk(t, h)
    requires t.refs == u.refs && t.heap == u.heap && t.count == u.count && t.next == u.next
    ensures Safe(t)
  {
    hide Safe, Aside, Counted, PhasesKept, LoadsAgree, OwnOk, Holders;
    Relabelled(s, u, t, h);
    AsideSafe(s, t, h);
  }

  lemma {:induction false} SafeFacts(s: State)
    requires Safe(s)
    ensures Cell in s.refs && LoadsAgree(s) && Counted(s)
    ensures forall r :: ReaderRef(r) in s.refs ==> ReaderOk(s, r)
    ensures s.refs[Cell] in s.count && s.refs[Cell] in s.heap && s.heap[s.refs[Cell]] == s.latest
  {
  }

  lemma {:induction false} LoadSafe(s: State, r: nat)
    requires Safe(s)
    ensures Safe(LoadStep(s, r))
  {
    hide Safe, Counted, WriterOk, Aside, Holders;
    var h, t := ReaderRef(r), LoadStep(s, r);
    SafeFacts(s);
    if h !in s.refs {
      AcquireAside(s, h, Cell);
      AcquireOnlyRefs(s, h, s.refs[Cell]);
      assert PhasesKept(s, t, h) && OwnOk(t, h) && LoadsAgree(t);
      hide PhasesKept, OwnOk, LoadsAgree;
      RelabelledSafe(s, Acquire(s, h, s.refs[Cell]), t, h);
    }
  }

  lemma {:induction false} DropSafe(s: State, r: nat)
    requires Safe(s)
    ensures Safe(Release(s, ReaderRef(r)))
  {
    SafeFacts(s);
    ReleaseAside(s, ReaderRef(r));
    hide Safe, Counted, WriterOk, Aside, Holders;
    AsideSafe(s, Release(s, ReaderRef(r)), ReaderRef(r));
  }

  lemma {:induction false} DropWriterSafe(s: State, w: nat)
    requires Safe(s)
    ensures Safe(DropWriterStep(s, w))
  {
    if w in s.phase && s.phase[w].Idle? {
      var h, t := WriterRef(w), DropWriterStep(s, w);
      hide Safe, Counted, WriterOk, ReaderOk, Aside, Holders, PhasesKept, LoadsAgree, Release, Acquire;
      SafeFacts(s);
      ReleaseAside(s, h);
      ReleaseOnlyRefs(s, h);
      WriterPhaseKept(s, t, w);
      RelabelledSafe(s, Release(s, h), t, h);
    }
  }

  lemma {:induction false} CopySafe(s: State, r: nat)
    requires Safe(s)
    ensures Safe(CopyStep(s, r))
  {
    var t := CopyStep(s, r);
    SafeFacts(s);
    SelfAside(s, ReaderRef(r));
    hide Safe, Counted, WriterOk, Aside, Holders;
    RelabelledSafe(s, s, t, ReaderRef(r));
  }

  lemma {:induction false} IdleClone(s: State, to: nat)
    requires Safe(s) && to !in s.phase
    ensures WriterRef(to) !in s.refs
  {
  }

  lemma {:induction false} IdleHolds(s: State, w: nat)
    requires Safe(s) && WriterRef(w) in s.refs
    ensures s.refs[WriterRef(w)] in s.count
  {
  }

  lemma {:induction false} ClonedPhases(s: State, t: State, to: nat)
    requires to !in s.phase && t.phase == s.phase[to := Idle] && t.expected == s.expected && t.latest == s.latest
    ensures PhasesKept(s, t, WriterRef(to)) && OwnOk(t, WriterRef(to))
  {
  }

  lemma {:induction false} CloneSafe(s: State, w: nat, to: nat)
    requires Safe(s)
    ensures Safe(CloneStep(s, w, to))
  {
    if w in s.phase && s.phase[w].Idle? && to !in s.phase {
      var h, t := WriterRef(to), CloneStep(s, w, to);
      SafeFacts(s);
      IdleClone(s, to);
      var u := s;
      if WriterRef(w) in s.refs {
        var b := s.refs[WriterRef(w)];
        IdleHolds(s, w);
        AcquireAside(s, h, WriterRef(w));
        AcquireOnlyRefs(s, h, b);
        u := Acquire(s, h, b);
      } else {
        SelfAside(s, h);
      }
      hide Safe, Counted, ReaderOk, Aside, Holders, LoadsAgree, Acquire;
      ClonedPhases(s, t, to);
      hide PhasesKept, OwnOk;
      RelabelledSafe(s, u, t, h);
    }
  }

  // ---- The steps of a store

  lemma {:induction false} PhaseSafe(s: State, t: State, w: nat, p: Phase)
    requires Safe(s) && w in s.phase && t == s.(phase := s.phase[w := p])
    requires WriterOk(t, w)
    ensures Safe(t)
  {
    hide Counted, WriterOk, Aside, Polite, BuffersKept, SameElsewhere;
    SelfAside(s, WriterRef(w));
    Relabelled(s, s, t, WriterRef(w));
    AsideSafe(s, t, WriterRef(w));
  }

  lemma {:induction false} CheckSafe(s: State, w: nat)
    requires Safe(s) && w in s.phase && s.phase[w].Checking?
    ensures Safe(WriterStep(s, w))
  {
    var t := WriterStep(s, w);
    if Unshared(s, WriterRef(w)) {
      OnlyHolder(s, WriterRef(w));
      var b := s.refs[WriterRef(w)];
      assert Holders(t, b) == Holders(s, b);
    }
    hide Counted, Holders, Unshared;
    PhaseSafe(s, t, w, t.phase[w]);
  }

  /** Writing in place touches the one buffer nobody else refers to. */
  lemma {:induction false} WriteSafe(s: State, w: nat)
    requires Safe(s) && w in s.phase && s.phase[w].Writing?
    ensures Safe(WriterStep(s, w))
  {
    var h, t := WriterRef(w), WriterStep(s, w);
    assert WriterOk(s, w);
    assert BuffersKept(s, t, h) by {
      forall g | g != h && g in s.refs ensures s.refs[g] != s.refs[h] {
        WritingIsAlone(s, w, g);
      }
    }
    assert SameElsewhere(s, t, h) && Polite(s, t, h) && PhasesKept(s, t, h);
    assert Counted(t) by {
      hide WriterOk, ReaderOk, Published, LoadsAgree;
      assert forall b :: Holders(t, b) == Holders(s, b);
    }
    hide Counted, Holders, Aside;
    assert Aside(s, t, h) by {
      hide BuffersKept, Polite, SameElsewhere, PhasesKept, Safe;
      AsideIs(s, t, h);
    }
    AsideSafe(s, t, h);
  }

  lemma {:induction false} AsideIs(s: State, t: State, h: Holder)
    requires SameElsewhere(s, t, h) && BuffersKept(s, t, h) && Polite(s, t, h) && PhasesKept(s, t, h)
    ensures Aside(s, t, h)
  {
  }

  lemma {:induction false} AllocateAside(s: State, u: State, h: Holder, v: Value)
    requires Counted(s) && Counted(u) && Aside(s, u, h) && h !in u.refs && u.next == s.next
    ensures Aside(s, Allocate(u, h, v), h) && Counted(Allocate(u, h, v))
  {
    AllocateCounted(u, h, v);
    var t := Allocate(u, h, v);
    assert u.next !in s.count && u.next !in u.count;
    assert SameElsewhere(s, t, h) && PhasesKept(s, t, h);
    assert forall g :: g in s.refs ==> s.refs[g] != u.next;
  }

  lemma {:induction false} SameLoads(s: State, t: State)
    requires LoadsAgree(s) && t.loads == s.loads
    ensures LoadsAgree(t)
  {
  }

  lemma {:induction false} AllocatedOk(u: State, t: State, w: nat, v: Value)
    requires w in u.phase && t == Allocate(u, WriterRef(w), v).(phase := u.phase[w := Ready(v)])
    ensures OwnOk(t, WriterRef(w))
  {
  }

  lemma {:induction false} FillSafe(s: State, w: nat)
    requires Safe(s) && w in s.phase && s.phase[w].Allocating?
    ensures Safe(WriterStep(s, w))
  {
    var h, t, v := WriterRef(w), WriterStep(s, w), s.phase[w].v;
    var u := Release(s, h);
    SafeFacts(s);
    ReleaseAside(s, h);
    ReleaseOnlyRefs(s, h);
    hide Safe, Counted, ReaderOk, Aside, Holders, PhasesKept, LoadsAgree, Release;
    AllocateAside(s, u, h, v);
    WriterPhaseKept(s, t, w);
    AllocatedOk(u, t, w, v);
    SameLoads(s, t);
    hide WriterStep, Allocate, WriterOk, OwnOk;
    RelabelledSafe(s, Allocate(u, h, v), t, h);
  }

  lemma {:induction false} ReclaimSafe(s: State, w: nat)
    requires Safe(s) && w in s.phase && s.phase[w].Swapped?
    ensures Safe(WriterStep(s, w))
  {
    var h, t := WriterRef(w), WriterStep(s, w);
    if Unshared(s, h) {
      hide Counted, Unshared;
      PhaseSafe(s, t, w, Idle);
    } else {
      SafeFacts(s);
      ReleaseAside(s, h);
      ReleaseOnlyRefs(s, h);
      hide Safe, Counted, ReaderOk, Aside, Holders, PhasesKept, LoadsAgree, Release, Unshared;
      assert t.phase == s.phase[w := Idle];
      WriterPhaseKept(s, t, w);
      RelabelledSafe(s, Release(s, h), t, h);
    }
  }

  // ---- The swap

  /** Two holders exchange their buffers. */
  ghost predicate Exchanged(s: State, t: State, g: Holder, h: Holder) {
    && g != h && g in s.refs && h in s.refs && t.refs == s.refs[g := s.refs[h]][h := s.refs[g]]
  }

  lemma {:induction false} ExchangeCounts(s: State, t: State, g: Holder, h: Holder, b: Buffer)
    requires Exchanged(s, t, g, h)
    ensures |Holders(t, b)| == |Holders(s, b)|
    ensures s.refs[g] != b && s.refs[h] != b ==> Holders(t, b) == Holders(s, b)
  {
    var u := s.(refs := s.refs[g := s.refs[h]]);
    HoldersChange(s, u, g, b);
    HoldersChange(u, t, h, b);
    if s.refs[g] != b && s.refs[h] != b {
      HoldersSame(s, u, g, b);
      HoldersSame(u, t, h, b);
    }
  }

  lemma {:induction false} ExchangeCounted(s: State, t: State, g: Holder, h: Holder)
    requires Counted(s) && Exchanged(s, t, g, h) && t.heap == s.heap && t.count == s.count && t.next == s.next
    ensures Counted(t)
  {
    hide Holders;
    forall b | b in t.count ensures t.count[b] == |Holders(t, b)| && t.count[b] > 0 && b < t.next {
      ExchangeCounts(s, t, g, h, b);
    }
  }

  lemma {:induction false} SwapWriters(s: State, w: nat, x: nat)
    requires Safe(s) && w in s.phase && s.phase[w].Ready? && x in s.phase
    ensures WriterOk(WriterStep(s, w), x)
  {
    var h, t := WriterRef(w), WriterStep(s, w);
    assert WriterOk(s, w) && WriterOk(s, x);
    if x != w && s.phase[x].Writing? {
      WritingIsAlone(s, x, Cell);
      WritingIsAlone(s, x, h);
      ExchangeCounts(s, t, Cell, h, s.refs[WriterRef(x)]);
    }
  }

  lemma {:induction false} SwapSafe(s: State, w: nat)
    requires Safe(s) && w in s.phase && s.phase[w].Ready?
    ensures Safe(WriterStep(s, w))
  {
    var h, t := WriterRef(w), WriterStep(s, w);
    assert WriterOk(s, w);
    ExchangeCounted(s, t, Cell, h);
    forall x | x in t.phase ensures WriterOk(t, x) {
      SwapWriters(s, w, x);
    }
    hide Counted, WriterOk;
    forall r ensures ReaderOk(t, r) {
      assert ReaderOk(s, r);
    }
    assert Published(t) && LoadsAgree(t);
  }

  // ---- Every run

  lemma {:induction false} StepSafe(s: State, e: Event)
    requires Safe(s)
    ensures Safe(Step(s, e))
  {
    hide Safe, WriterStep, Release;
    match e
    case Load(r) => LoadSafe(s, r);
    case Copy(r) => CopySafe(s, r);
    case Drop(r) => DropSafe(s, r);
    case CloneWriter(w, to) => CloneSafe(s, w, to);
    case DropWriter(w) => DropWriterSafe(s, w);
    case Store(w, v) => StoreSafe(s, w, v);
    case Advance(w) => AdvanceSafe(s, w);
  }

  lemma {:induction false} StoreSafe(s: State, w: nat, v: Value)
    requires Safe(s)
    ensures Safe(Step(s, Store(w, v)))
  {
    hide Safe;
    if w in s.phase && s.phase[w].Idle? {
      PhaseSafe(s, Step(s, Store(w, v)), w, Checking(v));
    }
  }

  lemma {:induction false} AdvanceSafe(s: State, w: nat)
    requires Safe(s)
    ensures Safe(Step(s, Advance(w)))
  {
    hide Safe;
    if w in s.phase && !s.phase[w].Idle? {
      match s.phase[w]
      case Checking(_) => CheckSafe(s, w);
      case Writing(_) => WriteSafe(s, w);
      case Allocating(_) => FillSafe(s, w);
      case Ready(_) => SwapSafe(s, w);
      case Swapped => ReclaimSafe(s, w);
    }
  }

  lemma {:induction false} FreshSafe(initial: Value)
    ensures Safe(Fresh(initial))
  {
    var s := Fresh(initial);
    assert Holders(s, 0) == {Cell};
  }

  lemma {:induction false} RunSafe(s: State, es: seq<Event>)
    requires Safe(s)
    ensures Safe(Run(s, es))
    decreases |es|
  {
    hide Safe, Step;
    if es != [] {
      RunSafe(s, es[..|es| - 1]);
      StepSafe(Run(s, es[..|es| - 1]), es[|es| - 1]);
    }
  }

  /** In every interleaving, every load returns the value that was published at its load step, and no buffer leaks. */
  lemma {:induction false} LoadsReturnWhatWasPublished(initial: Value, es: seq<Event>)
    ensures var t := Run(Fresh(initial), es);
            && (forall i :: 0 <= i < |t.loads| ==> t.loads[i].0 == t.loads[i].1)
            && (forall b :: b in t.heap <==> exists h :: h in t.refs && t.refs[h] == b)
  {
    FreshSafe(initial);
    RunSafe(Fresh(initial), es);
    var t := Run(Fresh(initial), es);
    forall b ensures b in t.heap <==> exists h :: h in t.refs && t.refs[h] == b {
      if b in t.heap {
        assert b in t.count && |Holders(t, b)| > 0;
        var h :| h in Holders(t, b);
      }
    }
  }

  /** A step that changes a buffer's contents is a store writing the one buffer that nobody else can reach. */
  lemma {:induction false} NoSharedMutation(s: State, e: Event, b: Buffer)
    requires Safe(s) && b in s.heap && b in Step(s, e).heap && Step(s, e).heap[b] != s.heap[b]
    ensures e.Advance? && e.w in s.phase && s.phase[e.w].Writing?
    ensures Holders(s, b) == {WriterRef(e.w)} && s.refs[Cell] != b
  {
    assert s.next !in s.heap && Cell in s.refs;
    assert e.Advance? && e.w in s.phase ==> WriterOk(s, e.w);
    hide Safe;
    if e.Advance? && e.w in s.phase && s.phase[e.w].Writing? {
      assert Cell in Holders(s, b) <==> s.refs[Cell] == b;
    }
  }

  // ---- One store, undisturbed

  function StoreEvents(w: nat, v: Value): seq<Event> {
    [Store(w, v), Advance(w), Advance(w), Advance(w), Advance(w)]
  }

  /** Overwrite the spare in place if nobody shares it, else take a new buffer. */
  function Prepared(s: State, h: Holder, v: Value): State {
    if Unshared(s, h) then s.(heap := s.heap[s.refs[h] := v]) else Allocate(Release(s, h), h, v)
  }

  function SwappedIn(s: State, h: Holder, v: Value): State
    requires h in s.refs && Cell in s.refs
  {
    s.(refs := s.refs[Cell := s.refs[h]][h := s.refs[Cell]], latest := v)
  }

  function Reclaimed(s: State, h: Holder): State {
    if Unshared(s, h) then s else Release(s, h)
  }

  lemma {:induction false} RunMore(s: State, es: seq<Event>, e: Event)
    ensures Run(s, es + [e]) == Step(Run(s, es), e)
  {
    assert (es + [e])[..|es|] == es;
  }

  lemma {:induction false} StoreUnrolls(s: State, w: nat, v: Value)
    ensures Run(s, StoreEvents(w, v))
         == Step(Step(Step(Step(Step(s, Store(w, v)), Advance(w)), Advance(w)), Advance(w)), Advance(w))
  {
    hide Step;
    var a := Advance(w);
    assert Run(s, []) == s;
    RunMore(s, [], Store(w, v));
    RunMore(s, [] + [Store(w, v)], a);
    RunMore(s, [] + [Store(w, v)] + [a], a);
    RunMore(s, [] + [Store(w, v)] + [a] + [a], a);
    RunMore(s, [] + [Store(w, v)] + [a] + [a] + [a], a);
    assert StoreEvents(w, v) == [] + [Store(w, v)] + [a] + [a] + [a] + [a];
  }

  lemma {:induction false} ReleaseIgnoresPhase(t: State, ph: map<nat, Phase>, h: Holder)
    ensures Release(t.(phase := ph), h) == Release(t, h).(phase := ph)
  {
    if h in t.refs {
      var b := t.refs[h];
      var u := t.(phase := ph);
      if b !in t.count || t.count[b] <= 1 {
        assert Release(u, h) == u.(refs := t.refs - {h}, heap := t.heap - {b}, count := t.count - {b});
      } else {
        assert Release(u, h) == u.(refs := t.refs - {h}, count := t.count[b := t.count[b] - 1]);
      }
    }
  }

  lemma {:induction false} CheckRuns(s: State, w: nat, v: Value)
    requires w in s.phase && s.phase[w].Idle?
    ensures Step(Step(s, Store(w, v)), Advance(w))
         == s.(phase := s.phase[w := if Unshared(s, WriterRef(w)) then Writing(v) else Allocating(v)])
  {
    var s1 := s.(phase := s.phase[w := Checking(v)]);
    assert Unshared(s1, WriterRef(w)) == Unshared(s, WriterRef(w));
    hide Unshared;
    var next := if Unshared(s, WriterRef(w)) then Writing(v) else Allocating(v);
    assert s1.phase[w := next] == s.phase[w := next];
  }

  lemma {:induction false} PrepareRuns(s: State, ph: map<nat, Phase>, w: nat, v: Value)
    requires w in ph && ph[w] == if Unshared(s, WriterRef(w)) then Writing(v) else Allocating(v)
    ensures Step(s.(phase := ph), Advance(w)) == Prepared(s, WriterRef(w), v).(phase := ph[w := Ready(v)])
  {
    var h, u := WriterRef(w), s.(phase := ph);
    ReleaseIgnoresPhase(s, ph, h);
    assert Unshared(u, h) == Unshared(s, h);
    assert Unshared(s, h) ==> h in s.refs;
    hide Release, Unshared;
    if ph[w].Writing? {
      assert Step(u, Advance(w)) == u.(heap := u.heap[u.refs[h] := v], phase := ph[w := Ready(v)]);
    } else {
      assert Step(u, Advance(w)) == Allocate(Release(u, h), h, v).(phase := ph[w := Ready(v)]);
    }
  }

  /** The first three accesses leave the new value in a buffer of the writer's own. */
  lemma {:induction false} PreparedRuns(s: State, w: nat, v: Value)
    requires w in s.phase && s.phase[w].Idle? && Cell in s.refs
    ensures WriterRef(w) in Prepared(s, WriterRef(w), v).refs && Cell in Prepared(s, WriterRef(w), v).refs
    ensures Step(Step(Step(s, Store(w, v)), Advance(w)), Advance(w))
         == Prepared(s, WriterRef(w), v).(phase := s.phase[w := Ready(v)])
  {
    var h := WriterRef(w);
    var next := if Unshared(s, h) then Writing(v) else Allocating(v);
    CheckRuns(s, w, v);
    PrepareRuns(s, s.phase[w := next], w, v);
    assert s.phase[w := next][w := Ready(v)] == s.phase[w := Ready(v)];
    PreparedRefs(s, h, v);
    hide Prepared;
  }

  lemma {:induction false} PreparedRefs(s: State, h: Holder, v: Value)
    requires Cell in s.refs && h != Cell
    ensures h in Prepared(s, h, v).refs && Cell in Prepared(s, h, v).refs
  {
  }

  lemma {:induction false} SwapRuns(p: State, ph: map<nat, Phase>, w: nat, v: Value)
    requires WriterRef(w) in p.refs && Cell in p.refs && w in ph && ph[w] == Ready(v)
    ensures Step(p.(phase := ph), Advance(w)) == SwappedIn(p, WriterRef(w), v).(phase := ph[w := Swapped])
  {
  }

  lemma {:induction false} ReclaimRuns(t: State, ph: map<nat, Phase>, w: nat)
    requires w in ph && ph[w] == Swapped
    ensures Step(t.(phase := ph), Advance(w)) == Reclaimed(t, WriterRef(w)).(phase := ph[w := Idle])
  {
    ReleaseIgnoresPhase(t, ph, WriterRef(w));
    hide Release;
  }

  lemma {:induction false} StoreRuns(s: State, w: nat, v: Value)
    requires w in s.phase && s.phase[w].Idle? && Cell in s.refs
    ensures WriterRef(w) in Prepared(s, WriterRef(w), v).refs && Cell in Prepared(s, WriterRef(w), v).refs
    ensures Run(s, StoreEvents(w, v)) == Reclaimed(SwappedIn(Prepared(s, WriterRef(w), v), WriterRef(w), v), WriterRef(w))
  {
    var h := WriterRef(w);
    StoreUnrolls(s, w, v);
    PreparedRuns(s, w, v);
    PhaseKept(s, h, v);
    var p := Prepared(s, h, v);
    hide Run, Prepared, Step, Reclaimed;
    var t := SwappedIn(p, h, v);
    SwapRuns(p, s.phase[w := Ready(v)], w, v);
    assert s.phase[w := Ready(v)][w := Swapped] == s.phase[w := Swapped];
    ReclaimRuns(t, s.phase[w := Swapped], w);
    assert s.phase[w := Swapped][w := Idle] == s.phase;
    ReclaimedPhase(t, h);
  }

  lemma {:induction false} ReclaimedPhase(t: State, h: Holder)
    ensures Reclaimed(t, h).phase == t.phase
  {
  }

  lemma {:induction false} PhaseKept(s: State, h: Holder, v: Value)
    ensures Prepared(s, h, v).phase == s.phase
  {
  }

  /**
   In the steady state the writer ping-pongs two buffers: with its spare unshared and no reader inside a load, a store
   allocates nothing, publishes its value, and leaves the writer an unshared spare again.
   */
  lemma {:induction false} SteadyStoreRecycles(s: State, w: nat, v: Value)
    requires Safe(s) && w in s.phase && s.phase[w].Idle?
    requires Unshared(s, WriterRef(w)) && Unshared(s, Cell)
    ensures var t := Run(s, StoreEvents(w, v));
            && t.next == s.next && t.heap.Keys == s.heap.Keys && t.latest == v
            && Unshared(t, WriterRef(w)) && Unshared(t, Cell)
            && t.refs[Cell] == s.refs[WriterRef(w)] && t.refs[WriterRef(w)] == s.refs[Cell]
  {
    StoreRuns(s, w, v);
    hide Run;
    assert s.refs[WriterRef(w)] in s.heap;
  }

  /** A load right after a store returns the stored value. */
  lemma {:induction false} LoadSeesLastStore(s: State, w: nat, v: Value, r: nat)
    requires Safe(s) && w in s.phase && s.phase[w].Idle? && ReaderRef(r) !in s.refs
    ensures var t := Run(s, StoreEvents(w, v) + [Load(r)] + [Copy(r)]);
            |t.loads| == |s.loads| + 1 && t.loads[|s.loads|] == (v, v)
  {
    var t0 := Run(s, StoreEvents(w, v));
    StoreRuns(s, w, v);
    StoredAside(s, w, v, r);
    RunSafe(s, StoreEvents(w, v));
    RunMore(s, StoreEvents(w, v), Load(r));
    RunMore(s, StoreEvents(w, v) + [Load(r)], Copy(r));
    var t1 := Step(t0, Load(r));
    assert ReaderRef(r) in t1.refs && t1.loads == t0.loads && t1.expected[r] == v by {
      SafeFacts(t0);
      hide Safe, Run;
    }
    RunSafe(s, StoreEvents(w, v) + [Load(r)]);
    SafeFacts(t1);
    hide Safe, Run, Reclaimed, Prepared;
  }

  lemma {:induction false} StoredAside(s: State, w: nat, v: Value, r: nat)
    requires w in s.phase && s.phase[w].Idle? && Cell in s.refs && ReaderRef(r) !in s.refs
    ensures var t := Run(s, StoreEvents(w, v)); ReaderRef(r) !in t.refs && t.latest == v && t.loads == s.loads
  {
    StoreRuns(s, w, v);
    hide Run;
  }

  function Loaded(s: State, r: nat, b: Buffer): State {
    Acquire(s, ReaderRef(r), b).(expected := s.expected[r := s.latest], loads := s.loads + [(s.latest, s.latest)])
  }

  /** A whole load copies the published value out. */
  lemma {:induction false} LoadRuns(s: State, r: nat)
    requires Safe(s) && ReaderRef(r) !in s.refs
    ensures Cell in s.refs && s.refs[Cell] in s.count && s.refs[Cell] in s.heap && s.heap[s.refs[Cell]] == s.latest
    ensures Run(s, [Load(r)] + [Copy(r)] + [Drop(r)]) == Release(Loaded(s, r, s.refs[Cell]), ReaderRef(r))
  {
    SafeFacts(s);
    hide Safe, Release, Counted;
    assert Run(s, []) == s;
    RunMore(s, [], Load(r));
    assert [] + [Load(r)] == [Load(r)];
    RunMore(s, [Load(r)], Copy(r));
    RunMore(s, [Load(r)] + [Copy(r)], Drop(r));
    hide Run;
  }

  // ---- The code

  class SnapshotChannel {
    var heap: map<Buffer, Value>
    var count: map<Buffer, nat>
    var refs: map<Holder, Buffer>
    var phase: map<nat, Phase>
    var next: Buffer
    ghost var latest: Value
    ghost var expected: map<nat, Value>
    ghost var loads: seq<(Value, Value)>

    ghost function Now(): State
      reads this
    {
      State(heap, count, refs, phase, next, latest, expected, loads)
    }

    constructor (initial: Value)
      ensures Now() == Fresh(initial) && Safe(Now())
    {
      heap, count, refs, phase, next := map[0 := initial], map[0 := 1], map[Cell := 0], map[0 := Idle], 1;
      latest, expected, loads := initial, map[], [];
      new;
      FreshSafe(initial);
    }

    method DropRef(h: Holder)
      modifies this`heap, this`count, this`refs
      ensures Now() == Release(old(Now()), h)
    {
      if h !in refs {
        return;
      }
      var b := refs[h];
      refs := refs - {h};
      if b !in count || count[b] <= 1 {
        heap, count := heap - {b}, count - {b};
      } else {
        count := count[b := count[b] - 1];
      }
    }

    method Prepare(h: Holder, value: Value)
      modifies this`heap, this`count, this`refs, this`next
      ensures Now() == Prepared(old(Now()), h, value)
    {
      if h in refs && refs[h] in count && count[refs[h]] == 1 {
        heap := heap[refs[h] := value];
      } else {
        DropRef(h);
        heap, count, refs := heap[next := value], count[next := 1], refs[h := next];
        next := next + 1;
      }
    }

    method SwapIn(h: Holder, value: Value) returns (previous: Buffer)
      requires h in refs && Cell in refs
      modifies this`refs, this`latest
      ensures Now() == SwappedIn(old(Now()), h, value) && previous == old(refs[Cell])
    {
      previous := refs[Cell];
      refs := refs[Cell := refs[h]][h := previous];
      latest := value;
    }

    /** A whole store by writer `w` with nobody in between. */
    method StoreValue(w: nat, value: Value)
      requires Safe(Now()) && w in phase && phase[w].Idle?
      modifies this
      ensures Now() == Run(old(Now()), StoreEvents(w, value)) && Safe(Now())
    {
      hide Run, Prepared, Release;
      SafeFacts(Now());
      StoreRuns(Now(), w, value);
      RunSafe(Now(), StoreEvents(w, value));
      hide Safe, Counted, ReaderOk, LoadsAgree;
      var h := WriterRef(w);
      Prepare(h, value);
      var previous := SwapIn(h, value);
      if !(previous in count && count[previous] == 1) {
        DropRef(h);
      }
    }

    method CopyOut(r: nat) returns (value: Value)
      requires Cell in refs && refs[Cell] in count && refs[Cell] in heap && heap[refs[Cell]] == latest
      modifies this`refs, this`count, this`expected, this`loads
      ensures value == old(latest) && Now() == Loaded(old(Now()), r, old(refs[Cell]))
    {
      var b := refs[Cell];
      refs, count := refs[ReaderRef(r) := b], count[b := count[b] + 1];
      expected := expected[r := latest];
      value := heap[b];
      loads := loads + [(latest, value)];
    }

    /** A whole load by reader `r`. */
    method LoadValue(r: nat) returns (value: Value)
      requires Safe(Now()) && ReaderRef(r) !in refs
      modifies this
      ensures value == old(latest) && Safe(Now())
      ensures Now() == Run(old(Now()), [Load(r)] + [Copy(r)] + [Drop(r)])
    {
      LoadRuns(Now(), r);
      RunSafe(Now(), [Load(r)] + [Copy(r)] + [Drop(r)]);
      hide Safe, Run, Release;
      value := CopyOut(r);
      DropRef(ReaderRef(r));
    }
  }
}
