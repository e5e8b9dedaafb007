/**
 Live outputs of an audio pipeline: the writer lays each stage's values into a flat frame, the reader derives the same
 layout from the configuration alone. Values and output keys are opaque.
 */
module OutputSlots {
  import opened Options

  type Key = nat
  type TypeId = nat
  type Value = real

  const MAX_OUTPUTS := 16

  type Registry = map<TypeId, seq<Key>>

  // What a stage does in one frame: whether it is enabled, and the outputs it sets, in order.
  datatype Processor = Processor(enabled: bool, sets: seq<(Key, Value)>)

  datatype Entry = Entry(procIndex: nat, typeId: TypeId, slot: nat, key: Key)

  function Outputs(registry: Registry, typeId: TypeId): seq<Key> {
    if typeId in registry then registry[typeId] else []
  }

  function SpecsOf(config: seq<TypeId>, registry: Registry): seq<seq<Key>> {
    seq(|config|, k requires 0 <= k < |config| => Outputs(registry, config[k]))
  }

  // ---- Windows

  /** The slots taken by the first `k` stages. */
  function Offset(specs: seq<seq<Key>>, k: nat): nat
    requires k <= |specs|
  {
    if k == 0 then 0 else Offset(specs, k - 1) + |specs[k - 1]|
  }

  lemma {:induction false} OffsetGrows(specs: seq<seq<Key>>, j: nat, k: nat)
    requires j <= k <= |specs|
    ensures Offset(specs, j) <= Offset(specs, k)
    decreases k
  {
    if j < k {
      OffsetGrows(specs, j, k - 1);
    }
  }

  /** `kept` stages fit, and there is no more, or the next one does not fit. */
  ghost predicate Fits(specs: seq<seq<Key>>, kept: nat) {
    && kept <= |specs| && Offset(specs, kept) <= MAX_OUTPUTS
    && (kept < |specs| ==> Offset(specs, kept + 1) > MAX_OUTPUTS)
  }

  lemma {:induction false} FitsUnique(specs: seq<seq<Key>>, a: nat, b: nat)
    requires Fits(specs, a) && Fits(specs, b)
    ensures a == b
  {
    if a < b {
      OffsetGrows(specs, a + 1, b);
    } else if b < a {
      OffsetGrows(specs, b + 1, a);
    }
  }

  /** How many stages fit, from stage `k` on. */
  function Kept(specs: seq<seq<Key>>, k: nat): (kept: nat)
    requires k <= |specs| && Offset(specs, k) <= MAX_OUTPUTS
    ensures Fits(specs, kept)
    decreases |specs| - k
  {
    if k < |specs| && Offset(specs, k + 1) <= MAX_OUTPUTS then Kept(specs, k + 1) else k
  }

  // ---- The reader

  /** Entry `s` sits in slot `s` and describes one output of its stage. */
  ghost predicate EntryOk(config: seq<TypeId>, specs: seq<seq<Key>>, e: Entry, s: nat)
    requires |config| == |specs|
  {
    && e.slot == s && e.procIndex < |specs| && e.typeId == config[e.procIndex]
    && Offset(specs, e.procIndex) <= s < Offset(specs, e.procIndex + 1)
    && e.key == specs[e.procIndex][s - Offset(specs, e.procIndex)]
  }

  ghost predicate IsLayout(config: seq<TypeId>, specs: seq<seq<Key>>, kept: nat, entries: seq<Entry>)
    requires |config| == |specs|
  {
    && kept <= |specs| && |entries| == Offset(specs, kept)
    && forall s :: 0 <= s < |entries| ==> EntryOk(config, specs, entries[s], s) && entries[s].procIndex < kept
  }

  method Derive(config: seq<TypeId>, registry: Registry) returns (entries: seq<Entry>, truncated: bool)
    ensures var specs := SpecsOf(config, registry);
            IsLayout(config, specs, Kept(specs, 0), entries) && (truncated <==> Kept(specs, 0) < |specs|)
  {
    ghost var specs := SpecsOf(config, registry);
    entries := [];
    var offset := 0;
    truncated := false;
    var k := 0;
    while k < |config|
      invariant k <= |config| && offset == Offset(specs, k) <= MAX_OUTPUTS
      invariant IsLayout(config, specs, k, entries)
      invariant !truncated
      decreases |config| - k
    {
      var keys := Outputs(registry, config[k]);
      if |keys| > 0 {
        if offset + |keys| > MAX_OUTPUTS {
          truncated := true;
          break;
        }
        entries := entries + StageEntries(k, config[k], offset, keys);
        offset := offset + |keys|;
      }
      k := k + 1;
    }
    FitsUnique(specs, k, Kept(specs, 0));
  }

  function StageEntries(procIndex: nat, typeId: TypeId, offset: nat, keys: seq<Key>): seq<Entry> {
    seq(|keys|, i requires 0 <= i < |keys| => Entry(procIndex, typeId, offset + i, keys[i]))
  }

  // ---- The writer

  function FirstIndex(keys: seq<Key>, key: Key): Option<nat> {
    if keys == [] then None
    else if keys[0] == key then Some(0)
    else match FirstIndex(keys[1..], key)
         case None => None
         case Some(i) => Some(i + 1)
  }

  /** The last value set for `key`; zero if none was. */
  function LastSet(sets: seq<(Key, Value)>, key: Key): Value {
    if sets == [] then 0.0
    else if sets[|sets| - 1].0 == key then sets[|sets| - 1].1
    else LastSet(sets[..|sets| - 1], key)
  }

  lemma {:induction false} LastSetIs(sets: seq<(Key, Value)>, key: Key, i: nat)
    requires i < |sets| && sets[i].0 == key && forall j :: i < j < |sets| ==> sets[j].0 != key
    ensures LastSet(sets, key) == sets[i].1
    decreases |sets|
  {
    if i < |sets| - 1 {
      LastSetIs(sets[..|sets| - 1], key, i);
    }
  }

  lemma {:induction false} NeverSetIsZero(sets: seq<(Key, Value)>, key: Key)
    requires forall j :: 0 <= j < |sets| ==> sets[j].0 != key
    ensures LastSet(sets, key) == 0.0
    decreases |sets|
  {
    if sets != [] {
      NeverSetIsZero(sets[..|sets| - 1], key);
    }
  }

  /** What slot `i` of a stage's window shows: an output repeated in a stage's specs is written where it is first. */
  function SlotValue(p: Processor, keys: seq<Key>, i: nat): Value
    requires i < |keys|
  {
    if p.enabled && FirstIndex(keys, keys[i]) == Some(i) then LastSet(p.sets, keys[i]) else 0.0
  }

  lemma {:induction false} FirstIndexIs(keys: seq<Key>, key: Key)
    ensures match FirstIndex(keys, key)
            case None => key !in keys
            case Some(i) => i < |keys| && keys[i] == key && forall j :: 0 <= j < i ==> keys[j] != key
  {
    if keys != [] && keys[0] != key {
      FirstIndexIs(keys[1..], key);
      assert forall j :: 0 < j < |keys| ==> keys[j] == keys[1..][j - 1];
      assert keys == [keys[0]] + keys[1..];
    }
  }

  ghost predicate Shows(values: seq<Value>, offset: nat, p: Processor, keys: seq<Key>, i: nat)
    requires i < |keys| && offset + |keys| <= |values|
  {
    values[offset + i] == SlotValue(p, keys, i)
  }

  ghost predicate WindowShows(values: seq<Value>, offset: nat, p: Processor, keys: seq<Key>) {
    offset + |keys| <= |values| && forall i :: 0 <= i < |keys| ==> Shows(values, offset, p, keys, i)
  }

  ghost predicate StageShown(values: seq<Value>, specs: seq<seq<Key>>, processors: seq<Processor>, k: nat)
    requires |processors| == |specs| && k < |specs|
  {
    WindowShows(values, Offset(specs, k), processors[k], specs[k])
  }

  ghost predicate IsFrame(values: seq<Value>, specs: seq<seq<Key>>, processors: seq<Processor>, kept: nat)
    requires |processors| == |specs|
  {
    kept <= |specs| && Offset(specs, kept) <= |values| &&
    forall k :: 0 <= k < kept ==> StageShown(values, specs, processors, k)
  }

  class OutputFrame {
    const values: array<Value>
    var len: nat

    ghost predicate Valid()
      reads this
    {
      values.Length == MAX_OUTPUTS && len <= MAX_OUTPUTS
    }

    constructor ()
      ensures Valid() && fresh(values) && len == 0
    {
      values := new Value[MAX_OUTPUTS](_ => 0.0);
      len := 0;
    }

    function Get(slot: nat): Option<Value>
      reads this, values
      requires Valid()
    {
      if slot < len then Some(values[slot]) else None
    }
  }

  /** A stage's window after its sets: exactly what SlotValue says, the rest of the frame untouched. */
  method WriteStage(values: array<Value>, offset: nat, keys: seq<Key>, p: Processor)
    requires offset + |keys| <= values.Length
    modifies values
    ensures WindowShows(values[..], offset, p, keys)
    ensures forall s :: 0 <= s < values.Length && !(offset <= s < offset + |keys|) ==> values[s] == old(values[s])
  {
    forall i | 0 <= i < |keys| {
      values[offset + i] := 0.0;
    }
    CleanWindow(values[..], offset, p.(sets := []), keys);
    if !p.enabled {
      CleanWindow(values[..], offset, p, keys);
      return;
    }
    for n := 0 to |p.sets|
      invariant WindowShows(values[..], offset, Processor(true, p.sets[..n]), keys)
      invariant forall s :: 0 <= s < values.Length && !(offset <= s < offset + |keys|) ==> values[s] == old(values[s])
    {
      hide WindowShows;
      var (key, value) := p.sets[n];
      FirstIndexIs(keys, key);
      SetShows(values[..], offset, keys, p.sets, n);
      ghost var expected := AfterSet(values[..], offset, keys, key, value);
      match FirstIndex(keys, key)
      case None =>
      case Some(i) => values[offset + i] := value;
      assert values[..] == expected;
    }
    assert p.sets[..|p.sets|] == p.sets && p == Processor(true, p.sets);
  }

  /** The frame after one more set. */
  function AfterSet(values: seq<Value>, offset: nat, keys: seq<Key>, key: Key, value: Value): seq<Value>
    requires offset + |keys| <= |values|
  {
    match FirstIndex(keys, key)
    case None => values
    case Some(i) => if i < |keys| then values[offset + i := value] else values
  }

  lemma {:induction false} SetShowsAt(was: seq<Value>, offset: nat, keys: seq<Key>, sets: seq<(Key, Value)>, n: nat, i: nat)
    requires n < |sets| && i < |keys| && offset + |keys| <= |was|
    requires Shows(was, offset, Processor(true, sets[..n]), keys, i)
    ensures Shows(AfterSet(was, offset, keys, sets[n].0, sets[n].1), offset, Processor(true, sets[..n + 1]), keys, i)
  {
    assert sets[..n + 1][..n] == sets[..n];
    FirstIndexIs(keys, sets[n].0);
    FirstIndexIs(keys, keys[i]);
  }

  lemma {:induction false} SetShows(was: seq<Value>, offset: nat, keys: seq<Key>, sets: seq<(Key, Value)>, n: nat)
    requires n < |sets| && WindowShows(was, offset, Processor(true, sets[..n]), keys)
    ensures WindowShows(AfterSet(was, offset, keys, sets[n].0, sets[n].1), offset, Processor(true, sets[..n + 1]), keys)
  {
    var after, p := AfterSet(was, offset, keys, sets[n].0, sets[n].1), Processor(true, sets[..n + 1]);
    forall i | 0 <= i < |keys| ensures Shows(after, offset, p, keys, i) {
      SetShowsAt(was, offset, keys, sets, n, i);
    }
  }

  lemma {:induction false} CleanWindow(values: seq<Value>, offset: nat, p: Processor, keys: seq<Key>)
    requires offset + |keys| <= |values| && forall s :: offset <= s < offset + |keys| ==> values[s] == 0.0
    requires !p.enabled || p.sets == [] || keys == []
    ensures WindowShows(values, offset, p, keys)
  {
    forall i | 0 <= i < |keys| ensures Shows(values, offset, p, keys, i) {
    }
  }

  ghost predicate Untouched(was: seq<Value>, now: seq<Value>, lo: nat, hi: nat) {
    |now| == |was| && forall s :: 0 <= s < |now| && !(lo <= s < hi) ==> now[s] == was[s]
  }

  lemma {:induction false} WindowKept(was: seq<Value>, now: seq<Value>, lo: nat, hi: nat, offset: nat, p: Processor,
                                      keys: seq<Key>)
    requires WindowShows(was, offset, p, keys) && Untouched(was, now, lo, hi) && offset + |keys| <= lo
    ensures WindowShows(now, offset, p, keys)
  {
    forall i | 0 <= i < |keys| ensures Shows(now, offset, p, keys, i) {
      assert Shows(was, offset, p, keys, i);
    }
  }

  /** Writing stage `k`'s window completes the frame up to `k + 1`. */
  lemma {:induction false} FrameGrows(was: seq<Value>, now: seq<Value>, specs: seq<seq<Key>>, processors: seq<Processor>,
                                      k: nat)
    requires |processors| == |specs| && k < |specs| && IsFrame(was, specs, processors, k)
    requires Untouched(was, now, Offset(specs, k), Offset(specs, k) + |specs[k]|)
    requires WindowShows(now, Offset(specs, k), processors[k], specs[k])
    ensures IsFrame(now, specs, processors, k + 1)
  {
    WindowFits(now, Offset(specs, k), processors[k], specs[k]);
    hide WindowShows, Untouched;
    forall j | 0 <= j < k ensures StageShown(now, specs, processors, j) {
      EarlierWindow(was, now, specs, processors, j, k);
    }
    assert Offset(specs, k + 1) == Offset(specs, k) + |specs[k]|;
    hide Offset;
  }

  lemma {:induction false} EarlierWindow(was: seq<Value>, now: seq<Value>, specs: seq<seq<Key>>,
                                         processors: seq<Processor>, j: nat, k: nat)
    requires |processors| == |specs| && j < k < |specs| && IsFrame(was, specs, processors, k)
    requires Untouched(was, now, Offset(specs, k), Offset(specs, k) + |specs[k]|)
    ensures StageShown(now, specs, processors, j)
  {
    assert StageShown(was, specs, processors, j);
    OffsetGrows(specs, j + 1, k);
    var offset := Offset(specs, j);
    assert Offset(specs, j + 1) == offset + |specs[j]|;
    hide Offset, WindowShows, Untouched, IsFrame;
    WindowKept(was, now, Offset(specs, k), Offset(specs, k) + |specs[k]|, offset, processors[j], specs[j]);
  }

  lemma {:induction false} WindowFits(values: seq<Value>, offset: nat, p: Processor, keys: seq<Key>)
    requires WindowShows(values, offset, p, keys)
    ensures offset + |keys| <= |values|
  {
  }

  class AudioPipeline {
    var processors: seq<Processor>
    var outputSpecs: seq<seq<Key>>

    ghost predicate Valid()
      reads this
    {
      |processors| == |outputSpecs|
    }

    /** The stages' descriptors are captured in configuration order. */
    constructor FromConfig(config: seq<TypeId>, registry: Registry, processors: seq<Processor>)
      requires |processors| == |config|
      ensures Valid() && this.processors == processors && outputSpecs == SpecsOf(config, registry)
    {
      var specs: seq<seq<Key>> := [];
      for k := 0 to |config|
        invariant specs == SpecsOf(config, registry)[..k]
      {
        specs := specs + [Outputs(registry, config[k])];
      }
      this.processors := processors;
      outputSpecs := specs;
    }

    method WriteOutputs(frame: OutputFrame)
      requires Valid() && frame.Valid()
      modifies frame, frame.values
      ensures frame.Valid() && frame.len == Offset(outputSpecs, Kept(outputSpecs, 0))
      ensures IsFrame(frame.values[..], outputSpecs, processors, Kept(outputSpecs, 0))
    {
      var offset := 0;
      var k := 0;
      while k < |processors|
        invariant k <= |processors| && offset == Offset(outputSpecs, k) <= MAX_OUTPUTS
        invariant IsFrame(frame.values[..], outputSpecs, processors, k)
        decreases |processors| - k
      {
        var n := |outputSpecs[k]|;
        assert Offset(outputSpecs, k + 1) == offset + n;
        ghost var was := frame.values[..];
        if n == 0 {
          CleanWindow(was, offset, processors[k], outputSpecs[k]);
        } else {
          if offset + n > MAX_OUTPUTS {
            break;
          }
          hide IsFrame, WindowShows, Offset;
          WriteStage(frame.values, offset, outputSpecs[k], processors[k]);
        }
        hide IsFrame, WindowShows, Offset;
        FrameGrows(was, frame.values[..], outputSpecs, processors, k);
        offset := offset + n;
        k := k + 1;
      }
      frame.len := offset;
      FitsUnique(outputSpecs, k, Kept(outputSpecs, 0));
    }
  }

  // ---- Both sides agree

  ghost predicate UniqueKeys(keys: seq<Key>) {
    forall i, j :: 0 <= i < j < |keys| ==> keys[i] != keys[j]
  }

  /** What a layout entry should read: its own stage's value, or zero when the stage is disabled. */
  function EntryValue(e: Entry, processors: seq<Processor>): Value
    requires e.procIndex < |processors|
  {
    if processors[e.procIndex].enabled then LastSet(processors[e.procIndex].sets, e.key) else 0.0
  }

  /** The entry's key first occurs, among its own stage's outputs, where the entry is. */
  ghost predicate FirstOfItsKey(specs: seq<seq<Key>>, e: Entry)
    requires e.procIndex < |specs|
  {
    FirstIndex(specs[e.procIndex], e.key) == Some(e.slot - Offset(specs, e.procIndex))
  }

  /** Reading the entry's slot gives its own stage's value. */
  ghost predicate ReadsBack(frame: OutputFrame, processors: seq<Processor>, e: Entry)
    requires e.procIndex < |processors| && frame.Valid()
    reads frame, frame.values
  {
    frame.Get(e.slot) == Some(EntryValue(e, processors))
  }

  /**
   The writer and the reader stop at the same stage, the frame's live slots are exactly the layout's, and each entry has
   its own slot below 16. An entry reads back its own stage's value exactly if it is the first of its key in that stage,
   or the value is zero anyway.
   */
  lemma {:induction false} LayoutReadsFrame(config: seq<TypeId>, specs: seq<seq<Key>>, processors: seq<Processor>,
                                            entries: seq<Entry>, frame: OutputFrame, kept: nat, written: nat)
    requires |config| == |specs| == |processors| && frame.Valid()
    requires Fits(specs, kept) && IsLayout(config, specs, kept, entries)
    requires Fits(specs, written) && IsFrame(frame.values[..], specs, processors, written)
    requires frame.len == Offset(specs, written)
    ensures kept == written && |entries| == frame.len <= MAX_OUTPUTS
    ensures forall s :: 0 <= s < frame.len ==> entries[s].slot == s && entries[s].procIndex < |specs|
    ensures forall s :: 0 <= s < frame.len ==>
              (ReadsBack(frame, processors, entries[s]) <==>
               FirstOfItsKey(specs, entries[s]) || EntryValue(entries[s], processors) == 0.0)
    ensures frame.Get(frame.len) == None
  {
    FitsUnique(specs, kept, written);
    forall s | 0 <= s < frame.len ensures EntryOk(config, specs, entries[s], s) {
    }
    forall s | 0 <= s < frame.len
      ensures ReadsBack(frame, processors, entries[s]) <==>
              FirstOfItsKey(specs, entries[s]) || EntryValue(entries[s], processors) == 0.0
    {
      EntryReads(config, specs, processors, entries[s], s, frame.values[..], kept);
    }
  }

  lemma {:induction false} EntryReads(config: seq<TypeId>, specs: seq<seq<Key>>, processors: seq<Processor>, e: Entry, s: nat,
                                      values: seq<Value>, kept: nat)
    requires |config| == |specs| == |processors| && EntryOk(config, specs, e, s) && e.procIndex < kept
    requires IsFrame(values, specs, processors, kept)
    ensures s < |values|
    ensures values[s] == EntryValue(e, processors) <==> FirstOfItsKey(specs, e) || EntryValue(e, processors) == 0.0
  {
    var offset := Offset(specs, e.procIndex);
    var keys, i := specs[e.procIndex], s - offset;
    assert Offset(specs, e.procIndex + 1) == offset + |keys|;
    hide Offset;
    assert StageShown(values, specs, processors, e.procIndex);
    assert Shows(values, offset, processors[e.procIndex], keys, i);
  }

  /** The entries that read back whatever the stages do are exactly the first ones of their keys. */
  lemma {:induction false} FirstReadsWhatever(keys: seq<Key>, i: nat)
    requires i < |keys|
    ensures FirstIndex(keys, keys[i]) == Some(i) <==>
            forall p: Processor :: SlotValue(p, keys, i) == if p.enabled then LastSet(p.sets, keys[i]) else 0.0
  {
    var witnessed := Processor(true, [(keys[i], 1.0)]);
    assert LastSet(witnessed.sets, keys[i]) == 1.0;
    if FirstIndex(keys, keys[i]) != Some(i) {
      assert SlotValue(witnessed, keys, i) == 0.0;
    }
  }

  /** Every entry of a stage is the first of its key exactly if the stage repeats none. */
  lemma {:induction false} UniqueIfAllFirst(keys: seq<Key>)
    ensures UniqueKeys(keys) <==> forall i :: 0 <= i < |keys| ==> FirstIndex(keys, keys[i]) == Some(i)
  {
    if forall i :: 0 <= i < |keys| ==> FirstIndex(keys, keys[i]) == Some(i) {
      forall i, j | 0 <= i < j < |keys| ensures keys[i] != keys[j] {
        assert FirstIndex(keys, keys[i]) == Some(i) && FirstIndex(keys, keys[j]) == Some(j);
      }
    } else {
      var i :| 0 <= i < |keys| && FirstIndex(keys, keys[i]) != Some(i);
      FirstIndexIs(keys, keys[i]);
    }
  }

  /** With a repeated key the second entry reads zero, whatever the stage sets. */
  lemma {:induction false} RepeatedKeyReadsZero(p: Processor, keys: seq<Key>, i: nat, j: nat)
    requires i < j < |keys| && keys[i] == keys[j]
    ensures SlotValue(p, keys, j) == 0.0
  {
    FirstIndexIs(keys, keys[j]);
  }
}
