/** The write-behind protocol on context metrics: what the step system says about the counters
    themselves, and the store that runs it. */
module Persistence {
  import opened Options
  import opened Tally
  import opened Metrics
  import opened Recording
  import opened Monoids
  import opened WriteBehind
  import opened ContextMetricsRecord
  import TextLines

  function Counters(): Monoid<Metrics> {
    Monoid(Default(), (a: Metrics, b: Metrics) => Merge(a, b))
  }

  lemma CountersLawful()
    ensures Lawful(Counters())
  {
    var m := Counters();
    forall a: Metrics, b: Metrics, c: Metrics | Args(a, b, c)
      ensures m.merge(a, m.zero) == a
      ensures m.merge(a, b) == m.merge(b, a)
      ensures m.merge(m.merge(a, b), c) == m.merge(a, m.merge(b, c))
    {
      MergeUnit(a);
      MergeCommutes(a, b);
      MergeAssociates(a, b, c);
    }
  }

  lemma BelowIsAtMost(a: Metrics, b: Metrics)
    requires Below(Counters(), a, b)
    ensures AtMost(a, b)
  {
    var rest :| Counters().merge(a, rest) == b;
    MergeGrows(a, rest);
  }

  // ---- runs of recording calls and flush steps ----

  /** A protocol step whose record, if it is one, carries the effect of a batch of updates. */
  datatype Event = Call(p: Pid, batch: seq<Update>, due: bool) | Other(step: Action<Metrics>)

  function Lower(e: Event): Action<Metrics> {
    match e
    case Call(p, batch, due) => Record(p, Effect(batch), due)
    case Other(step) => step
  }

  function LowerAll(es: seq<Event>): (acts: seq<Action<Metrics>>)
    ensures |acts| == |es|
  {
    if es == [] then [] else [Lower(es[0])] + LowerAll(es[1..])
  }

  predicate OnlyCallsRecord(es: seq<Event>) {
    forall e <- es :: e.Other? ==> !e.step.Record?
  }

  function Batches(es: seq<Event>): seq<Update> {
    if es == [] then []
    else (if es[0].Call? then es[0].batch else []) + Batches(es[1..])
  }

  lemma {:induction false} BatchesFold(es: seq<Event>, start: Metrics)
    requires OnlyCallsRecord(es)
    ensures MergeInto(Counters(), start, Effects(LowerAll(es))) == ApplyAll(start, Batches(es))
    decreases es
  {
    if es != [] {
      var acts := LowerAll(es);
      assert acts[0] == Lower(es[0]) && acts[1..] == LowerAll(es[1..]);
      assert es[0] in es;
      if es[0].Call? {
        assert Effects(acts)[0] == Effect(es[0].batch) && Effects(acts)[1..] == Effects(acts[1..]);
        BatchIsMerge(start, es[0].batch);
        BatchesFold(es[1..], ApplyAll(start, es[0].batch));
        ApplyAllConcat(start, es[0].batch, Batches(es[1..]));
      } else {
        assert Effects(acts) == Effects(acts[1..]);
        assert Batches(es) == Batches(es[1..]);
        BatchesFold(es[1..], start);
      }
    }
  }

  /** Whatever the interleaving, the failures and the stops, file plus pending deltas plus losses is the result of
      applying every recorded update once to the starting file. */
  lemma MetricsConserved(file: Option<Metrics>, es: seq<Event>)
    requires OnlyCallsRecord(es) && Runs(Counters(), Initial(Counters(), file), LowerAll(es))
    ensures var s := Run(Counters(), Initial(Counters(), file), LowerAll(es));
      Merge(Abs(Counters(), s), s.lost)
        == ApplyAll(if file.Some? then file.value else Default(), Batches(es))
  {
    CountersLawful();
    Conservation(Counters(), file, LowerAll(es));
    BatchesFold(es, if file.Some? then file.value else Default());
  }

  /** Starting without a file, the file of any run, and what `load` returns to any process across any
      later part of the run, keep the relations between counters. */
  lemma LoadIsCoherent(es1: seq<Event>, es2: seq<Event>, p: Pid)
    requires OnlyCallsRecord(es1 + es2)
    requires Runs(Counters(), Initial(Counters(), None), LowerAll(es1))
    requires Runs(Counters(), After(es1), LowerAll(es2)) && p in Run(Counters(), After(es1), LowerAll(es2)).procs
    ensures Coherent(Disk(Counters(), After(es1)))
    ensures Coherent(Loaded(Counters(), After(es1), Run(Counters(), After(es1), LowerAll(es2)), p))
  {
    var s1 := After(es1);
    var s2 := Run(Counters(), s1, LowerAll(es2));
    LoadIsBuilt(s1, s2, es1, es2, p);
    BuiltIsCoherent(Disk(Counters(), s1));
    BuiltIsCoherent(Loaded(Counters(), s1, s2, p));
  }

  function After(es: seq<Event>): State<Metrics>
    requires Runs(Counters(), Initial(Counters(), None), LowerAll(es))
  {
    Run(Counters(), Initial(Counters(), None), LowerAll(es))
  }

  lemma LoadIsBuilt(s1: State<Metrics>, s2: State<Metrics>, es1: seq<Event>, es2: seq<Event>, p: Pid)
    requires OnlyCallsRecord(es1 + es2)
    requires Runs(Counters(), Initial(Counters(), None), LowerAll(es1)) && s1 == After(es1)
    requires Runs(Counters(), s1, LowerAll(es2)) && s2 == Run(Counters(), s1, LowerAll(es2)) && p in s2.procs
    ensures Built(Disk(Counters(), s1)) && Built(Loaded(Counters(), s1, s2, p))
  {
    var m, good := Counters(), BuiltSet();
    assert Closed(m, good) by {
      DefaultIsBuilt();
      forall a: Metrics, b: Metrics | good(a) && good(b) ensures good(m.merge(a, b)) { MergeIsBuilt(a, b); }
    }
    EffectsBuilt(es1);
    EffectsBuilt(es2);
    RunKeepsAll(m, good, Initial(m, None), LowerAll(es1));
    RunKeepsAll(m, good, s1, LowerAll(es2));
    LoadKeeps(m, good, s1, s2, p);
  }

  ghost function BuiltSet(): Metrics -> bool {
    (a: Metrics) => Built(a)
  }

  lemma {:induction false} EffectsBuilt(es: seq<Event>)
    requires OnlyCallsRecord(es)
    ensures RecordsAll(BuiltSet(), LowerAll(es))
  {
    if es != [] {
      assert es[0] in es;
      EffectsBuilt(es[1..]);
      DefaultIsBuilt();
      if es[0].Call? { BatchIsBuilt(Default(), es[0].batch); }
      forall i | 0 <= i < |es| && LowerAll(es)[i].Record? ensures BuiltSet()(LowerAll(es)[i].effect) {
        if i > 0 { assert LowerAll(es)[i] == LowerAll(es[1..])[i - 1]; }
      }
    }
  }

  /** `load` stays pointwise within the updates recorded up to its second read. */
  lemma LoadIsBounded(file: Option<Metrics>, es1: seq<Event>, es2: seq<Event>, p: Pid)
    requires OnlyCallsRecord(es1) && Runs(Counters(), Initial(Counters(), file), LowerAll(es1))
    requires var s1 := Run(Counters(), Initial(Counters(), file), LowerAll(es1));
      && OnlyCallsRecord(es2) && Runs(Counters(), s1, LowerAll(es2))
      && p in Run(Counters(), s1, LowerAll(es2)).procs
      && Run(Counters(), s1, LowerAll(es2)).procs[p].phase.Idle?
    ensures var s1 := Run(Counters(), Initial(Counters(), file), LowerAll(es1));
      AtMost(Loaded(Counters(), s1, Run(Counters(), s1, LowerAll(es2)), p),
             ApplyAll(if file.Some? then file.value else Default(), Batches(es1 + es2)))
  {
    var m, s0 := Counters(), Initial(Counters(), file);
    var s1 := Run(m, s0, LowerAll(es1));
    var s2 := Run(m, s1, LowerAll(es2));
    CountersLawful();
    InitialInv(m, file);
    RunKeepsInv(m, s0, LowerAll(es1));
    RunKeepsInv(m, s1, LowerAll(es2));
    LoadNeverOvercounts(m, s1, LowerAll(es2), p);
    BelowIsAtMost(Loaded(m, s1, s2, p), s2.total);
    BatchesFold(es1, s0.total);
    BatchesFold(es2, s1.total);
    BatchesConcat(es1, es2);
    ApplyAllConcat(s0.total, Batches(es1), Batches(es2));
  }

  lemma {:induction false} BatchesConcat(es1: seq<Event>, es2: seq<Event>)
    ensures Batches(es1 + es2) == Batches(es1) + Batches(es2)
  {
    if es1 == [] {
      assert es1 + es2 == es2;
    } else {
      var e, rest := es1[0], es1[1..];
      assert es1 == [e] + rest && es1 + es2 == [e] + (rest + es2);
      BatchesConcat(rest, es2);
      TextLines.Assoc(if e.Call? then e.batch else [], Batches(rest), Batches(es2));
    }
  }

  // ---- the store ----

  const FLUSH_INTERVAL_MS := 5000

  datatype Slot = Slot(delta: Metrics, updatesSinceFlush: nat, lastFlushAttempt: nat)

  /** Which of the fallible steps of a flush succeed. */
  datatype Io = Io(lockOk: bool, readOk: bool, writeOk: bool)

  datatype Loading = Failed | Found(metrics: Option<Metrics>)

  predicate Due(slot: Slot, now: nat) {
    now - slot.lastFlushAttempt >= FLUSH_INTERVAL_MS
  }

  /** Every step that a flush takes succeeds. */
  predicate Works(io: Io, fileExists: bool) {
    io.lockOk && (fileExists ==> io.readOk) && io.writeOk
  }

  /** The protocol steps of one flush, as far as the failures let it get. */
  function FlushSteps(p: Pid, fileExists: bool, io: Io): seq<Action<Metrics>> {
    if !io.lockOk then [LockFails(p)]
    else if fileExists && !io.readOk then [Locks(p), ReadFails(p)]
    else if !io.writeOk then [Locks(p), Reads(p), WriteFails(p)]
    else [Locks(p), Reads(p), Writes(p), Clears(p)]
  }

  /** A file and one process whose slot is `slot`, seen as a protocol state. */
  function AsState(file: Option<Metrics>, slot: Slot, phase: Phase<Metrics>): State<Metrics> {
    State(file, None, map[0 := Proc(slot.delta, slot.updatesSinceFlush, phase, [], slot.delta, Default(), false)],
          Default(), Default(), Default())
  }

  /** The file and the slot are those of the protocol state, with its process between calls. */
  predicate Shows(s: State<Metrics>, file: Option<Metrics>, slot: Slot) {
    && s.disk == file
    && s.holder.None?
    && 0 in s.procs && s.procs[0].phase.Idle?
    && s.procs[0].delta == slot.delta && s.procs[0].updates == slot.updatesSinceFlush
  }

  lemma RunOne(s: State<Metrics>, a: Action<Metrics>, rest: seq<Action<Metrics>>)
    requires Enabled(s, a) && Runs(Counters(), Step(Counters(), s, a), rest)
    ensures Runs(Counters(), s, [a] + rest)
    ensures Run(Counters(), s, [a] + rest) == Run(Counters(), Step(Counters(), s, a), rest)
  {
    assert ([a] + rest)[1..] == rest;
  }

  /** The last two steps, from the state in which the process holds the lock and has read the file. */
  lemma WriteAndClear(file: Option<Metrics>, slot: Slot, s: State<Metrics>)
    requires s == Step(Counters(), Step(Counters(), AsState(file, slot, Waiting), Locks(0)), Reads(0))
    ensures Runs(Counters(), s, [Writes(0)] + [Clears(0)])
    ensures Shows(Run(Counters(), s, [Writes(0)] + [Clears(0)]),
                  Some(Merge(OrDefault(file), slot.delta)),
                  Slot(Default(), 0, slot.lastFlushAttempt))
  {
    RunOne(Step(Counters(), s, Writes(0)), Clears(0), []);
    RunOne(s, Writes(0), [Clears(0)]);
  }

  lemma WriteFailsRun(s1: State<Metrics>, file: Option<Metrics>, slot: Slot)
    requires s1 == Step(Counters(), AsState(file, slot, Waiting), Locks(0))
    ensures Runs(Counters(), s1, [Reads(0)] + [WriteFails(0)])
    ensures Shows(Run(Counters(), s1, [Reads(0)] + [WriteFails(0)]), file, slot)
  {
    RunOne(Step(Counters(), s1, Reads(0)), WriteFails(0), []);
    RunOne(s1, Reads(0), [WriteFails(0)]);
  }

  lemma WritesRun(s1: State<Metrics>, file: Option<Metrics>, slot: Slot)
    requires s1 == Step(Counters(), AsState(file, slot, Waiting), Locks(0))
    ensures Runs(Counters(), s1, [Reads(0)] + ([Writes(0)] + [Clears(0)]))
    ensures Shows(Run(Counters(), s1, [Reads(0)] + ([Writes(0)] + [Clears(0)])),
                  Some(Merge(OrDefault(file), slot.delta)), Slot(Default(), 0, slot.lastFlushAttempt))
  {
    WriteAndClear(file, slot, Step(Counters(), s1, Reads(0)));
    RunOne(s1, Reads(0), [Writes(0)] + [Clears(0)]);
  }

  /** What one uninterrupted flush of a waiting process comes to. */
  lemma FlushRun(file: Option<Metrics>, slot: Slot, io: Io)
    ensures var s := AsState(file, slot, Waiting);
      var steps := FlushSteps(0, file.Some?, io);
      && Runs(Counters(), s, steps)
      && if Works(io, file.Some?)
         then Shows(Run(Counters(), s, steps), Some(Merge(OrDefault(file), slot.delta)),
                    Slot(Default(), 0, slot.lastFlushAttempt))
         else Shows(Run(Counters(), s, steps), file, slot)
  {
    var s := AsState(file, slot, Waiting);
    var s1 := Step(Counters(), s, Locks(0));
    if !io.lockOk {
      RunOne(s, LockFails(0), []);
    } else if file.Some? && !io.readOk {
      RunOne(s1, ReadFails(0), []);
      RunOne(s, Locks(0), [ReadFails(0)]);
      assert [Locks(0)] + [ReadFails(0)] == FlushSteps(0, file.Some?, io);
    } else if !io.writeOk {
      WriteFailsRun(s1, file, slot);
      RunOne(s, Locks(0), [Reads(0)] + [WriteFails(0)]);
      assert [Locks(0)] + ([Reads(0)] + [WriteFails(0)]) == FlushSteps(0, file.Some?, io);
    } else {
      WritesRun(s1, file, slot);
      RunOne(s, Locks(0), [Reads(0)] + ([Writes(0)] + [Clears(0)]));
      assert [Locks(0)] + ([Reads(0)] + ([Writes(0)] + [Clears(0)])) == FlushSteps(0, file.Some?, io);
    }
  }

  function OrDefault(m: Option<Metrics>): Metrics {
    if m.Some? then m.value else Default()
  }

  /** File and slot after a flush attempt: an empty slot only has its counter reset, a failed attempt only its
      timer, and a full one goes into the file. */
  function Flushed(file: Option<Metrics>, slot: Slot, now: nat, io: Io): (Option<Metrics>, Slot) {
    if slot.delta.IsEmpty() then (file, Slot(slot.delta, 0, now))
    else if Works(io, file.Some?) then (Some(Merge(OrDefault(file), slot.delta)), Slot(Default(), 0, now))
    else (file, slot.(lastFlushAttempt := now))
  }

  /** The slot after one more batch. */
  function WithBatch(slot: Slot, batch: seq<Update>): Slot {
    Slot(ApplyAll(slot.delta, batch), slot.updatesSinceFlush + 1, slot.lastFlushAttempt)
  }

  predicate MustFlush(slot: Slot, now: nat) {
    slot.updatesSinceFlush >= FLUSH_AFTER || Due(slot, now)
  }

  function RecordedTo(file: Option<Metrics>, slot: Slot, batch: seq<Update>, now: nat, io: Io)
    : (Option<Metrics>, Slot)
  {
    var filled := WithBatch(slot, batch);
    if MustFlush(filled, now) then Flushed(file, filled, now, io) else (file, filled)
  }

  lemma RecordGrows(file: Option<Metrics>, slot: Slot, batch: seq<Update>, now: nat, io: Io)
    ensures var (file', slot') := RecordedTo(file, slot, batch, now, io);
      Merge(OrDefault(file'), slot'.delta) == ApplyAll(Merge(OrDefault(file), slot.delta), batch)
  {
    ApplyAllThroughMerge(OrDefault(file), slot.delta, batch);
    MergeUnit(Merge(OrDefault(file), WithBatch(slot, batch).delta));
  }

  /** A flush of a slot that is not empty is a run of the protocol. */
  lemma FlushIsProtocolRun(file: Option<Metrics>, slot: Slot, now: nat, io: Io)
    requires !slot.delta.IsEmpty()
    ensures var s, steps := AsState(file, slot, Waiting), FlushSteps(0, file.Some?, io);
      && Runs(Counters(), s, steps)
      && Shows(Run(Counters(), s, steps), Flushed(file, slot, now, io).0, Flushed(file, slot, now, io).1)
  {
    FlushRun(file, slot, io);
  }

  /** When a call flushes, in numbers: the sixteenth call since the last flush, or any call five seconds or more after
      the last attempt. Then, if there is something to write and I/O works, all of it goes into the file; if not, the
      file is as before and nothing pending is lost. Otherwise file and timer are as before. */
  lemma RecordFlushesIff(file: Option<Metrics>, slot: Slot, batch: seq<Update>, now: nat, io: Io)
    ensures var (file', slot') := RecordedTo(file, slot, batch, now, io);
      var delta := ApplyAll(slot.delta, batch);
      if slot.updatesSinceFlush >= 15 || now - slot.lastFlushAttempt >= 5000 then
        && slot'.lastFlushAttempt == now
        && (delta == Default() ==> file' == file && slot'.delta == Default() && slot'.updatesSinceFlush == 0)
        && (delta != Default() && io.lockOk && io.writeOk && (file.None? || io.readOk) ==>
              && file' == Some(Merge(if file.Some? then file.value else Default(), delta))
              && slot'.delta == Default() && slot'.updatesSinceFlush == 0)
        && (delta != Default() && !(io.lockOk && io.writeOk && (file.None? || io.readOk)) ==>
              file' == file && slot'.delta == delta && slot'.updatesSinceFlush == slot.updatesSinceFlush + 1)
      else file' == file && slot' == Slot(delta, slot.updatesSinceFlush + 1, slot.lastFlushAttempt)
  {
    EmptyIsDefault(ApplyAll(slot.delta, batch));
  }

  /** One call is a run of the protocol: the record, due exactly when five seconds have passed, and then, if it leaves
      the process waiting, the steps of one flush. */
  lemma RecordIsProtocolRun(file: Option<Metrics>, slot: Slot, batch: seq<Update>, now: nat, io: Io)
    ensures var s, record := AsState(file, slot, Idle), Record(0, Effect(batch), now - slot.lastFlushAttempt >= 5000);
      var s1 := Step(Counters(), s, record);
      var rest := if s1.procs[0].phase.Waiting? then FlushSteps(0, file.Some?, io) else [];
      var (file', slot') := RecordedTo(file, slot, batch, now, io);
      Enabled(s, record) && Runs(Counters(), s1, rest) && Shows(Run(Counters(), s1, rest), file', slot')
  {
    var s := AsState(file, slot, Idle);
    var s1 := Step(Counters(), s, Record(0, Effect(batch), now - slot.lastFlushAttempt >= 5000));
    var filled := WithBatch(slot, batch);
    RecordStep(file, slot, batch, now);
    if s1.procs[0].phase.Waiting? {
      FlushRun(file, filled, io);
      SameRun(Counters(), s1, AsState(file, filled, Waiting), FlushSteps(0, file.Some?, io));
    }
  }

  lemma RecordStep(file: Option<Metrics>, slot: Slot, batch: seq<Update>, now: nat)
    ensures var s, record := AsState(file, slot, Idle), Record(0, Effect(batch), now - slot.lastFlushAttempt >= 5000);
      var s1, filled := Step(Counters(), s, record), WithBatch(slot, batch);
      if !MustFlush(filled, now) then Shows(s1, file, filled)
      else if filled.delta.IsEmpty() then Shows(s1, file, Slot(filled.delta, 0, now))
      else Alike(s1, AsState(file, filled, Waiting))
  {
    BatchIsMerge(slot.delta, batch);
    EmptyIsDefault(WithBatch(slot, batch).delta);
    EffectStep(file, slot, Effect(batch), WithBatch(slot, batch), now - slot.lastFlushAttempt >= 5000);
  }

  lemma EffectStep(file: Option<Metrics>, slot: Slot, effect: Metrics, filled: Slot, due: bool)
    requires filled.delta == Counters().merge(slot.delta, effect)
    requires filled.updatesSinceFlush == slot.updatesSinceFlush + 1
    ensures var s1 := Step(Counters(), AsState(file, slot, Idle), Record(0, effect, due));
      if slot.updatesSinceFlush < 15 && !due then Shows(s1, file, filled)
      else if filled.delta == Default() then Shows(s1, file, filled.(updatesSinceFlush := 0))
      else Alike(s1, AsState(file, filled, Waiting))
  {
    RecordOne(Counters(), AsState(file, slot, Idle), 0, effect, due);
  }

  lemma EmptyMergesAway(m: Metrics, delta: Metrics)
    requires delta.IsEmpty()
    ensures Merge(m, delta) == m
  {
    EmptyIsDefault(delta);
    MergeUnit(m);
  }

  method MergedFrom(base: Metrics, delta: Metrics) returns (r: Metrics)
    ensures r == Merge(base, delta)
  {
    var metrics := new ContextMetrics.From(base);
    var d := new ContextMetrics.From(delta);
    metrics.MergeFrom(d);
    r := metrics.View();
  }

  method UpdatedWith(delta: Metrics, batch: seq<Update>) returns (r: Metrics)
    ensures r == ApplyAll(delta, batch)
  {
    var metrics := new ContextMetrics.From(delta);
    metrics.RecordAll(batch);
    r := metrics.View();
  }

  /** One repository directory as one process sees it: the metrics file, and the pending slot if any. */
  class MetricsStore {
    var file: Option<Metrics>
    var slot: Option<Slot>

    constructor (file: Option<Metrics>)
      ensures this.file == file && slot == None
    {
      this.file, slot := file, None;
    }

    /** The slot a call sees: a new one starts empty, its timer at the time of the call. */
    function SlotAt(now: nat): Slot
      reads this
    {
      if slot.Some? then slot.value else Slot(Default(), 0, now)
    }

    function Pending(): Metrics
      reads this
    {
      if slot.Some? then slot.value.delta else Default()
    }

    /** `flush_slot` */
    method FlushSlot(now: nat, io: Io) returns (ok: bool)
      requires slot.Some?
      modifies this
      ensures slot.Some? && (file, slot.value) == Flushed(old(file), old(slot.value), now, io)
      ensures ok <==> old(slot.value).delta.IsEmpty() || Works(io, old(file).Some?)
    {
      var before := slot.value;
      slot := Some(before.(lastFlushAttempt := now));
      if before.delta.IsEmpty() {
        slot := Some(Slot(before.delta, 0, now));
        return true;
      }
      if !io.lockOk { return false; }
      if file.Some? && !io.readOk { return false; }
      var metrics := MergedFrom(OrDefault(file), before.delta);
      if !io.writeOk { return false; }
      file := Some(metrics);
      slot := Some(Slot(Default(), 0, now));
      return true;
    }

    /** `record_delta`. A first call only opens the slot. The batch enters the slot once, and exactly a slot that is
        due is flushed: file and slot together grow by exactly the batch, whether the flush succeeds or not. */
    method RecordDelta(batch: seq<Update>, now: nat, io: Io) returns (ok: bool)
      modifies this
      ensures slot.Some? && (file, slot.value) == RecordedTo(old(file), old(SlotAt(now)), batch, now, io)
      ensures old(slot).None? ==> file == old(file) && slot.value == Slot(Effect(batch), 1, now)
      ensures old(slot).Some? ==> (file, slot.value) == RecordedTo(old(file), old(slot).value, batch, now, io)
      ensures var filled := WithBatch(old(SlotAt(now)), batch);
        ok <==> !MustFlush(filled, now) || filled.delta.IsEmpty() || Works(io, old(file).Some?)
      ensures Merge(OrDefault(file), slot.value.delta)
        == ApplyAll(old(Merge(OrDefault(file), SlotAt(now).delta)), batch)
    {
      if slot.None? {
        slot := Some(Slot(Default(), 0, now));
      }
      RecordGrows(file, slot.value, batch, now, io);
      var delta := UpdatedWith(slot.value.delta, batch);
      slot := Some(Slot(delta, slot.value.updatesSinceFlush + 1, slot.value.lastFlushAttempt));
      ok := true;
      if slot.value.updatesSinceFlush >= FLUSH_AFTER || Due(slot.value, now) {
        ok := FlushSlot(now, io);
      }
    }

    /** `load`, when no other process writes between its two reads. */
    method Load(readOk: bool) returns (r: Loading)
      ensures r.Failed? <==> file.Some? && !readOk
      ensures !r.Failed? ==> r == Found(Some(Merge(OrDefault(file), Pending())))
    {
      if file.Some? && !readOk { return Failed; }
      var metrics := OrDefault(file);
      if !Pending().IsEmpty() {
        metrics := Merge(metrics, Pending());
      } else {
        EmptyMergesAway(metrics, Pending());
      }
      return Found(Some(metrics));
    }

    /** `load_optional`: absent exactly when there is neither a file nor anything pending, otherwise equal to `load`. */
    method LoadOptional(readOk: bool) returns (r: Loading)
      ensures r.Failed? <==> file.Some? && !readOk
      ensures r == Found(None) <==> file.None? && Pending() == Default()
      ensures !r.Failed? && r != Found(None) ==> r == Found(Some(Merge(OrDefault(file), Pending())))
    {
      if file.Some? && !readOk { return Failed; }
      EmptyIsDefault(Pending());
      var delta := if slot.Some? && !slot.value.delta.IsEmpty() then Some(slot.value.delta) else None;
      match (file, delta)
      case (None, None) => return Found(None);
      case (Some(metrics), Some(d)) => return Found(Some(Merge(metrics, d)));
      case (Some(metrics), None) =>
        MergeUnit(metrics);
        return Found(Some(metrics));
      case (None, Some(d)) =>
        MergeUnit(d);
        MergeCommutes(d, Default());
        return Found(Some(d));
    }

    /** `save`: replaces the file and drops the pending slot, or changes nothing. */
    method Save(metrics: Metrics, io: Io) returns (ok: bool)
      modifies this
      ensures ok <==> io.lockOk && io.writeOk
      ensures ok ==> file == Some(metrics) && slot == None
      ensures !ok ==> file == old(file) && slot == old(slot)
    {
      if !io.lockOk || !io.writeOk { return false; }
      file, slot := Some(metrics), None;
      return true;
    }
  }
}
