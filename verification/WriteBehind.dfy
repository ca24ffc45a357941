/** Write-behind counters shared by several processes, as a step system. */
module WriteBehind {
  // Each process keeps a pending delta in memory and now and then flushes it into one file:
  // take the file lock, read, merge, replace the file, clear the delta, drop the lock.
  // Every flush step may fail and every process may stop at any point.
  // The counter type is left open; all that is used is that merging is a commutative monoid.

  import opened Options
  import opened Monoids

  // ---- the step system ----

  type Pid = nat

  const FLUSH_AFTER := 16

  /** Where a process is inside `flush_slot`. `HasRead` carries what it read from the file. */
  datatype Phase<T> = Idle | Waiting | Locked | HasRead(file: T) | Written

  /** A process. `delta` and `updates` are the pending slot; the rest is bookkeeping:
      `pending` lists the effects recorded since the slot was last emptied, `own` is everything the
      process recorded, `saved` the part it has written, and `clean` says that no flush
      has failed since the slot was last emptied. */
  datatype Proc<T> = Proc(delta: T, updates: nat, phase: Phase<T>, pending: seq<T>, own: T, saved: T, clean: bool)

  /** `total` is what one shared counter would hold, `lost` what stopped processes took with them,
      `retired` what stopped processes had written. */
  datatype State<T> = State(disk: Option<T>, holder: Option<Pid>, procs: map<Pid, Proc<T>>,
                            total: T, lost: T, retired: T)

  datatype Action<T> =
    | Start(p: Pid)
    | Record(p: Pid, effect: T, due: bool)
    | LockFails(p: Pid) | Locks(p: Pid)
    | ReadFails(p: Pid) | Reads(p: Pid)
    | WriteFails(p: Pid) | Writes(p: Pid)
    | Clears(p: Pid)
    | Stops(p: Pid)

  function Disk<T>(m: Monoid<T>, s: State<T>): T {
    if s.disk.Some? then s.disk.value else m.zero
  }

  /** The part of a process that only it holds: after the write the delta is already in the file. */
  function Outstanding<T>(m: Monoid<T>, q: Proc<T>): T {
    if q.phase.Written? then m.zero else q.delta
  }

  function Holds<T>(q: Proc<T>): bool {
    q.phase.Locked? || q.phase.HasRead? || q.phase.Written?
  }

  predicate Enabled<T>(s: State<T>, a: Action<T>) {
    match a
    case Start(p) => p !in s.procs
    case Record(p, _, _) => p in s.procs && s.procs[p].phase.Idle?
    case LockFails(p) => p in s.procs && s.procs[p].phase.Waiting?
    case Locks(p) => p in s.procs && s.procs[p].phase.Waiting? && s.holder.None?
    case ReadFails(p) => p in s.procs && s.procs[p].phase.Locked?
    case Reads(p) => p in s.procs && s.procs[p].phase.Locked?
    case WriteFails(p) => p in s.procs && s.procs[p].phase.HasRead?
    case Writes(p) => p in s.procs && s.procs[p].phase.HasRead?
    case Clears(p) => p in s.procs && s.procs[p].phase.Written?
    case Stops(p) => p in s.procs
  }

  function Fresh<T>(m: Monoid<T>): Proc<T> {
    Proc(m.zero, 0, Idle, [], m.zero, m.zero, true)
  }

  /** `record_delta` up to the decision to flush, and the empty-delta shortcut of `flush_slot`. */
  function Recorded<T(==)>(m: Monoid<T>, q: Proc<T>, effect: T, due: bool): Proc<T> {
    var delta, updates := m.merge(q.delta, effect), q.updates + 1;
    var q' := q.(delta := delta, updates := updates, pending := q.pending + [effect], own := m.merge(q.own, effect));
    if updates >= FLUSH_AFTER || due then
      if delta == m.zero then q'.(updates := 0, pending := [], clean := true) else q'.(phase := Waiting)
    else q'
  }

  function Emptied<T>(m: Monoid<T>, q: Proc<T>): Proc<T> {
    q.(delta := m.zero, updates := 0, phase := Idle, pending := [], clean := true)
  }

  function GivesUp<T>(q: Proc<T>): Proc<T> {
    q.(phase := Idle, clean := false)
  }

  function Step<T(==)>(m: Monoid<T>, s: State<T>, a: Action<T>): State<T>
    requires Enabled(s, a)
  {
    if a.Start? then s.(procs := s.procs[a.p := Fresh(m)])
    else
      var q := s.procs[a.p];
      match a
      case Record(p, effect, due) =>
        s.(procs := s.procs[p := Recorded(m, q, effect, due)], total := m.merge(s.total, effect))
      case LockFails(p) => s.(procs := s.procs[p := GivesUp(q)])
      case Locks(p) => s.(holder := Some(p), procs := s.procs[p := q.(phase := Locked)])
      case ReadFails(p) => s.(holder := None, procs := s.procs[p := GivesUp(q)])
      case Reads(p) => s.(procs := s.procs[p := q.(phase := HasRead(Disk(m, s)))])
      case WriteFails(p) => s.(holder := None, procs := s.procs[p := GivesUp(q)])
      case Writes(p) =>
        s.(disk := Some(m.merge(q.phase.file, q.delta)),
           procs := s.procs[p := q.(phase := Written, saved := m.merge(q.saved, q.delta))])
      case Clears(p) => s.(holder := None, procs := s.procs[p := Emptied(m, q)])
      case Stops(p) =>
        s.(holder := if Holds(q) then None else s.holder,
           procs := s.procs - {p},
           lost := m.merge(s.lost, Outstanding(m, q)),
           retired := m.merge(s.retired, q.saved))
  }

  predicate Runs<T(==)>(m: Monoid<T>, s: State<T>, acts: seq<Action<T>>)
    decreases acts
  {
    acts == [] || (Enabled(s, acts[0]) && Runs(m, Step(m, s, acts[0]), acts[1..]))
  }

  function Run<T(==)>(m: Monoid<T>, s: State<T>, acts: seq<Action<T>>): State<T>
    requires Runs(m, s, acts)
    decreases acts
  {
    if acts == [] then s else Run(m, Step(m, s, acts[0]), acts[1..])
  }

  /** One record: the delta grows by the effect; the process starts to flush at the sixteenth record or when it is due,
      unless there is nothing to write. */
  lemma RecordOne<T>(m: Monoid<T>, s: State<T>, p: Pid, effect: T, due: bool)
    requires p in s.procs && s.procs[p].phase.Idle?
    ensures var q, s' := s.procs[p], Step(m, s, Record(p, effect, due));
      var delta, flush := m.merge(q.delta, effect), q.updates >= 15 || due;
      && s'.disk == s.disk && s'.holder == s.holder && s'.procs == s.procs[p := s'.procs[p]]
      && s'.procs[p].delta == delta
      && s'.procs[p].updates == (if flush && delta == m.zero then 0 else q.updates + 1)
      && s'.procs[p].phase == (if flush && delta != m.zero then Waiting else Idle)
  {}

  /** Equal but for the bookkeeping, at which runs do not look. */
  predicate Alike<T(==)>(s: State<T>, t: State<T>) {
    && s.disk == t.disk && s.holder == t.holder && s.procs.Keys == t.procs.Keys
    && forall p :: p in s.procs ==> SamePlace(s.procs[p], t.procs[p])
  }

  predicate SamePlace<T(==)>(q: Proc<T>, r: Proc<T>) {
    q.delta == r.delta && q.updates == r.updates && q.phase == r.phase
  }

  lemma SameStep<T>(m: Monoid<T>, s: State<T>, t: State<T>, a: Action<T>)
    requires Alike(s, t) && Enabled(t, a)
    ensures Enabled(s, a) && Alike(Step(m, s, a), Step(m, t, a))
  {
    if !a.Start? && a.p in s.procs { assert SamePlace(s.procs[a.p], t.procs[a.p]); }
  }

  lemma {:induction false} SameRun<T>(m: Monoid<T>, s: State<T>, t: State<T>, acts: seq<Action<T>>)
    requires Alike(s, t) && Runs(m, t, acts)
    ensures Runs(m, s, acts) && Alike(Run(m, s, acts), Run(m, t, acts))
    decreases acts
  {
    if acts != [] {
      SameStep(m, s, t, acts[0]);
      SameRun(m, Step(m, s, acts[0]), Step(m, t, acts[0]), acts[1..]);
    }
  }

  /** No process yet; the file may already hold counters. */
  function Initial<T>(m: Monoid<T>, file: Option<T>): State<T> {
    var d := if file.Some? then file.value else m.zero;
    State(file, None, map[], d, m.zero, d)
  }

  // ---- invariant ----

  ghost function Pendings<T>(m: Monoid<T>, s: State<T>): map<Pid, T> {
    map p | p in s.procs :: Outstanding(m, s.procs[p])
  }

  ghost function Saved<T>(s: State<T>): map<Pid, T> {
    map p | p in s.procs :: s.procs[p].saved
  }

  /** The counters as a reader of file and all memories would see them: file merged with every pending delta. */
  ghost function Abs<T(!new)>(m: Monoid<T>, s: State<T>): T {
    m.merge(Disk(m, s), Fold(m, Pendings(m, s)))
  }

  /** At most one process is between taking and dropping the lock, and it is the recorded holder. */
  ghost predicate LockInv<T>(m: Monoid<T>, s: State<T>) {
    && (s.holder.Some? ==> s.holder.value in s.procs && Holds(s.procs[s.holder.value]))
    && (forall p :: p in s.procs && Holds(s.procs[p]) ==> s.holder == Some(p))
    && (forall p :: p in s.procs && s.procs[p].phase.HasRead? ==> s.procs[p].phase.file == Disk(m, s))
  }

  ghost predicate ProcInv<T(!new)>(m: Monoid<T>, q: Proc<T>) {
    && q.own == m.merge(q.saved, Outstanding(m, q))
    && q.delta == MergeSeq(m, q.pending)
    && q.updates == |q.pending|
    && (q.clean ==> q.updates <= if q.phase.Idle? then FLUSH_AFTER - 1 else FLUSH_AFTER)
  }

  ghost predicate Inv<T(!new)>(m: Monoid<T>, s: State<T>) {
    && LockInv(m, s)
    && (forall p :: p in s.procs ==> ProcInv(m, s.procs[p]))
    && Disk(m, s) == m.merge(s.retired, Fold(m, Saved(s)))
    && s.total == m.merge(Abs(m, s), s.lost)
  }

  lemma InitialInv<T(!new)>(m: Monoid<T>, file: Option<T>)
    requires Lawful(m)
    ensures Inv(m, Initial(m, file))
  {
    var s := Initial(m, file);
    assert Pendings(m, s) == map[] && Saved(s) == map[];
    Laws(m, Disk(m, s), m.zero, m.zero);
  }

  lemma StepKeepsLock<T(!new)>(m: Monoid<T>, s: State<T>, a: Action<T>)
    requires LockInv(m, s) && Enabled(s, a)
    ensures LockInv(m, Step(m, s, a))
  {}

  lemma StepKeepsProcs<T(!new)>(m: Monoid<T>, s: State<T>, a: Action<T>, p: Pid)
    requires Lawful(m) && Enabled(s, a) && p in Step(m, s, a).procs
    requires p in s.procs ==> ProcInv(m, s.procs[p])
    ensures ProcInv(m, Step(m, s, a).procs[p])
  {
    if p == a.p {
      if a.Start? {
        Laws(m, m.zero, m.zero, m.zero);
      } else {
        var q := s.procs[p];
        Laws(m, q.own, m.zero, m.zero);
        Laws(m, m.merge(q.saved, q.delta), m.zero, m.zero);
        if a.Record? {
          Laws(m, q.saved, q.delta, a.effect);
        }
      }
    }
  }

  lemma WriteAbs<T(!new)>(m: Monoid<T>, s: State<T>, p: nat)
    requires Lawful(m) && LockInv(m, s) && Enabled(s, Writes(p))
    ensures Abs(m, Step(m, s, Writes(p))) == Abs(m, s)
  {
    var f, f' := Pendings(m, s), Pendings(m, Step(m, s, Writes(p)));
    assert f' == f[p := m.zero];
    FoldSet(m, f, p, m.zero);
    FoldPick(m, f, p);
    var rest := Fold(m, f - {p});
    Laws(m, rest, m.zero, m.zero);
    Laws(m, Disk(m, s), f[p], rest);
  }

  lemma StartAbs<T(!new)>(m: Monoid<T>, s: State<T>, p: nat)
    requires Lawful(m) && Enabled(s, Start(p))
    ensures Abs(m, Step(m, s, Start(p))) == Abs(m, s)
  {
    var f, f' := Pendings(m, s), Pendings(m, Step(m, s, Start(p)));
    assert f' == f[p := m.zero] && f - {p} == f;
    FoldSet(m, f, p, m.zero);
    Laws(m, Fold(m, f), m.zero, m.zero);
  }

  lemma RecordAbs<T(!new)>(m: Monoid<T>, s: State<T>, a: Action<T>)
    requires Lawful(m) && Enabled(s, a) && a.Record?
    ensures Abs(m, Step(m, s, a)) == m.merge(Abs(m, s), a.effect)
  {
    var f, f' := Pendings(m, s), Pendings(m, Step(m, s, a));
    assert f' == f[a.p := m.merge(f[a.p], a.effect)];
    FoldAdd(m, f, a.p, a.effect);
    Laws(m, Disk(m, s), Fold(m, f), a.effect);
  }

  lemma StopAbs<T(!new)>(m: Monoid<T>, s: State<T>, p: nat)
    requires Lawful(m) && Enabled(s, Stops(p))
    ensures m.merge(Abs(m, Step(m, s, Stops(p))), Outstanding(m, s.procs[p])) == Abs(m, s)
  {
    var f, f' := Pendings(m, s), Pendings(m, Step(m, s, Stops(p)));
    assert f' == f - {p};
    FoldPick(m, f, p);
    Laws(m, Disk(m, s), f[p], Fold(m, f'));
  }

  /** What a step does to the merged view: a record enters once, a stop takes the unwritten delta out,
      and every flush step, failed or not, leaves it as it was. */
  lemma StepAbs<T(!new)>(m: Monoid<T>, s: State<T>, a: Action<T>)
    requires Lawful(m) && LockInv(m, s) && Enabled(s, a)
    ensures a.Record? ==> Abs(m, Step(m, s, a)) == m.merge(Abs(m, s), a.effect)
    ensures a.Stops? ==> m.merge(Abs(m, Step(m, s, a)), Outstanding(m, s.procs[a.p])) == Abs(m, s)
    ensures !a.Record? && !a.Stops? ==> Abs(m, Step(m, s, a)) == Abs(m, s)
  {
    match a
    case Start(p) => StartAbs(m, s, p);
    case Record(_, _, _) => RecordAbs(m, s, a);
    case Writes(p) => WriteAbs(m, s, p);
    case Stops(p) => StopAbs(m, s, p);
    case _ => assert Pendings(m, Step(m, s, a)) == Pendings(m, s);
  }

  lemma WriteSaved<T(!new)>(m: Monoid<T>, s: State<T>, p: nat)
    requires Lawful(m) && LockInv(m, s) && Enabled(s, Writes(p))
    requires Disk(m, s) == m.merge(s.retired, Fold(m, Saved(s)))
    ensures var s' := Step(m, s, Writes(p));
      Disk(m, s') == m.merge(s'.retired, Fold(m, Saved(s'))) && Below(m, Disk(m, s), Disk(m, s'))
  {
    var f, f', delta := Saved(s), Saved(Step(m, s, Writes(p))), s.procs[p].delta;
    assert f' == f[p := m.merge(f[p], delta)];
    FoldAdd(m, f, p, delta);
    Laws(m, s.retired, Fold(m, f), delta);
  }

  lemma MembershipSaved<T(!new)>(m: Monoid<T>, s: State<T>, a: Action<T>)
    requires Lawful(m) && Enabled(s, a) && (a.Start? || a.Stops?)
    ensures var s' := Step(m, s, a);
      m.merge(s'.retired, Fold(m, Saved(s'))) == m.merge(s.retired, Fold(m, Saved(s)))
  {
    var f, f', p := Saved(s), Saved(Step(m, s, a)), a.p;
    if a.Start? {
      assert f' == f[p := m.zero] && f - {p} == f;
      FoldSet(m, f, p, m.zero);
      Laws(m, Fold(m, f), m.zero, m.zero);
    } else {
      assert f' == f - {p};
      FoldPick(m, f, p);
      Laws(m, s.retired, f[p], Fold(m, f'));
    }
  }

  lemma StepSaved<T(!new)>(m: Monoid<T>, s: State<T>, a: Action<T>)
    requires Lawful(m) && LockInv(m, s) && Enabled(s, a)
    requires Disk(m, s) == m.merge(s.retired, Fold(m, Saved(s)))
    ensures Disk(m, Step(m, s, a)) == m.merge(Step(m, s, a).retired, Fold(m, Saved(Step(m, s, a))))
    ensures Below(m, Disk(m, s), Disk(m, Step(m, s, a)))
  {
    if a.Writes? {
      WriteSaved(m, s, a.p);
    } else {
      Laws(m, Disk(m, s), m.zero, m.zero);
      if a.Start? || a.Stops? { MembershipSaved(m, s, a); } else { assert Saved(Step(m, s, a)) == Saved(s); }
    }
  }

  lemma StepKeepsInv<T(!new)>(m: Monoid<T>, s: State<T>, a: Action<T>)
    requires Lawful(m) && Inv(m, s) && Enabled(s, a)
    ensures Inv(m, Step(m, s, a))
  {
    var s' := Step(m, s, a);
    StepKeepsLock(m, s, a);
    forall p | p in s'.procs ensures ProcInv(m, s'.procs[p]) { StepKeepsProcs(m, s, a, p); }
    StepSaved(m, s, a);
    StepAbs(m, s, a);
    if a.Record? {
      Laws(m, Abs(m, s), a.effect, s.lost);
    } else if a.Stops? {
      var out := Outstanding(m, s.procs[a.p]);
      Laws(m, Abs(m, s'), out, s.lost);
      Laws(m, s.lost, out, m.zero);
    }
  }

  // ---- whole runs ----

  /** The effects recorded in a run, in order, whichever process recorded them. */
  function Effects<T>(acts: seq<Action<T>>): seq<T> {
    if acts == [] then []
    else (if acts[0].Record? then [acts[0].effect] else []) + Effects(acts[1..])
  }

  function MergeInto<T>(m: Monoid<T>, start: T, effects: seq<T>): T
    decreases effects
  {
    if effects == [] then start else MergeInto(m, m.merge(start, effects[0]), effects[1..])
  }

  lemma {:induction false} RunKeepsInv<T(!new)>(m: Monoid<T>, s: State<T>, acts: seq<Action<T>>)
    requires Lawful(m) && Inv(m, s) && Runs(m, s, acts)
    ensures Inv(m, Run(m, s, acts))
    ensures Run(m, s, acts).total == MergeInto(m, s.total, Effects(acts))
    ensures Below(m, Disk(m, s), Disk(m, Run(m, s, acts)))
    decreases acts
  {
    if acts == [] {
      Laws(m, Disk(m, s), m.zero, m.zero);
    } else {
      var s1 := Step(m, s, acts[0]);
      StepKeepsInv(m, s, acts[0]);
      StepSaved(m, s, acts[0]);
      RunKeepsInv(m, s1, acts[1..]);
      BelowTransitive(m, Disk(m, s), Disk(m, s1), Disk(m, Run(m, s, acts)));
      if acts[0].Record? {
        assert Effects(acts)[0] == acts[0].effect && Effects(acts)[1..] == Effects(acts[1..]);
      } else {
        assert Effects(acts) == Effects(acts[1..]);
      }
    }
  }

  /** Conservation: after any interleaving of records, flushes, failures and stops, the file merged with the
      pending deltas and with what stopped processes lost is one counter that received every record once. */
  lemma Conservation<T(!new)>(m: Monoid<T>, file: Option<T>, acts: seq<Action<T>>)
    requires Lawful(m) && Runs(m, Initial(m, file), acts)
    ensures m.merge(Abs(m, Run(m, Initial(m, file), acts)), Run(m, Initial(m, file), acts).lost)
         == MergeInto(m, Disk(m, Initial(m, file)), Effects(acts))
  {
    InitialInv(m, file);
    RunKeepsInv(m, Initial(m, file), acts);
  }

  predicate NoStops<T>(acts: seq<Action<T>>) {
    forall i :: 0 <= i < |acts| ==> !acts[i].Stops?
  }

  lemma {:induction false} LostOnlyByStops<T(!new)>(m: Monoid<T>, s: State<T>, acts: seq<Action<T>>)
    requires Runs(m, s, acts) && NoStops(acts)
    ensures Run(m, s, acts).lost == s.lost
    decreases acts
  {
    if acts != [] {
      assert !acts[0].Stops?;
      LostOnlyByStops(m, Step(m, s, acts[0]), acts[1..]);
    }
  }

  /** Without stops nothing is lost or counted twice. */
  lemma ExactWithoutStops<T(!new)>(m: Monoid<T>, file: Option<T>, acts: seq<Action<T>>)
    requires Lawful(m) && Runs(m, Initial(m, file), acts) && NoStops(acts)
    ensures Abs(m, Run(m, Initial(m, file), acts)) == MergeInto(m, Disk(m, Initial(m, file)), Effects(acts))
  {
    Conservation(m, file, acts);
    LostOnlyByStops(m, Initial(m, file), acts);
    Laws(m, Abs(m, Run(m, Initial(m, file), acts)), m.zero, m.zero);
  }

  /** A stop loses the effects recorded since the last flush and no others: nothing between write and clear,
      at most fifteen between calls and at most sixteen inside the sixteenth call, provided no flush
      has failed since the slot was last emptied. */
  lemma StopLoses<T(!new)>(m: Monoid<T>, s: State<T>, p: Pid)
    requires Lawful(m) && Inv(m, s) && p in s.procs
    ensures var q := s.procs[p];
      Step(m, s, Stops(p)).lost ==
        m.merge(s.lost, MergeSeq(m, if q.phase.Written? then [] else q.pending))
      && (q.clean ==> |q.pending| <= if q.phase.Idle? then 15 else 16)
  {
    assert ProcInv(m, s.procs[p]);
  }

  /** No flush step of the process fails. */
  predicate NoFailureBy<T>(p: Pid, acts: seq<Action<T>>) {
    forall i :: 0 <= i < |acts| && acts[i].p == p ==>
      !acts[i].LockFails? && !acts[i].ReadFails? && !acts[i].WriteFails?
  }

  lemma {:induction false} StaysClean<T(!new)>(m: Monoid<T>, s: State<T>, acts: seq<Action<T>>, p: Pid)
    requires Runs(m, s, acts) && NoFailureBy(p, acts) && (p in s.procs ==> s.procs[p].clean)
    ensures p in Run(m, s, acts).procs ==> Run(m, s, acts).procs[p].clean
    decreases acts
  {
    if acts != [] {
      assert acts[0].p == p ==> !acts[0].LockFails? && !acts[0].ReadFails? && !acts[0].WriteFails?;
      StaysClean(m, Step(m, s, acts[0]), acts[1..], p);
    }
  }

  /** Over any run in which no flush of the process fails, it never holds more than fifteen unwritten effects between
      calls, and sixteen while its own flush is on the way. */
  lemma AtMostSixteen<T(!new)>(m: Monoid<T>, file: Option<T>, acts: seq<Action<T>>, p: Pid)
    requires Lawful(m) && Runs(m, Initial(m, file), acts) && NoFailureBy(p, acts)
    ensures var s := Run(m, Initial(m, file), acts);
      p in s.procs ==>
        && s.procs[p].updates == |s.procs[p].pending| <= 16
        && (s.procs[p].phase.Idle? ==> |s.procs[p].pending| <= 15)
  {
    InitialInv(m, file);
    RunKeepsInv(m, Initial(m, file), acts);
    StaysClean(m, Initial(m, file), acts, p);
    var s := Run(m, Initial(m, file), acts);
    if p in s.procs { assert ProcInv(m, s.procs[p]); }
  }

  predicate IsRecordBy<T>(p: Pid, a: Action<T>) {
    a.Record? && a.p == p && !a.due
  }

  /** The bound of sixteen is met: sixteen records in a row, no timeout and no failure, leave all sixteen
      unwritten when the process stops before its write. */
  lemma {:induction false} SixteenCanBeUnwritten<T(!new)>(m: Monoid<T>, s: State<T>, p: Pid, acts: seq<Action<T>>)
    requires Lawful(m) && p in s.procs && s.procs[p].phase.Idle? && s.procs[p].clean && ProcInv(m, s.procs[p])
    requires |acts| > 0 && forall i :: 0 <= i < |acts| ==> IsRecordBy(p, acts[i])
    requires s.procs[p].updates + |acts| == 16
    requires m.merge(s.procs[p].delta, MergeSeq(m, Effects(acts))) != m.zero
    ensures Runs(m, s, acts) && p in Run(m, s, acts).procs
    ensures var q := Run(m, s, acts).procs[p]; q.clean && q.phase.Waiting? && |q.pending| == 16
    decreases acts
  {
    assert IsRecordBy(p, acts[0]);
    var e, delta := acts[0].effect, s.procs[p].delta;
    var s1 := Step(m, s, acts[0]);
    StepKeepsProcs(m, s, acts[0], p);
    assert Effects(acts) == [e] + Effects(acts[1..]);
    MergeSeqCons(m, e, Effects(acts[1..]));
    Laws(m, delta, e, MergeSeq(m, Effects(acts[1..])));
    if |acts| > 1 {
      SixteenCanBeUnwritten(m, s1, p, acts[1..]);
    } else {
      assert acts[1..] == [];
      Laws(m, m.merge(delta, e), m.zero, m.zero);
    }
  }

  // ---- properties of counters that merging keeps ----

  /** `good` holds of nothing recorded, and of merges of good counters. */
  ghost predicate Closed<T(!new)>(m: Monoid<T>, good: T -> bool) {
    good(m.zero) && forall a: T, b: T {:trigger Args(a, b, m.zero)} :: Args(a, b, m.zero) ==>
      good(a) && good(b) ==> good(m.merge(a, b))
  }

  ghost predicate RecordsAll<T>(good: T -> bool, acts: seq<Action<T>>) {
    forall i :: 0 <= i < |acts| && acts[i].Record? ==> good(acts[i].effect)
  }

  /** `good` holds of the file, of every pending delta, and of every file content read during a flush. */
  ghost predicate All<T(!new)>(m: Monoid<T>, good: T -> bool, s: State<T>) {
    && good(Disk(m, s))
    && (forall p :: p in s.procs ==> good(s.procs[p].delta))
    && (forall p :: p in s.procs && s.procs[p].phase.HasRead? ==> good(s.procs[p].phase.file))
  }

  lemma {:induction false} RunKeepsAll<T(!new)>(m: Monoid<T>, good: T -> bool, s: State<T>, acts: seq<Action<T>>)
    requires Closed(m, good) && All(m, good, s) && Runs(m, s, acts) && RecordsAll(good, acts)
    ensures All(m, good, Run(m, s, acts))
    decreases acts
  {
    if acts != [] {
      var a := acts[0];
      if a.Record? { assert Args(s.procs[a.p].delta, a.effect, m.zero); }
      if a.Writes? { assert Args(s.procs[a.p].phase.file, s.procs[a.p].delta, m.zero); }
      RunKeepsAll(m, good, Step(m, s, a), acts[1..]);
    }
  }

  // ---- load: a file read followed, later, by a read of the own pending delta ----

  /** What `load` returns when it reads the file in state `s1` and the pending delta in state `s2`. */
  function Loaded<T>(m: Monoid<T>, s1: State<T>, s2: State<T>, p: Pid): T
    requires p in s2.procs
  {
    m.merge(Disk(m, s1), s2.procs[p].delta)
  }

  lemma LoadKeeps<T(!new)>(m: Monoid<T>, good: T -> bool, s1: State<T>, s2: State<T>, p: Pid)
    requires Closed(m, good) && All(m, good, s1) && All(m, good, s2) && p in s2.procs
    ensures good(Loaded(m, s1, s2, p))
  {
    assert Args(Disk(m, s1), s2.procs[p].delta, m.zero);
  }

  /** `load` never counts anything twice, whatever happens between its two reads: the result is
      part of the true total. The second read waits for the mutex, so the process is not flushing then. */
  lemma LoadNeverOvercounts<T(!new)>(m: Monoid<T>, s1: State<T>, acts: seq<Action<T>>, p: Pid)
    requires Lawful(m) && Inv(m, s1) && Runs(m, s1, acts)
    requires var s2 := Run(m, s1, acts); p in s2.procs && s2.procs[p].phase.Idle?
    ensures Below(m, Loaded(m, s1, Run(m, s1, acts), p), Run(m, s1, acts).total)
  {
    var s2 := Run(m, s1, acts);
    var delta, f := s2.procs[p].delta, Pendings(m, s2);
    RunKeepsInv(m, s1, acts);
    BelowMonotone(m, Disk(m, s1), Disk(m, s2), delta);
    FoldPick(m, f, p);
    var rest := Fold(m, f - {p});
    Laws(m, Disk(m, s2), delta, rest);
    BelowTransitive(m, Loaded(m, s1, s2, p), m.merge(Disk(m, s2), delta), Abs(m, s2));
    BelowTransitive(m, Loaded(m, s1, s2, p), Abs(m, s2), s2.total);
  }

  /** A power loss in `s2` leaves the file of some earlier state `s1`, no older than the file last made durable in
      `s0`: at least what that one held and no more than was recorded; and whatever runs after it builds on the
      file left, each later record once. */
  lemma PowerLossKeepsPart<T(!new)>(m: Monoid<T>, s0: State<T>, a: seq<Action<T>>, b: seq<Action<T>>,
                                    after: seq<Action<T>>)
    requires Lawful(m) && Inv(m, s0) && Runs(m, s0, a) && Runs(m, Run(m, s0, a), b)
    requires Runs(m, Initial(m, Run(m, s0, a).disk), after)
    ensures var s1 := Run(m, s0, a);
      && Below(m, Disk(m, s0), Disk(m, s1)) && Below(m, Disk(m, s1), Run(m, s1, b).total)
      && var s := Run(m, Initial(m, s1.disk), after);
        m.merge(Abs(m, s), s.lost) == MergeInto(m, Disk(m, s1), Effects(after))
  {
    var s1 := Run(m, s0, a);
    var s2 := Run(m, s1, b);
    RunKeepsInv(m, s0, a);
    RunKeepsInv(m, s1, b);
    BelowTransitive(m, Disk(m, s1), Disk(m, s2), Abs(m, s2));
    BelowTransitive(m, Disk(m, s1), Abs(m, s2), s2.total);
    Conservation(m, s1.disk, after);
    assert Disk(m, Initial(m, s1.disk)) == Disk(m, s1);
  }

  /** The process neither writes nor stops. */
  predicate NoWriteBy<T>(p: Pid, acts: seq<Action<T>>) {
    forall i :: 0 <= i < |acts| ==> !(acts[i].p == p && (acts[i].Writes? || acts[i].Stops?))
  }

  lemma {:induction false} SavedUnchanged<T(!new)>(m: Monoid<T>, s: State<T>, acts: seq<Action<T>>, p: Pid)
    requires Runs(m, s, acts) && NoWriteBy(p, acts) && p in s.procs
    ensures p in Run(m, s, acts).procs && Run(m, s, acts).procs[p].saved == s.procs[p].saved
    decreases acts
  {
    if acts != [] {
      assert !(acts[0].p == p && (acts[0].Writes? || acts[0].Stops?));
      SavedUnchanged(m, Step(m, s, acts[0]), acts[1..], p);
    }
  }

  /** `load` includes everything its own process recorded, unless that process wrote between the two reads. */
  lemma LoadSeesOwnRecords<T(!new)>(m: Monoid<T>, s1: State<T>, acts: seq<Action<T>>, p: Pid)
    requires Lawful(m) && Inv(m, s1) && p in s1.procs && Runs(m, s1, acts) && NoWriteBy(p, acts)
    requires p in Run(m, s1, acts).procs && Run(m, s1, acts).procs[p].phase.Idle?
    ensures Below(m, Run(m, s1, acts).procs[p].own, Loaded(m, s1, Run(m, s1, acts), p))
  {
    var s2 := Run(m, s1, acts);
    RunKeepsInv(m, s1, acts);
    SavedUnchanged(m, s1, acts, p);
    assert ProcInv(m, s2.procs[p]);
    var saved, f := s1.procs[p].saved, Saved(s1);
    FoldPick(m, f, p);
    var rest := Fold(m, f - {p});
    Laws(m, s1.retired, saved, rest);
    Laws(m, saved, s1.retired, rest);
    BelowMonotone(m, saved, Disk(m, s1), s2.procs[p].delta);
  }

  predicate NoStopBy<T>(p: Pid, acts: seq<Action<T>>) {
    forall i :: 0 <= i < |acts| ==> !(acts[i].p == p && acts[i].Stops?)
  }

  /** The deltas that process `p` writes to the file in the course of a run. */
  function WrittenBy<T(==)>(m: Monoid<T>, s: State<T>, acts: seq<Action<T>>, p: Pid): T
    requires Runs(m, s, acts)
    decreases acts
  {
    if acts == [] then m.zero
    else
      m.merge(if acts[0].Writes? && acts[0].p == p then s.procs[p].delta else m.zero,
              WrittenBy(m, Step(m, s, acts[0]), acts[1..], p))
  }

  lemma {:induction false} SavedGrows<T(!new)>(m: Monoid<T>, s: State<T>, acts: seq<Action<T>>, p: Pid)
    requires Lawful(m) && Runs(m, s, acts) && NoStopBy(p, acts) && p in s.procs
    ensures p in Run(m, s, acts).procs
    ensures Run(m, s, acts).procs[p].saved == m.merge(s.procs[p].saved, WrittenBy(m, s, acts, p))
    decreases acts
  {
    Laws(m, s.procs[p].saved, m.zero, m.zero);
    if acts != [] {
      var a, s1 := acts[0], Step(m, s, acts[0]);
      assert !(a.p == p && a.Stops?);
      SavedGrows(m, s1, acts[1..], p);
      var now := if a.Writes? && a.p == p then s.procs[p].delta else m.zero;
      assert s1.procs[p].saved == m.merge(s.procs[p].saved, now);
      Laws(m, s.procs[p].saved, now, WrittenBy(m, s1, acts[1..], p));
    }
  }

  /** Exactly what `load` misses of its own process, whatever happens between the two reads: what it sees of it is what
      was in the file at the first read and what is pending at the second; what the process wrote in between is
      missing. */
  lemma LoadMissesOwnFlush<T(!new)>(m: Monoid<T>, s1: State<T>, acts: seq<Action<T>>, p: Pid)
    requires Lawful(m) && Inv(m, s1) && p in s1.procs && Runs(m, s1, acts) && NoStopBy(p, acts)
    requires p in Run(m, s1, acts).procs && Run(m, s1, acts).procs[p].phase.Idle?
    ensures var s2 := Run(m, s1, acts);
      var seen := m.merge(s1.procs[p].saved, s2.procs[p].delta);
      && Loaded(m, s1, s2, p) == m.merge(seen, m.merge(s1.retired, Fold(m, Saved(s1) - {p})))
      && s2.procs[p].own == m.merge(seen, WrittenBy(m, s1, acts, p))
  {
    var s2 := Run(m, s1, acts);
    RunKeepsInv(m, s1, acts);
    SavedGrows(m, s1, acts, p);
    assert ProcInv(m, s2.procs[p]);
    var saved, delta := s1.procs[p].saved, s2.procs[p].delta;
    Laws(m, saved, WrittenBy(m, s1, acts, p), delta);
    FoldPick(m, Saved(s1), p);
    LoadedParts(m, s1.retired, saved, Fold(m, Saved(s1) - {p}), delta);
  }

  lemma LoadedParts<T(!new)>(m: Monoid<T>, retired: T, saved: T, rest: T, delta: T)
    requires Lawful(m)
    ensures m.merge(m.merge(retired, m.merge(saved, rest)), delta)
      == m.merge(m.merge(saved, delta), m.merge(retired, rest))
  {
    Laws(m, retired, saved, rest);
    Laws(m, saved, retired, rest);
    Laws(m, saved, m.merge(retired, rest), delta);
  }

  /** It does happen: when the write falls between the two reads, `load` returns the old file contents and misses the
      whole delta. */
  lemma OneFlushMissed<T(!new)>(m: Monoid<T>, s: State<T>, p: Pid)
    requires Lawful(m) && Inv(m, s) && p in s.procs && s.procs[p].phase.HasRead?
    ensures var acts: seq<Action<T>> := [Writes(p), Clears(p)];
      && Runs(m, s, acts)
      && p in Run(m, s, acts).procs
      && Loaded(m, s, Run(m, s, acts), p) == Disk(m, s)
      && Disk(m, Run(m, s, acts)) == m.merge(Disk(m, s), s.procs[p].delta)
  {
    var acts: seq<Action<T>> := [Writes(p), Clears(p)];
    var s1 := Step(m, s, acts[0]);
    assert acts[1..] == [acts[1]] && acts[1..][1..] == [];
    assert Run(m, s1, acts[1..]) == Step(m, s1, acts[1]);
    Laws(m, Disk(m, s), m.zero, m.zero);
  }

  // ---- the lock never blocks for good ----

  /** Some flush step other than a failure can always be taken while any process is flushing. */
  lemma FlushCanAdvance<T(!new)>(m: Monoid<T>, s: State<T>, p: Pid) returns (a: Action<T>)
    requires LockInv(m, s) && p in s.procs && !s.procs[p].phase.Idle?
    ensures Enabled(s, a) && (a.Locks? || a.Reads? || a.Writes? || a.Clears?)
    ensures s.procs[p].phase.Waiting? || a.p == p
  {
    var q := if Holds(s.procs[p]) || s.holder.None? then p else s.holder.value;
    match s.procs[q].phase
    case Waiting => a := Locks(q);
    case Locked => a := Reads(q);
    case HasRead(_) => a := Writes(q);
    case Written => a := Clears(q);
  }
}
