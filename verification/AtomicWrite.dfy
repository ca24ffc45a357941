/** Atomic file replacement: temporary file, write, sync, rename, sync of the directory. */
module AtomicWrite {
  // First as a step system in which calls of several processes interleave, any step may fail, processes die, and
  // power may be lost at any point and any number of times; then as the method itself, on named files.

  import opened Options
  import Decimal

  type Bytes = seq<bv8>
  type Pid = nat
  type CallId = nat
  type InodeId = nat

  /** A file body. Unless `durable`, a power loss may leave any bytes in its place. */
  datatype Inode = Inode(data: Bytes, durable: bool)

  /** Names in the directory of the target. A temporary name is built from process and counter. */
  datatype Name = Target | Temp(pid: Pid, counter: nat)

  datatype Phase =
    | Creating | Writing(inode: InodeId, written: nat) | Renaming(inode: InodeId) | SyncingDir | Returned(ok: bool)

  datatype Call = Call(pid: Pid, counter: nat, contents: Bytes, phase: Phase)

  /** `links` lists every inode the target name has pointed to, the current one last; after a power loss the
      name may point to any of them from index `safe` on. `writers` lists the calls that renamed, in order;
      `initial` is what the target held at the start. A power loss takes all three back to the link that is left. */
  datatype State = State(
    names: map<Name, InodeId>, inodes: map<InodeId, Inode>, links: seq<Option<InodeId>>, safe: nat,
    counters: map<Pid, nat>, calls: map<CallId, Call>, writers: seq<CallId>, bodies: seq<Bytes>,
    initial: Option<Bytes>)

  datatype Action =
    | Begin(c: CallId, pid: Pid, contents: Bytes)
    | Create(c: CallId, inode: InodeId)
    | Write(c: CallId, count: nat)
    | Sync(c: CallId)
    | Rename(c: CallId)
    | Fail(c: CallId, removed: bool)
    | SyncDir(c: CallId, synced: bool)
    | Die(pid: Pid)
    | PowerLoss(k: nat, left: map<Name, InodeId>, torn: map<InodeId, Bytes>)

  function TempOf(k: Call): Name {
    Temp(k.pid, k.counter)
  }

  predicate Live(k: Call) {
    !k.phase.Returned?
  }

  predicate Enabled(s: State, a: Action) {
    match a
    case Begin(c, _, _) => c !in s.calls && c !in s.writers
    case Create(c, inode) =>
      && c in s.calls && s.calls[c].phase.Creating?
      && if TempOf(s.calls[c]) in s.names then inode == s.names[TempOf(s.calls[c])] else inode !in s.inodes
    case Write(c, count) =>
      && c in s.calls && s.calls[c].phase.Writing?
      && s.calls[c].phase.written + count <= |s.calls[c].contents| && s.calls[c].phase.inode in s.inodes
    case Sync(c) =>
      && c in s.calls && s.calls[c].phase.Writing?
      && s.calls[c].phase.written == |s.calls[c].contents| && s.calls[c].phase.inode in s.inodes
    case Rename(c) => c in s.calls && s.calls[c].phase.Renaming?
    case Fail(c, _) =>
      c in s.calls && (s.calls[c].phase.Creating? || s.calls[c].phase.Writing? || s.calls[c].phase.Renaming?)
    case SyncDir(c, _) => c in s.calls && s.calls[c].phase.SyncingDir?
    case Die(_) => true
    case PowerLoss(k, left, torn) => MayLeave(s, k, left, torn)
  }

  /** The directory is as it was at some moment since its last sync: the target name has link `k`, and the temporary
      names then present lead to files that were not linked yet. `torn` gives the bodies that were not durable. */
  predicate MayLeave(s: State, k: nat, left: map<Name, InodeId>, torn: map<InodeId, Bytes>) {
    && s.safe <= k < |s.links| && k <= |s.bodies| && k <= |s.writers|
    && (forall n :: n in left ==> n.Temp? && left[n] in s.inodes && Some(left[n]) !in s.links[..k + 1])
    && (forall n, m :: n in left && m in left && n != m ==> left[n] != left[m])
    && (forall i :: i in torn ==> i in s.inodes && !s.inodes[i].durable)
  }

  /** No process survives; what is on the disk now is on the disk for good. */
  function Left(s: State, k: nat, left: map<Name, InodeId>, torn: map<InodeId, Bytes>): State
    requires MayLeave(s, k, left, torn)
  {
    s.(names := match s.links[k] case None => left case Some(i) => left[Target := i],
       inodes := map i | i in s.inodes :: Inode(if i in torn then torn[i] else s.inodes[i].data, true),
       links := s.links[..k + 1], safe := k, writers := s.writers[..k], bodies := s.bodies[..k],
       counters := map[], calls := map[])
  }

  function Counter(s: State, pid: Pid): nat {
    if pid in s.counters then s.counters[pid] else 0
  }

  function At(s: State, c: CallId, phase: Phase): map<CallId, Call>
    requires c in s.calls
  {
    s.calls[c := s.calls[c].(phase := phase)]
  }

  function Step(s: State, a: Action): State
    requires Enabled(s, a)
  {
    match a
    case Begin(c, pid, contents) =>
      s.(counters := s.counters[pid := Counter(s, pid) + 1],
         calls := s.calls[c := Call(pid, Counter(s, pid), contents, Creating)])
    case Create(c, inode) =>
      // An existing file of that name is truncated in place.
      s.(names := s.names[TempOf(s.calls[c]) := inode],
         inodes := s.inodes[inode := Inode([], false)],
         calls := At(s, c, Writing(inode, 0)))
    case Write(c, count) =>
      var k := s.calls[c];
      var upto := k.phase.written + count;
      s.(inodes := s.inodes[k.phase.inode :=
           Inode(s.inodes[k.phase.inode].data + k.contents[k.phase.written..upto], false)],
         calls := At(s, c, Writing(k.phase.inode, upto)))
    case Sync(c) =>
      var i := s.calls[c].phase.inode;
      s.(inodes := s.inodes[i := s.inodes[i].(durable := true)], calls := At(s, c, Renaming(i)))
    case Rename(c) =>
      var i := s.calls[c].phase.inode;
      s.(names := (s.names - {TempOf(s.calls[c])})[Target := i],
         links := s.links + [Some(i)],
         writers := s.writers + [c], bodies := s.bodies + [s.calls[c].contents],
         calls := At(s, c, SyncingDir))
    case Fail(c, removed) =>
      s.(names := if removed then s.names - {TempOf(s.calls[c])} else s.names,
         calls := At(s, c, Returned(false)))
    case SyncDir(c, synced) =>
      s.(safe := if synced then |s.bodies| else s.safe, calls := At(s, c, Returned(true)))
    case Die(pid) =>
      // Its calls vanish, its temporary files stay, and the number may be reused with the counter back at zero.
      s.(calls := map c | c in s.calls && (s.calls[c].pid != pid || !Live(s.calls[c])) :: s.calls[c],
         counters := s.counters - {pid})
    case PowerLoss(k, left, torn) => Left(s, k, left, torn)
  }

  /** What version `k` of the target should contain: version 0 is the start, version `k` what rename `k` installed. */
  function Version(s: State, k: nat): Option<Bytes>
    requires k <= |s.bodies|
  {
    if k == 0 then s.initial else Some(s.bodies[k - 1])
  }

  function Initial(file: Option<Bytes>): State {
    State(if file.Some? then map[Target := 0] else map[],
          if file.Some? then map[0 := Inode(file.value, true)] else map[],
          [if file.Some? then Some(0) else None], 0, map[], map[], [], [], file)
  }

  /** The contents a reader of the target sees while power stays on. */
  function Visible(s: State): Option<Bytes>
    requires Target in s.names ==> s.names[Target] in s.inodes
  {
    if Target in s.names then Some(s.inodes[s.names[Target]].data) else None
  }

  /** The target after a power loss: one of its possible links, and for a file body that is not
      durable any bytes at all. */
  ghost predicate AfterPowerLoss(s: State, out: Option<Bytes>) {
    exists k: nat :: s.safe <= k < |s.links| &&
      match s.links[k]
      case None => out == None
      case Some(i) => out.Some? && (i in s.inodes && s.inodes[i].durable ==> out.value == s.inodes[i].data)
  }

  // ---- invariant ----

  /** Distinct names are distinct files, and no temporary name leads to a file the target has ever pointed to. */
  ghost predicate NamesInv(s: State) {
    && (forall n :: n in s.names ==> s.names[n] in s.inodes)
    && (forall n, m :: n in s.names && m in s.names && n != m ==> s.names[n] != s.names[m])
    && (forall n, k :: n in s.names && n.Temp? && 0 <= k < |s.links| ==> s.links[k] != Some(s.names[n]))
  }

  ghost predicate LinksInv(s: State) {
    && |s.links| == |s.bodies| + 1 == |s.writers| + 1 && s.safe < |s.links|
    && (forall i, j :: 0 <= i < j < |s.writers| ==> s.writers[i] != s.writers[j])
    && (s.links[|s.links| - 1] == if Target in s.names then Some(s.names[Target]) else None)
    && (forall k :: 0 <= k < |s.links| ==> LinkHolds(s, k))
  }

  /** Version `k` sits complete and durable in the inode that was linked. */
  ghost predicate LinkHolds(s: State, k: nat)
    requires |s.links| == |s.bodies| + 1 && k < |s.links|
  {
    match s.links[k]
    case None => Version(s, k) == None
    case Some(i) => i in s.inodes && s.inodes[i].durable && Version(s, k) == Some(s.inodes[i].data)
  }

  ghost predicate CallInv(s: State, c: CallId)
    requires c in s.calls
  {
    var k := s.calls[c];
    && (Live(k) ==> k.counter < Counter(s, k.pid))
    && (c in s.writers <==> k.phase.SyncingDir? || k.phase == Returned(true))
    && match k.phase
       case Writing(i, n) =>
         && TempOf(k) in s.names && s.names[TempOf(k)] == i && i in s.inodes
         && n <= |k.contents| && s.inodes[i].data == k.contents[..n]
       case Renaming(i) =>
         && TempOf(k) in s.names && s.names[TempOf(k)] == i && i in s.inodes
         && s.inodes[i] == Inode(k.contents, true)
       case _ => true
  }

  /** Every rename installed the contents of its call. */
  ghost predicate WritersInv(s: State) {
    |s.writers| == |s.bodies| &&
    forall i :: 0 <= i < |s.writers| && s.writers[i] in s.calls ==> s.bodies[i] == s.calls[s.writers[i]].contents
  }

  ghost predicate Inv(s: State) {
    && NamesInv(s)
    && LinksInv(s)
    && WritersInv(s)
    && (forall c :: c in s.calls ==> CallInv(s, c))
    && Distinct(s)
  }

  lemma InitialInv(file: Option<Bytes>)
    ensures Inv(Initial(file))
  {
    var s := Initial(file);
    assert LinkHolds(s, 0);
  }

  lemma StepKeepsNames(s: State, a: Action)
    requires Inv(s) && Enabled(s, a) && !a.PowerLoss?
    ensures NamesInv(Step(s, a))
  {
    if a.Create? {
      forall k | 0 <= k < |s.links| ensures s.links[k] != Some(a.inode) { assert LinkHolds(s, k); }
    } else if a.Rename? {
      assert CallInv(s, a.c);
    }
  }

  lemma StepKeepsLinks(s: State, a: Action)
    requires Inv(s) && Enabled(s, a) && !a.PowerLoss?
    ensures LinksInv(Step(s, a))
  {
    var s' := Step(s, a);
    if a.Create? || a.Write? || a.Sync? || a.Rename? { assert CallInv(s, a.c); }
    forall k | 0 <= k < |s'.links| ensures LinkHolds(s', k) {
      if k < |s.links| {
        assert LinkHolds(s, k) && Version(s', k) == Version(s, k);
      }
    }
  }

  predicate Acts(a: Action, c: CallId) {
    !a.Die? && !a.PowerLoss? && a.c == c
  }

  lemma ActingCall(s: State, a: Action, c: CallId)
    requires Inv(s) && Enabled(s, a) && Acts(a, c)
    ensures CallInv(Step(s, a), c)
  {
    if !a.Begin? { assert CallInv(s, c); }
    if a.Write? {
      var k := s.calls[c];
      var upto := k.phase.written + a.count;
      assert k.contents[..k.phase.written] + k.contents[k.phase.written..upto] == k.contents[..upto];
    }
  }

  /** Other calls have other temporary names, hence other files. */
  lemma WaitingCall(s: State, a: Action, c: CallId)
    requires Inv(s) && Enabled(s, a) && !a.PowerLoss? && !Acts(a, c) && c in Step(s, a).calls
    ensures CallInv(Step(s, a), c)
  {
    assert CallInv(s, c);
    if a.Create? || a.Write? || a.Sync? || a.Rename? || a.Fail? { assert CallInv(s, a.c); }
  }

  ghost predicate Distinct(s: State) {
    forall c, d :: c in s.calls && d in s.calls && c != d && Live(s.calls[c]) && Live(s.calls[d]) ==>
      TempOf(s.calls[c]) != TempOf(s.calls[d])
  }

  lemma LossKeepsInv(s: State, k: nat, left: map<Name, InodeId>, torn: map<InodeId, Bytes>)
    requires Inv(s) && MayLeave(s, k, left, torn)
    ensures Inv(Left(s, k, left, torn))
    ensures Visible(Left(s, k, left, torn)) == Version(s, k)
  {
    var s' := Left(s, k, left, torn);
    forall j | 0 <= j <= k ensures LinkHolds(s', j) && s'.links[j] == s.links[j] {
      assert LinkHolds(s, j) && Version(s', j) == Version(s, j);
    }
  }

  lemma StepKeepsInv(s: State, a: Action)
    requires Inv(s) && Enabled(s, a)
    ensures Inv(Step(s, a))
  {
    if a.PowerLoss? {
      LossKeepsInv(s, a.k, a.left, a.torn);
    } else {
      OtherStepKeepsInv(s, a);
    }
  }

  lemma StepKeepsWriters(s: State, a: Action)
    requires Inv(s) && Enabled(s, a) && !a.PowerLoss?
    ensures WritersInv(Step(s, a))
  {}

  lemma StepKeepsDistinct(s: State, a: Action)
    requires Inv(s) && Enabled(s, a) && !a.PowerLoss?
    ensures Distinct(Step(s, a))
  {
    if a.Begin? {
      forall c | c in s.calls && Live(s.calls[c]) ensures s.calls[c].counter < Counter(s, s.calls[c].pid) {
        assert CallInv(s, c);
      }
    }
  }

  lemma OtherStepKeepsInv(s: State, a: Action)
    requires Inv(s) && Enabled(s, a) && !a.PowerLoss?
    ensures Inv(Step(s, a))
  {
    StepKeepsWriters(s, a);
    StepKeepsDistinct(s, a);
    StepKeepsNames(s, a);
    StepKeepsLinks(s, a);
    forall c | c in Step(s, a).calls ensures CallInv(Step(s, a), c) {
      if Acts(a, c) { ActingCall(s, a, c); } else { WaitingCall(s, a, c); }
    }
  }

  predicate Runs(s: State, acts: seq<Action>)
    decreases acts
  {
    acts == [] || (Enabled(s, acts[0]) && Runs(Step(s, acts[0]), acts[1..]))
  }

  function Run(s: State, acts: seq<Action>): State
    requires Runs(s, acts)
    decreases acts
  {
    if acts == [] then s else Run(Step(s, acts[0]), acts[1..])
  }

  lemma {:induction false} RunKeepsInv(s: State, acts: seq<Action>)
    requires Inv(s) && Runs(s, acts)
    ensures Inv(Run(s, acts)) && Run(s, acts).initial == s.initial
    decreases acts
  {
    if acts != [] {
      StepKeepsInv(s, acts[0]);
      RunKeepsInv(Step(s, acts[0]), acts[1..]);
    }
  }

  lemma OutcomesAreVersions(s: State, out: Option<Bytes>)
    requires Inv(s)
    ensures AfterPowerLoss(s, out) <==> exists k: nat :: s.safe <= k <= |s.bodies| && out == Version(s, k)
  {
    forall k: nat | k < |s.links| ensures LinkHolds(s, k) {}
    if k: nat :| s.safe <= k <= |s.bodies| && out == Version(s, k) {
      assert LinkHolds(s, k) && k < |s.links|;
    }
    if AfterPowerLoss(s, out) {
      var k: nat :| s.safe <= k < |s.links| &&
        match s.links[k]
        case None => out == None
        case Some(i) => out.Some? && (i in s.inodes && s.inodes[i].durable ==> out.value == s.inodes[i].data);
      assert LinkHolds(s, k) && out == Version(s, k);
    }
  }

  /** After any run a power loss leaves the initial contents or the complete contents of one call that renamed, never
      older than the last version made durable; and each of these may be what it leaves. */
  lemma PowerLossSafe(file: Option<Bytes>, acts: seq<Action>, out: Option<Bytes>)
    requires Runs(Initial(file), acts)
    ensures var s := Run(Initial(file), acts);
      && s.initial == file && s.safe <= |s.bodies|
      && (AfterPowerLoss(s, out) <==> exists k: nat :: s.safe <= k <= |s.bodies| && out == Version(s, k))
  {
    InitialInv(file);
    RunKeepsInv(Initial(file), acts);
    OutcomesAreVersions(Run(Initial(file), acts), out);
  }

  // ---- which successes survive ----

  /** Some directory sync in the run reaches the disk, whichever call it belongs to. */
  predicate SyncsDir(acts: seq<Action>) {
    exists i :: 0 <= i < |acts| && acts[i].SyncDir? && acts[i].synced
  }

  predicate PowerStays(acts: seq<Action>) {
    forall i :: 0 <= i < |acts| ==> !acts[i].PowerLoss?
  }

  /** What is durable stays through any later run, whatever power losses it has. */
  lemma {:induction false} DurableForEver(s: State, acts: seq<Action>)
    requires Inv(s) && Runs(s, acts)
    ensures var s' := Run(s, acts);
      s.safe <= s'.safe <= |s'.bodies| && s.bodies[..s.safe] <= s'.bodies && s'.initial == s.initial
    decreases acts
  {
    if acts != [] {
      StepKeepsInv(s, acts[0]);
      DurableForEver(Step(s, acts[0]), acts[1..]);
      RunKeepsInv(s, acts);
      assert s.bodies[..s.safe] <= Step(s, acts[0]).bodies[..Step(s, acts[0]).safe];
    }
  }

  lemma SafeStep(s: State, a: Action)
    requires Inv(s) && Enabled(s, a) && !a.PowerLoss?
    ensures var s' := Step(s, a);
      && Inv(s') && s.bodies <= s'.bodies && s'.initial == s.initial && s.safe <= |s.bodies|
      && s'.safe == if a.SyncDir? && a.synced then |s.bodies| else s.safe
  {
    OtherStepKeepsInv(s, a);
  }

  lemma SyncsDirStep(acts: seq<Action>)
    requires acts != []
    ensures SyncsDir(acts) <==> (acts[0].SyncDir? && acts[0].synced) || SyncsDir(acts[1..])
  {
    var rest := acts[1..];
    if SyncsDir(rest) {
      var i :| 0 <= i < |rest| && rest[i].SyncDir? && rest[i].synced;
      assert acts[i + 1] == rest[i];
    }
    if SyncsDir(acts) {
      var i :| 0 <= i < |acts| && acts[i].SyncDir? && acts[i].synced;
      assert i > 0 ==> rest[i - 1] == acts[i];
    }
  }

  /** While power stays on, a directory sync makes every rename before it durable; nothing else does. */
  lemma {:induction false} SafeAfter(s: State, acts: seq<Action>)
    requires Inv(s) && Runs(s, acts) && PowerStays(acts)
    ensures var s' := Run(s, acts);
      && s.bodies <= s'.bodies && s'.initial == s.initial && s.safe <= s'.safe
      && if SyncsDir(acts) then s'.safe >= |s.bodies| else s'.safe == s.safe
    decreases acts
  {
    if acts != [] {
      assert PowerStays(acts[1..]) by { assert forall i :: 0 <= i < |acts| - 1 ==> acts[1..][i] == acts[i + 1]; }
      SafeStep(s, acts[0]);
      SyncsDirStep(acts);
      SafeAfter(Step(s, acts[0]), acts[1..]);
    }
  }

  /** The contents of version `k` are installed again by version `v` or a later one. */
  predicate Recurs(s: State, k: nat, v: nat)
    requires k <= |s.bodies|
  {
    exists j: nat :: v <= j <= |s.bodies| && Version(s, j) == Version(s, k)
  }

  /** Whatever a power loss leaves is the contents of version `v` or a later one. */
  ghost predicate Survives(s: State, v: nat) {
    forall out :: AfterPowerLoss(s, out) ==> exists k: nat :: v <= k <= |s.bodies| && out == Version(s, k)
  }

  /** Every version that may still come back, from `from` on, has been installed again by version `v` or later. */
  predicate AllRecur(s: State, from: nat, v: nat) {
    forall k: nat :: from <= k < v && k <= |s.bodies| ==> Recurs(s, k, v)
  }

  lemma SurvivesIff(s: State, v: nat)
    requires Inv(s)
    ensures Survives(s, v) <==> AllRecur(s, s.safe, v)
  {
    if Survives(s, v) {
      forall k: nat | s.safe <= k < v && k <= |s.bodies| ensures Recurs(s, k, v) {
        OutcomesAreVersions(s, Version(s, k));
      }
    }
    if AllRecur(s, s.safe, v) {
      forall out | AfterPowerLoss(s, out) ensures exists k: nat :: v <= k <= |s.bodies| && out == Version(s, k) {
        OutcomesAreVersions(s, out);
        var k: nat :| s.safe <= k <= |s.bodies| && out == Version(s, k);
        if k < v { assert Recurs(s, k, v); }
      }
    }
  }

  lemma LaterVersions(s0: State, c: CallId, later: seq<Action>)
    requires Inv(s0) && Enabled(s0, Rename(c)) && Runs(Step(s0, Rename(c)), later)
    requires PowerStays(later)
    ensures var s, v := Run(Step(s0, Rename(c)), later), |s0.bodies| + 1;
      && Inv(s) && v <= |s.bodies| && Version(s, v) == Some(s0.calls[c].contents)
      && if SyncsDir(later) then s.safe >= v else s.safe == s0.safe
  {
    var s1 := Step(s0, Rename(c));
    StepKeepsInv(s0, Rename(c));
    SafeAfter(s1, later);
    RunKeepsInv(s1, later);
    assert s1.bodies[|s0.bodies|] == s0.calls[c].contents;
  }

  ghost predicate DurableIff(s0: State, c: CallId, later: seq<Action>)
    requires Enabled(s0, Rename(c)) && Runs(Step(s0, Rename(c)), later)
  {
    var s, v := Run(Step(s0, Rename(c)), later), |s0.bodies| + 1;
    && v <= |s.bodies| && Version(s, v) == Some(s0.calls[c].contents)
    && (Survives(s, v) <==> SyncsDir(later) || AllRecur(s, s0.safe, v))
  }

  lemma DurableFrom(s0: State, c: CallId, later: seq<Action>)
    requires Inv(s0) && Enabled(s0, Rename(c)) && Runs(Step(s0, Rename(c)), later) && PowerStays(later)
    ensures DurableIff(s0, c, later)
  {
    LaterVersions(s0, c, later);
    SurvivesIff(Run(Step(s0, Rename(c)), later), |s0.bodies| + 1);
  }

  /** The rename of a call, at any point of any run, survives the next power loss, whenever that comes, exactly when
      some directory sync since then reached the disk, its own or another call's, or every older version that may
      still come back has been installed again. What the call returned does not enter. */
  lemma SuccessIsDurableIffDirSynced(file: Option<Bytes>, before: seq<Action>, c: CallId, later: seq<Action>)
    requires Runs(Initial(file), before) && Enabled(Run(Initial(file), before), Rename(c))
    requires Runs(Step(Run(Initial(file), before), Rename(c)), later) && PowerStays(later)
    ensures DurableIff(Run(Initial(file), before), c, later)
  {
    InitialInv(file);
    RunKeepsInv(Initial(file), before);
    DurableFrom(Run(Initial(file), before), c, later);
  }

  lemma SyncedFrom(s0: State, c: CallId, later: seq<Action>, further: seq<Action>)
    requires Inv(s0) && Enabled(s0, Rename(c)) && Runs(Step(s0, Rename(c)), later)
    requires PowerStays(later) && SyncsDir(later) && Runs(Run(Step(s0, Rename(c)), later), further)
    ensures DurableAt(Run(Run(Step(s0, Rename(c)), later), further), |s0.bodies| + 1, s0.calls[c].contents)
  {
    LaterVersions(s0, c, later);
    var mid, v := Run(Step(s0, Rename(c)), later), |s0.bodies| + 1;
    DurableForEver(mid, further);
    RunKeepsInv(mid, further);
    assert Run(mid, further).bodies[v - 1] == mid.bodies[..mid.safe][v - 1];
    SurvivesIff(Run(mid, further), v);
  }

  /** Version `v` has these contents, and a power loss leaves nothing older. */
  ghost predicate DurableAt(s: State, v: nat, contents: Bytes) {
    v <= s.safe <= |s.bodies| && Version(s, v) == Some(contents) && Survives(s, v)
  }

  /** Once such a sync has reached the disk, the rename survives every power loss of every further run. */
  lemma SyncedSurvivesAll(file: Option<Bytes>, before: seq<Action>, c: CallId, later: seq<Action>, further: seq<Action>)
    requires Runs(Initial(file), before) && Enabled(Run(Initial(file), before), Rename(c))
    requires Runs(Step(Run(Initial(file), before), Rename(c)), later) && PowerStays(later) && SyncsDir(later)
    requires Runs(Run(Step(Run(Initial(file), before), Rename(c)), later), further)
    ensures var s0 := Run(Initial(file), before);
      DurableAt(Run(Run(Step(s0, Rename(c)), later), further), |s0.bodies| + 1, s0.calls[c].contents)
  {
    InitialInv(file);
    RunKeepsInv(Initial(file), before);
    SyncedFrom(Run(Initial(file), before), c, later, further);
  }

  ghost predicate LossShows(s: State, k: nat, left: map<Name, InodeId>, torn: map<InodeId, Bytes>, out: Option<Bytes>) {
    && MayLeave(s, k, left, torn)
    && var s' := Left(s, k, left, torn);
      (Target in s'.names ==> s'.names[Target] in s'.inodes) && Visible(s') == out
  }

  /** Losing power is having one of those outcomes on the disk. */
  lemma LossShowsOutcome(s: State, out: Option<Bytes>)
    requires Inv(s)
    ensures AfterPowerLoss(s, out) <==> exists k, left, torn :: LossShows(s, k, left, torn, out)
  {
    OutcomesAreVersions(s, out);
    if k, left, torn :| LossShows(s, k, left, torn, out) {
      LossKeepsInv(s, k, left, torn);
    }
    if AfterPowerLoss(s, out) {
      var k: nat :| s.safe <= k <= |s.bodies| && out == Version(s, k);
      LossKeepsInv(s, k, map[], map[]);
      assert LossShows(s, k, map[], map[], out);
    }
  }

  /** At any point a process may die, and power may be lost with any of the temporary files of the moment left and any
      bytes in place of a body that is not durable. */
  lemma DisasterAnyTime(s: State, pid: Pid, k: nat, left: map<Name, InodeId>, torn: map<InodeId, Bytes>)
    requires Inv(s) && s.safe <= k <= |s.bodies|
    requires forall n :: n in left ==> n.Temp? && n in s.names && left[n] == s.names[n]
    requires forall i :: i in torn ==> i in s.inodes && !s.inodes[i].durable
    ensures Enabled(s, Die(pid)) && Enabled(s, PowerLoss(k, left, torn))
  {
    forall n | n in left ensures Some(left[n]) !in s.links[..k + 1] {
      forall j | 0 <= j <= k ensures s.links[j] != Some(left[n]) {}
    }
  }

  /** A call that has not returned can always go on: create, write the rest, sync, rename, sync the directory. */
  lemma CallCanAdvance(s: State, c: CallId, unused: InodeId)
    requires Inv(s) && c in s.calls && Live(s.calls[c]) && unused !in s.inodes
    ensures exists a :: Enabled(s, a) && Acts(a, c) && !a.Fail? && !a.Begin?
  {
    assert CallInv(s, c);
    var k := s.calls[c];
    match k.phase
    case Creating =>
      var inode := if TempOf(k) in s.names then s.names[TempOf(k)] else unused;
      assert Enabled(s, Create(c, inode));
    case Writing(_, n) =>
      if n == |k.contents| { assert Enabled(s, Sync(c)); } else { assert Enabled(s, Write(c, |k.contents| - n)); }
    case Renaming(_) => assert Enabled(s, Rename(c));
    case SyncingDir => assert Enabled(s, SyncDir(c, true));
  }

  /** While power stays on, readers see exactly what the last rename installed. */
  lemma ReadersSeeLastRename(file: Option<Bytes>, acts: seq<Action>)
    requires Runs(Initial(file), acts)
    ensures var s := Run(Initial(file), acts);
      && (Target in s.names ==> s.names[Target] in s.inodes)
      && Visible(s) == if s.bodies == [] then file else Some(s.bodies[|s.bodies| - 1])
  {
    InitialInv(file);
    RunKeepsInv(Initial(file), acts);
    var s := Run(Initial(file), acts);
    assert LinkHolds(s, |s.bodies|);
  }

  /** Only a rename changes what readers of the target see, and what they may see after a power loss. */
  lemma OnlyRenameChangesTarget(s: State, a: Action)
    requires Inv(s) && Enabled(s, a) && !a.Rename? && !a.PowerLoss?
    ensures Step(s, a).links == s.links && Inv(Step(s, a)) && Visible(Step(s, a)) == Visible(s)
    ensures forall out :: AfterPowerLoss(Step(s, a), out) ==> AfterPowerLoss(s, out)
  {
    StepKeepsInv(s, a);
    var s' := Step(s, a);
    assert LinkHolds(s, |s.bodies|) && LinkHolds(s', |s.bodies|);
    forall out | AfterPowerLoss(s', out) ensures AfterPowerLoss(s, out) {
      var k: nat :| s'.safe <= k < |s'.links| &&
        match s'.links[k]
        case None => out == None
        case Some(i) => out.Some? && (i in s'.inodes && s'.inodes[i].durable ==> out.value == s'.inodes[i].data);
      assert LinkHolds(s, k) && LinkHolds(s', k);
    }
  }

  /** A call that returned an error never renamed; a call that returned success renamed exactly once and
      installed exactly its contents. */
  lemma ResultTellsWhetherWritten(file: Option<Bytes>, acts: seq<Action>, c: CallId)
    requires Runs(Initial(file), acts) && c in Run(Initial(file), acts).calls
    requires Run(Initial(file), acts).calls[c].phase.Returned?
    ensures var s := Run(Initial(file), acts);
      if s.calls[c].phase.ok
      then |s.writers| == |s.bodies| && exists i :: WroteOnceAt(s, c, i)
      else c !in s.writers
  {
    InitialInv(file);
    RunKeepsInv(Initial(file), acts);
    var s := Run(Initial(file), acts);
    assert CallInv(s, c);
    if s.calls[c].phase.ok {
      var i :| 0 <= i < |s.writers| && s.writers[i] == c;
      assert WroteOnceAt(s, c, i);
    }
  }

  ghost predicate WroteOnceAt(s: State, c: CallId, i: nat)
    requires c in s.calls && |s.writers| == |s.bodies|
  {
    && i < |s.writers| && s.writers[i] == c && s.bodies[i] == s.calls[c].contents
    && forall j :: 0 <= j < |s.writers| && j != i ==> s.writers[j] != c
  }

  /** One call on its own, with the directory sync at the end reaching the disk or not. */
  function OneCall(contents: Bytes, synced: bool): seq<Action> {
    [Begin(0, 1, contents), Create(0, 1), Write(0, |contents|), Sync(0), Rename(0), SyncDir(0, synced)]
  }

  lemma Prepend(s: State, a: Action, rest: seq<Action>)
    requires Enabled(s, a) && Runs(Step(s, a), rest)
    ensures Runs(s, [a] + rest) && Run(s, [a] + rest) == Run(Step(s, a), rest)
  {
    assert ([a] + rest)[1..] == rest;
  }

  /** The state of a lone call once its temporary file is written and synced. */
  function Prepared(file: Option<Bytes>, contents: Bytes): State {
    Initial(file).(names := Initial(file).names[Temp(1, 0) := 1],
                   inodes := Initial(file).inodes[1 := Inode(contents, true)],
                   counters := map[1 := 1], calls := map[0 := Call(1, 0, contents, Renaming(1))])
  }

  /** The states on the way there. */
  function Begun(file: Option<Bytes>, contents: Bytes): State {
    Initial(file).(counters := map[1 := 1], calls := map[0 := Call(1, 0, contents, Creating)])
  }

  function Unsynced(file: Option<Bytes>, contents: Bytes, written: nat): State
    requires written <= |contents|
  {
    Prepared(file, contents).(inodes := Initial(file).inodes[1 := Inode(contents[..written], false)],
                              calls := map[0 := Call(1, 0, contents, Writing(1, written))])
  }

  lemma PrepareSteps(file: Option<Bytes>, contents: Bytes)
    ensures Enabled(Initial(file), Begin(0, 1, contents))
    ensures Step(Initial(file), Begin(0, 1, contents)) == Begun(file, contents)
    ensures Enabled(Begun(file, contents), Create(0, 1))
    ensures Step(Begun(file, contents), Create(0, 1)) == Unsynced(file, contents, 0)
  {}

  lemma WriteSteps(file: Option<Bytes>, contents: Bytes)
    ensures Enabled(Unsynced(file, contents, 0), Write(0, |contents|))
    ensures Step(Unsynced(file, contents, 0), Write(0, |contents|)) == Unsynced(file, contents, |contents|)
    ensures Enabled(Unsynced(file, contents, |contents|), Sync(0))
    ensures Step(Unsynced(file, contents, |contents|), Sync(0)) == Prepared(file, contents)
  {
    assert contents[..0] + contents[0..|contents|] == contents == contents[..|contents|];
  }

  lemma PrepareRuns(file: Option<Bytes>, contents: Bytes, rest: seq<Action>)
    requires Runs(Prepared(file, contents), rest)
    ensures var acts := [Begin(0, 1, contents)] + ([Create(0, 1)] + ([Write(0, |contents|)] + ([Sync(0)] + rest)));
      Runs(Initial(file), acts) && Run(Initial(file), acts) == Run(Prepared(file, contents), rest)
  {
    PrepareSteps(file, contents);
    WriteSteps(file, contents);
    Prepend(Unsynced(file, contents, |contents|), Sync(0), rest);
    Prepend(Unsynced(file, contents, 0), Write(0, |contents|), [Sync(0)] + rest);
    Prepend(Begun(file, contents), Create(0, 1), [Write(0, |contents|)] + ([Sync(0)] + rest));
    Prepend(Initial(file), Begin(0, 1, contents), [Create(0, 1)] + ([Write(0, |contents|)] + ([Sync(0)] + rest)));
  }

  lemma OneCallRuns(file: Option<Bytes>, contents: Bytes, synced: bool)
    ensures Runs(Initial(file), OneCall(contents, synced))
    ensures var s := Run(Initial(file), OneCall(contents, synced));
      && 0 in s.calls && s.calls[0].phase == Returned(true)
      && s.links == Initial(file).links + [Some(1)] && s.safe == (if synced then 1 else 0)
      && s.inodes == Initial(file).inodes[1 := Inode(contents, true)]
  {
    var s4 := Prepared(file, contents);
    var rest := [Rename(0)] + [SyncDir(0, synced)];
    Prepend(Step(s4, Rename(0)), SyncDir(0, synced), []);
    Prepend(s4, Rename(0), [SyncDir(0, synced)]);
    PrepareRuns(file, contents, rest);
    assert OneCall(contents, synced)
      == [Begin(0, 1, contents)] + ([Create(0, 1)] + ([Write(0, |contents|)] + ([Sync(0)] + rest)));
  }

  /** Such a run exists: a lone call reports success whether or not its directory sync worked, and survives exactly
      when it worked or nothing was changed. */
  lemma LoneSuccessIsDurableIffDirSynced(file: Option<Bytes>, contents: Bytes, synced: bool)
    ensures Runs(Initial(file), OneCall(contents, synced))
    ensures var s := Run(Initial(file), OneCall(contents, synced));
      && 0 in s.calls && s.calls[0].phase == Returned(true)
      && ((forall out :: AfterPowerLoss(s, out) ==> out == Some(contents)) <==> synced || file == Some(contents))
  {
    OneCallRuns(file, contents, synced);
    var s := Run(Initial(file), OneCall(contents, synced));
    if !synced {
      assert s.links[0] == Initial(file).links[0];
      assert AfterPowerLoss(s, file);
    }
  }

  // ---- temporary names ----

  function TempName(file: string, pid: nat, counter: nat): string {
    "." + file + ".tmp." + Decimal.Render(pid) + "." + Decimal.Render(counter)
  }

  predicate NoDot(s: string) {
    forall i :: 0 <= i < |s| ==> s[i] != '.'
  }

  /** The part after the last dot is determined by the whole. */
  lemma SplitAtLastDot(x: string, d: string, y: string, e: string)
    requires x + "." + d == y + "." + e && NoDot(d) && NoDot(e)
    ensures x == y && d == e
  {
    var s, t := x + "." + d, y + "." + e;
    assert s[|x|] == '.' && t[|y|] == '.';
    forall j | |x| < j < |s| ensures s[j] != '.' { assert s[j] == d[j - |x| - 1]; }
    forall j | |y| < j < |t| ensures t[j] != '.' { assert t[j] == e[j - |y| - 1]; }
    assert x == s[..|x|] && y == t[..|y|] && d == s[|x| + 1..] && e == t[|y| + 1..];
  }

  /** Temporary names of different targets, processes or calls differ, and none is its target. */
  lemma TempNamesDiffer(f: string, p: nat, c: nat, g: string, q: nat, d: nat)
    ensures TempName(f, p, c) == TempName(g, q, d) ==> f == g && p == q && c == d
    ensures TempName(f, p, c) != f
  {
    assert |TempName(f, p, c)| > |f|;
    if TempName(f, p, c) == TempName(g, q, d) {
      SplitAtLastDot("." + f + ".tmp." + Decimal.Render(p), Decimal.Render(c),
                     "." + g + ".tmp." + Decimal.Render(q), Decimal.Render(d));
      assert ("." + f + ".tmp") + "." == "." + f + ".tmp." && ("." + g + ".tmp") + "." == "." + g + ".tmp.";
      SplitAtLastDot("." + f + ".tmp", Decimal.Render(p), "." + g + ".tmp", Decimal.Render(q));
      Decimal.RenderInjective(p, q);
      Decimal.RenderInjective(c, d);
      assert f == ("." + f + ".tmp")[1..|f| + 1] && g == ("." + g + ".tmp")[1..|g| + 1];
    }
  }

  // ---- the method ----

  /** Which fallible operations succeed, and how many bytes reach the file before a failing write. */
  datatype Io = Io(createOk: bool, writeOk: bool, reached: nat, syncOk: bool, renameOk: bool, removeOk: bool)

  /** One directory, used by one process. */
  class Directory {
    var files: map<string, Inode>
    var tmpCounter: nat
    const pid: nat

    constructor (pid: nat)
      ensures this.pid == pid && files == map[] && tmpCounter == 0
    {
      this.pid, files, tmpCounter := pid, map[], 0;
    }

    method RemoveFile(name: string, works: bool)
      modifies this`files
      ensures files == if works then old(files) - {name} else old(files)
    {
      if works { files := files - {name}; }
    }

    /** `write_all` on a freshly created file: all bytes, or those that were reached before the error. */
    method WriteAll(name: string, contents: Bytes, io: Io) returns (ok: bool)
      requires name in files && files[name].data == []
      modifies this`files
      ensures name in files && files - {name} == old(files) - {name}
      ensures ok == io.writeOk && (ok ==> files[name].data == contents)
      ensures files[name].data <= contents
    {
      var written := 0;
      while written < |contents| && (io.writeOk || written < io.reached)
        invariant written <= |contents|
        invariant name in files && files - {name} == old(files) - {name}
        invariant files[name].data == contents[..written]
      {
        files := files[name := Inode(files[name].data + [contents[written]], false)];
        written := written + 1;
      }
      return io.writeOk;
    }

    /** `atomic_write` in this directory; `None` stands for a path without a file name. */
    method AtomicWrite(file: Option<string>, contents: Bytes, io: Io) returns (ok: bool)
      modifies this
      ensures ok <==> file.Some? && io.createOk && io.writeOk && io.syncOk && io.renameOk
      ensures file.None? ==> files == old(files) && tmpCounter == old(tmpCounter)
      ensures file.Some? ==>
        var tmp := TempName(file.value, pid, old(tmpCounter));
        && tmp != file.value && tmpCounter == old(tmpCounter) + 1
        && (ok ==> files == (old(files) - {tmp})[file.value := Inode(contents, true)])
        && (!ok ==> files - {tmp} == old(files) - {tmp} && (io.removeOk ==> tmp !in files))
    {
      if file.None? { return false; }
      var tmp := TempName(file.value, pid, tmpCounter);
      TempNamesDiffer(file.value, pid, tmpCounter, "", 0, 0);
      tmpCounter := tmpCounter + 1;
      var written := false;
      if io.createOk {
        files := files[tmp := Inode([], false)];
        assert files - {tmp} == old(files) - {tmp};
        written := WriteAll(tmp, contents, io);
        if written && io.syncOk {
          ghost var others := files - {tmp};
          files := files[tmp := files[tmp].(durable := true)];
          assert files - {tmp} == others;
        }
      }
      assert files - {tmp} == old(files) - {tmp};
      if !written || !io.syncOk || !io.renameOk {
        RemoveFile(tmp, io.removeOk);
        assert files - {tmp} == old(files) - {tmp};
        return false;
      }
      files := (files - {tmp})[file.value := files[tmp]];
      return true;
    }
  }
}
