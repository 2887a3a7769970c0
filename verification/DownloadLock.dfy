/**
 lock.sh: any number of processes that want the same file, with flock present.

 A lock is held on an inode, not on a path. The holder unlinks the lock path before it lets go of the lock, so two
 processes may hold locks on two different inodes that were both once called `$finalfile.lock`.
 */
module DownloadLock {
  import opened Wrappers

  type Pid = nat
  type Inode = nat

  /** What a file holds. */
  type Content = seq<nat>

  datatype Phase =
    | Touched                               // `touch` is done
    | Opened                                // `exec {FD}<>` is done; waiting in flock
    | Locked                                // flock is done; about to look for the final file
    | Working(written: Option<Content>)     // the recipe body; None until it has created $outfile
    | Succeeded                             // finish, rv = 0, before the mv
    | Failed                                // finish, rv != 0, before the first rm
    | Swept                                 // rv != 0, $outfile removed
    | Unlinking(ok: bool)                   // before `rm -rf "$lockfile"`
    | Leaving                               // holds the lock until the process ends

  datatype Proc = Proc(phase: Phase, inode: Inode)     // `inode` means nothing in Touched

  datatype State = State(
    procs: map<Pid, Proc>,
    path: Option<Inode>,                    // what $lockfile names
    owner: map<Inode, Pid>,                 // the exclusive flocks
    tmp: Option<Content>,                   // $outfile
    final: Option<Content>,                 // $finalfile
    nextInode: Inode,                       // inodes below this one have been the lock path at some time
    outputs: set<Content>,                  // complete outputs of the bodies that exited with 0
    removals: nat)                          // completed `rm` of the lock path

  /** Which contents the last command of the recipe accepts, e.g. checkhash.sh. */
  type Gate = Content -> bool

  datatype Step =
    | Touch(p: Pid)
    | Open(p: Pid)
    | Flock(p: Pid)
    | FlockError(p: Pid)
    | Look(p: Pid)
    | Begin(p: Pid)                         // the body creates or truncates $outfile
    | Append(p: Pid, chunk: Content)
    | Exit(p: Pid, ok: bool)                // the body ends and the trap runs
    | Move(p: Pid)
    | Sweep(p: Pid)                         // rm $outfile
    | SweepFinal(p: Pid)                    // rm $finalfile
    | Unlink(p: Pid)
    | Leave(p: Pid)
    | Kill(p: Pid)                          // the process group dies at once; no trap runs

  predicate InPhase(s: State, p: Pid, f: Phase) {
    p in s.procs && s.procs[p].phase == f
  }

  predicate IsWorking(s: State, p: Pid) {
    p in s.procs && s.procs[p].phase.Working?
  }

  predicate Enabled(gate: Gate, s: State, step: Step) {
    match step
    case Touch(p) => p !in s.procs
    case Open(p) => InPhase(s, p, Touched)
    case Flock(p) => InPhase(s, p, Opened) && s.procs[p].inode !in s.owner
    case FlockError(p) => InPhase(s, p, Opened)
    case Look(p) => InPhase(s, p, Locked)
    case Begin(p) => IsWorking(s, p) && s.procs[p].phase.written.None?
    case Append(p, _) => IsWorking(s, p) && s.procs[p].phase.written.Some?
    case Exit(p, ok) =>
      IsWorking(s, p) && (ok ==> s.procs[p].phase.written.Some? && s.tmp.Some? && gate(s.tmp.value))
    case Move(p) => InPhase(s, p, Succeeded)
    case Sweep(p) => InPhase(s, p, Failed)
    case SweepFinal(p) => InPhase(s, p, Swept)
    case Unlink(p) => p in s.procs && s.procs[p].phase.Unlinking?
    case Leave(p) => InPhase(s, p, Leaving)
    case Kill(p) => p in s.procs
  }

  function At(s: State, p: Pid, f: Phase): State
    requires p in s.procs
  {
    s.(procs := s.procs[p := s.procs[p].(phase := f)])
  }

  /** The process ends: its file descriptor is closed, and with it goes its lock. */
  function End(s: State, p: Pid): State
    requires p in s.procs
  {
    s.(procs := s.procs - {p}, owner := map i | i in s.owner && s.owner[i] != p :: s.owner[i])
  }

  /** `touch` and `<>` both create the lock file when the path names none. */
  function Create(s: State): (s': State)
    ensures s'.path.Some?
  {
    if s.path.Some? then s else s.(path := Some(s.nextInode), nextInode := s.nextInode + 1)
  }

  function Apply(gate: Gate, s: State, step: Step): State
    requires Enabled(gate, s, step)
  {
    match step
    case Touch(p) => var t := Create(s); t.(procs := t.procs[p := Proc(Touched, 0)])
    case Open(p) => var t := Create(s); t.(procs := t.procs[p := Proc(Opened, t.path.value)])
    case Flock(p) => At(s, p, Locked).(owner := s.owner[s.procs[p].inode := p])
    case FlockError(p) => End(s, p)
    case Look(p) => if s.final.Some? then At(s, p, Leaving) else At(s, p, Working(None))
    case Begin(p) => At(s, p, Working(Some([]))).(tmp := Some([]))
    case Append(p, chunk) =>
      var written := s.procs[p].phase.written.value;
      At(s, p, Working(Some(written + chunk))).(tmp := Some((if s.tmp.Some? then s.tmp.value else []) + chunk))
    case Exit(p, ok) =>
      if ok then At(s, p, Succeeded).(outputs := s.outputs + {s.procs[p].phase.written.value}) else At(s, p, Failed)
    case Move(p) =>
      // errexit is on inside the trap: without $outfile the mv fails and nothing else of finish runs
      if s.tmp.Some? then At(s, p, Unlinking(true)).(final := s.tmp, tmp := None) else At(s, p, Leaving)
    case Sweep(p) => At(s, p, Swept).(tmp := None)
    case SweepFinal(p) => At(s, p, Unlinking(false)).(final := None)
    case Unlink(p) => At(s, p, Leaving).(path := None, removals := s.removals + 1)
    case Leave(p) => End(s, p)
    case Kill(p) => End(s, p)
  }

  // ---------------------------------------------------------------- the invariant that needs no side condition

  predicate HasOpen(s: State, p: Pid) {
    p in s.procs && !s.procs[p].phase.Touched?
  }

  predicate HoldsLock(s: State, p: Pid) {
    HasOpen(s, p) && !s.procs[p].phase.Opened?
  }

  /** Between finding no final file and having unlinked the lock path. */
  predicate Critical(s: State, p: Pid) {
    HoldsLock(s, p) && !s.procs[p].phase.Locked? && !s.procs[p].phase.Leaving?
  }

  ghost predicate LockInv(s: State) {
    && (forall p :: HoldsLock(s, p) ==> s.procs[p].inode in s.owner && s.owner[s.procs[p].inode] == p)
    && (forall i :: i in s.owner ==> HoldsLock(s, s.owner[i]) && s.procs[s.owner[i]].inode == i)
    && (forall p :: HasOpen(s, p) ==> s.procs[p].inode < s.nextInode)
    && (s.path.Some? ==> s.path.value < s.nextInode)
    && s.nextInode <= s.removals + (if s.path.Some? then 1 else 0)
  }

  lemma EndKeepsLockInv(s: State, p: Pid)
    requires LockInv(s) && p in s.procs
    ensures LockInv(End(s, p))
  {
  }

  lemma OpenKeepsLockInv(gate: Gate, s: State, step: Step)
    requires LockInv(s) && Enabled(gate, s, step) && (step.Touch? || step.Open? || step.Flock?)
    ensures LockInv(Apply(gate, s, step))
  {
    var s' := Apply(gate, s, step);
    assert forall q :: HoldsLock(s, q) && q != step.p ==> HoldsLock(s', q) && s'.procs[q] == s.procs[q];
    assert forall q :: HoldsLock(s', q) && q != step.p ==> HoldsLock(s, q) && s'.procs[q] == s.procs[q];
  }

  /** A process that keeps its lock moves on; neither the locks nor the inode count change. */
  lemma MoveKeepsLockInv(s: State, s': State, p: Pid)
    requires LockInv(s) && HoldsLock(s, p) && HoldsLock(s', p)
    requires s'.procs == s.procs[p := s.procs[p].(phase := s'.procs[p].phase)]
    requires s'.owner == s.owner && s'.nextInode == s.nextInode
    requires (s'.path == s.path && s'.removals == s.removals) || (s'.path.None? && s'.removals == s.removals + 1)
    ensures LockInv(s')
  {
    assert forall q :: HoldsLock(s, q) <==> HoldsLock(s', q);
    assert forall q :: HasOpen(s, q) <==> HasOpen(s', q);
  }

  lemma StepKeepsLockInv(gate: Gate, s: State, step: Step)
    requires LockInv(s) && Enabled(gate, s, step)
    ensures LockInv(Apply(gate, s, step))
  {
    match step
    case Touch(_) => OpenKeepsLockInv(gate, s, step);
    case Open(_) => OpenKeepsLockInv(gate, s, step);
    case Flock(_) => OpenKeepsLockInv(gate, s, step);
    case FlockError(p) => EndKeepsLockInv(s, p);
    case Leave(p) => EndKeepsLockInv(s, p);
    case Kill(p) => EndKeepsLockInv(s, p);
    case _ => MoveKeepsLockInv(s, Apply(gate, s, step), step.p);
  }

  // ---------------------------------------------------------------- exclusion

  /** A failing holder is about to unlink the lock path while another process has its inode open. */
  ghost predicate Strands(s: State, step: Step) {
    step.Unlink? && InPhase(s, step.p, Unlinking(false)) &&
    exists q :: q != step.p && HasOpen(s, q) && s.procs[q].inode == s.procs[step.p].inode
  }

  /**
   Anyone who has an inode open and is not done either has the one that the path names, or will find the file.
   A process in its critical part has the named inode, and there is no final file until it has made one.
   */
  ghost predicate PathInv(s: State) {
    && (forall p :: HasOpen(s, p) && !InPhase(s, p, Leaving) ==> s.path == Some(s.procs[p].inode) || s.final.Some?)
    && (forall p :: Critical(s, p) ==> s.path == Some(s.procs[p].inode))
    && (forall p :: Critical(s, p) ==> (s.final.Some? <==> InPhase(s, p, Unlinking(true))))
  }

  predicate IsUnlinking(s: State, p: Pid) {
    p in s.procs && s.procs[p].phase.Unlinking?
  }

  /** The temporary file is what the working process has written, and the final file is a complete output. */
  ghost predicate ContentInv(gate: Gate, s: State) {
    && (forall p :: InPhase(s, p, Swept) || IsUnlinking(s, p) ==> s.tmp.None?)
    && (forall p :: IsWorking(s, p) && s.procs[p].phase.written.Some? ==> s.tmp == s.procs[p].phase.written)
    && (forall p :: InPhase(s, p, Succeeded) ==> s.tmp.Some? && s.tmp.value in s.outputs)
    && (s.final.Some? ==> s.final.value in s.outputs)
    && (forall c :: c in s.outputs ==> gate(c))
  }

  ghost predicate ExclusionInv(gate: Gate, s: State) {
    LockInv(s) && PathInv(s) && ContentInv(gate, s)
  }

  /** Mutual exclusion of the critical part. */
  lemma AtMostOneCritical(s: State, p: Pid, q: Pid)
    requires LockInv(s) && PathInv(s) && Critical(s, p) && Critical(s, q)
    ensures p == q
  {
    assert s.owner[s.procs[p].inode] == p && s.owner[s.procs[q].inode] == q;
  }

  lemma EndKeepsPathInv(s: State, p: Pid)
    requires PathInv(s) && p in s.procs
    ensures PathInv(End(s, p))
  {
    var s' := End(s, p);
    assert forall q :: Critical(s', q) ==> Critical(s, q) && s'.procs[q] == s.procs[q];
    assert forall q :: InPhase(s', q, Unlinking(true)) <==> q != p && InPhase(s, q, Unlinking(true));
  }

  lemma OpenKeepsPathInv(gate: Gate, s: State, step: Step)
    requires LockInv(s) && PathInv(s) && Enabled(gate, s, step)
    requires step.Touch? || step.Open? || step.Flock? || step.Look?
    ensures PathInv(Apply(gate, s, step))
  {
    var s' := Apply(gate, s, step);
    assert forall q :: q != step.p && q in s'.procs ==> q in s.procs && s'.procs[q] == s.procs[q];
    assert forall q :: Critical(s', q) && q != step.p ==> Critical(s, q);
    assert forall q :: InPhase(s', q, Unlinking(true)) <==> q != step.p && InPhase(s, q, Unlinking(true));
    if step.Look? && s.final.None? {
      assert s.path == Some(s.procs[step.p].inode);
    }
  }

  /** A step of the body or of finish, up to the unlinking. */
  lemma WorkKeepsPathInv(gate: Gate, s: State, step: Step)
    requires LockInv(s) && PathInv(s) && Enabled(gate, s, step) && Critical(s, step.p)
    requires !step.Kill? && !step.Unlink?
    ensures PathInv(Apply(gate, s, step))
    ensures s.final.Some? ==> Apply(gate, s, step).final == s.final
  {
    var s' := Apply(gate, s, step);
    assert forall q :: Critical(s, q) ==> q == step.p by {
      forall q | Critical(s, q) ensures q == step.p { AtMostOneCritical(s, q, step.p); }
    }
    assert forall q :: q != step.p && q in s'.procs ==> q in s.procs && s'.procs[q] == s.procs[q];
  }

  lemma UnlinkKeepsPathInv(gate: Gate, s: State, step: Step)
    requires LockInv(s) && PathInv(s) && Enabled(gate, s, step) && step.Unlink? && !Strands(s, step)
    ensures PathInv(Apply(gate, s, step))
  {
    var p, s' := step.p, Apply(gate, s, step);
    assert Critical(s, p);
    assert forall q :: Critical(s, q) ==> q == p by {
      forall q | Critical(s, q) ensures q == p { AtMostOneCritical(s, q, p); }
    }
    forall q | HasOpen(s', q) && !InPhase(s', q, Leaving) ensures s'.final.Some? {
      assert q != p && HasOpen(s, q) && s.procs[q] == s'.procs[q];
      assert s.path == Some(s.procs[p].inode);
    }
  }

  lemma StepKeepsPathInv(gate: Gate, s: State, step: Step)
    requires LockInv(s) && PathInv(s) && Enabled(gate, s, step) && !Strands(s, step)
    ensures PathInv(Apply(gate, s, step))
    ensures s.final.Some? ==> Apply(gate, s, step).final == s.final
  {
    match step
    case FlockError(p) => EndKeepsPathInv(s, p);
    case Leave(p) => EndKeepsPathInv(s, p);
    case Kill(p) => EndKeepsPathInv(s, p);
    case Unlink(_) => UnlinkKeepsPathInv(gate, s, step);
    case Touch(_) => OpenKeepsPathInv(gate, s, step);
    case Open(_) => OpenKeepsPathInv(gate, s, step);
    case Flock(_) => OpenKeepsPathInv(gate, s, step);
    case Look(_) => OpenKeepsPathInv(gate, s, step);
    case _ => WorkKeepsPathInv(gate, s, step);
  }

  /** The process has something to do with $outfile. */
  predicate OnOutfile(s: State, p: Pid) {
    && p in s.procs
    && match s.procs[p].phase
       case Working(written) => written.Some?
       case Succeeded => true
       case Swept => true
       case Unlinking(_) => true
       case _ => false
  }

  lemma SameFilesKeepContentInv(gate: Gate, s: State, s': State)
    requires ContentInv(gate, s) && s'.tmp == s.tmp && s'.final == s.final && s'.outputs == s.outputs
    requires forall q :: OnOutfile(s', q) ==> OnOutfile(s, q) && s.procs[q].phase == s'.procs[q].phase
    ensures ContentInv(gate, s')
  {
    forall q | OnOutfile(s', q)
      ensures IsWorking(s', q) ==> s'.tmp == s'.procs[q].phase.written
      ensures InPhase(s', q, Succeeded) ==> s'.tmp.Some? && s'.tmp.value in s'.outputs
      ensures InPhase(s', q, Swept) || IsUnlinking(s', q) ==> s'.tmp.None?
    {
      assert IsWorking(s', q) ==> IsWorking(s, q);
      assert InPhase(s', q, Succeeded) ==> InPhase(s, q, Succeeded);
      assert InPhase(s', q, Swept) ==> InPhase(s, q, Swept);
      assert IsUnlinking(s', q) ==> IsUnlinking(s, q);
    }
    assert forall q :: IsWorking(s', q) && s'.procs[q].phase.written.Some? ==> OnOutfile(s', q);
    assert forall q :: InPhase(s', q, Succeeded) || InPhase(s', q, Swept) || IsUnlinking(s', q) ==> OnOutfile(s', q);
  }

  /** Steps that touch none of the files, and start no one writing. */
  lemma OtherStepsKeepContentInv(gate: Gate, s: State, step: Step)
    requires ContentInv(gate, s) && Enabled(gate, s, step)
    requires !step.Begin? && !step.Append? && !step.Exit? && !step.Move? && !step.Sweep? && !step.SweepFinal?
    ensures ContentInv(gate, Apply(gate, s, step))
  {
    SameFilesKeepContentInv(gate, s, Apply(gate, s, step));
  }

  lemma BodyKeepsContentInv(gate: Gate, s: State, step: Step)
    requires ExclusionInv(gate, s) && Enabled(gate, s, step)
    requires step.Begin? || step.Append? || step.Exit? || step.Move? || step.Sweep? || step.SweepFinal?
    ensures ContentInv(gate, Apply(gate, s, step))
  {
    var p, s' := step.p, Apply(gate, s, step);
    assert forall q :: q != p && q in s'.procs ==> q in s.procs && s'.procs[q] == s.procs[q];
    assert Critical(s, p);
    forall q | IsWorking(s', q) || InPhase(s', q, Succeeded) || InPhase(s', q, Swept) || IsUnlinking(s', q) ensures q == p {
      if q != p {
        assert Critical(s, q);
        AtMostOneCritical(s, q, p);
      }
    }
    assert step.Exit? && step.ok ==> InPhase(s', p, Succeeded) && s.tmp == s.procs[p].phase.written;
    assert step.Move? ==> InPhase(s, p, Succeeded);
  }

  lemma StepKeepsContentInv(gate: Gate, s: State, step: Step)
    requires ExclusionInv(gate, s) && Enabled(gate, s, step)
    ensures ContentInv(gate, Apply(gate, s, step))
  {
    if step.Begin? || step.Append? || step.Exit? || step.Move? || step.Sweep? || step.SweepFinal? {
      BodyKeepsContentInv(gate, s, step);
    } else {
      OtherStepsKeepContentInv(gate, s, step);
    }
  }

  /** Every step but a stranding one keeps the invariant, and leaves a final file alone. */
  lemma StepKeepsExclusion(gate: Gate, s: State, step: Step)
    requires ExclusionInv(gate, s) && Enabled(gate, s, step) && !Strands(s, step)
    ensures ExclusionInv(gate, Apply(gate, s, step))
    ensures s.final.Some? ==> Apply(gate, s, step).final == s.final
  {
    StepKeepsLockInv(gate, s, step);
    StepKeepsPathInv(gate, s, step);
    StepKeepsContentInv(gate, s, step);
  }

  /** Whoever is not in its critical part touches none of the files, except that it makes a lock file where there is none. */
  lemma OnlyCriticalTouchesFiles(gate: Gate, s: State, step: Step)
    requires Enabled(gate, s, step) && !Critical(s, step.p)
    ensures var s' := Apply(gate, s, step);
            && s'.final == s.final && s'.tmp == s.tmp && s'.removals == s.removals
            && (s.path.Some? ==> s'.path == s.path)
            && (Critical(s', step.p) ==> s.final.None?)
  {
  }

  /**
   A process that lives to leave its critical part leaves neither a lock file nor a temporary file behind, and a final
   file exactly if its download succeeded.
   */
  lemma LeavingCleansUp(gate: Gate, s: State, step: Step, p: Pid)
    requires ExclusionInv(gate, s) && Enabled(gate, s, step) && Critical(s, p)
    requires p in Apply(gate, s, step).procs && !Critical(Apply(gate, s, step), p)
    ensures var s' := Apply(gate, s, step);
            s'.path.None? && s'.tmp.None? && (s'.final.Some? <==> InPhase(s, p, Unlinking(true)))
  {
    assert step.p == p;
    assert step.Move? ==> InPhase(s, p, Succeeded);
    assert IsUnlinking(s, p);
  }

  // ---------------------------------------------------------------- all runs

  /** Nobody is running; an earlier process may have left a lock file, a partial file or a final file behind. */
  ghost predicate Init(gate: Gate, s: State) {
    && s.procs == map[] && s.owner == map[] && s.removals == 0
    && s.nextInode == (if s.path.Some? then 1 else 0) && (s.path.Some? ==> s.path.value == 0)
    && s.outputs == (if s.final.Some? then {s.final.value} else {})
    && (s.final.Some? ==> gate(s.final.value))
  }

  /** A stretch of a run: each state leads to the next. */
  ghost predicate IsStretch(gate: Gate, states: seq<State>, steps: seq<Step>) {
    && |states| == |steps| + 1
    && forall i :: 0 <= i < |steps| ==> Enabled(gate, states[i], steps[i]) && states[i + 1] == Apply(gate, states[i], steps[i])
  }

  ghost predicate IsRun(gate: Gate, states: seq<State>, steps: seq<Step>) {
    IsStretch(gate, states, steps) && Init(gate, states[0])
  }

  ghost predicate NeverStrands(states: seq<State>, steps: seq<Step>)
    requires |states| == |steps| + 1
  {
    forall i :: 0 <= i < |steps| ==> !Strands(states[i], steps[i])
  }

  lemma {:induction false} RunKeepsExclusion(gate: Gate, states: seq<State>, steps: seq<Step>, n: nat)
    requires IsRun(gate, states, steps) && NeverStrands(states, steps) && n < |states|
    ensures ExclusionInv(gate, states[n])
  {
    if n > 0 {
      RunKeepsExclusion(gate, states, steps, n - 1);
      StepKeepsExclusion(gate, states[n - 1], steps[n - 1]);
    }
  }

  /** Mutual exclusion: as long as no failing holder strands anyone, at most one process downloads at any time. */
  lemma DownloadsAreExclusive(gate: Gate, states: seq<State>, steps: seq<Step>, n: nat, p: Pid, q: Pid)
    requires IsRun(gate, states, steps) && NeverStrands(states, steps) && n < |states|
    requires Critical(states[n], p) && Critical(states[n], q)
    ensures p == q
  {
    RunKeepsExclusion(gate, states, steps, n);
    AtMostOneCritical(states[n], p, q);
  }

  /** The final file is always the complete, accepted output of one recipe body, and once there it stays as it is. */
  lemma {:induction false} FinalFileIsCompleteForever(gate: Gate, states: seq<State>, steps: seq<Step>, m: nat, n: nat)
    requires IsRun(gate, states, steps) && NeverStrands(states, steps) && m <= n < |states|
    requires states[m].final.Some?
    ensures states[n].final == states[m].final
    ensures states[m].final.value in states[m].outputs && gate(states[m].final.value)
  {
    RunKeepsExclusion(gate, states, steps, m);
    if m < n {
      FinalFileIsCompleteForever(gate, states, steps, m, n - 1);
      RunKeepsExclusion(gate, states, steps, n - 1);
      StepKeepsExclusion(gate, states[n - 1], steps[n - 1]);
    }
  }

  // ---------------------------------------------------------------- one process alone

  /** One stretch after another. */
  lemma StretchesJoin(gate: Gate, states: seq<State>, steps: seq<Step>, states': seq<State>, steps': seq<Step>)
    requires IsStretch(gate, states, steps) && IsStretch(gate, states', steps') && states[|states| - 1] == states'[0]
    ensures IsStretch(gate, states + states'[1..], steps + steps')
  {
    var longer, all, n := states + states'[1..], steps + steps', |steps|;
    forall i | 0 <= i < |all|
      ensures Enabled(gate, longer[i], all[i]) && longer[i + 1] == Apply(gate, longer[i], all[i])
    {
      if i < n {
        assert longer[i] == states[i] && longer[i + 1] == states[i + 1] && all[i] == steps[i];
      } else {
        assert longer[i] == states'[i - n] && longer[i + 1] == states'[i - n + 1] && all[i] == steps'[i - n];
      }
    }
  }

  /** A process that is at its recipe body with nobody else about. */
  predicate AloneAtWork(s: State, p: Pid, written: Content)
    requires p in s.procs
  {
    && s.procs == map[p := Proc(Working(Some(written)), s.procs[p].inode)]
    && s.path == Some(s.procs[p].inode) && s.owner == map[s.procs[p].inode := p]
    && s.final.None? && s.tmp == Some(written)
  }

  /** No process, no lock, no lock file and no temporary file. */
  predicate IsIdle(s: State) {
    s.procs == map[] && s.owner == map[] && s.path.None? && s.tmp.None?
  }

  function Concat(chunks: seq<Content>): Content {
    if chunks == [] then [] else chunks[0] + Concat(chunks[1..])
  }

  /** Up to the moment at which the body has created $outfile. */
  function BeginSteps(p: Pid): seq<Step> {
    [Touch(p), Open(p), Flock(p), Look(p), Begin(p)]
  }

  function AppendSteps(p: Pid, chunks: seq<Content>): seq<Step> {
    if chunks == [] then [] else [Append(p, chunks[0])] + AppendSteps(p, chunks[1..])
  }

  function FinishSteps(p: Pid, ok: bool): seq<Step> {
    if ok then [Exit(p, true), Move(p), Unlink(p), Leave(p)]
    else [Exit(p, false), Sweep(p), SweepFinal(p), Unlink(p), Leave(p)]
  }

  lemma LoneProcessBegins(gate: Gate, s: State, p: Pid) returns (states: seq<State>)
    requires s.procs == map[] && s.owner == map[] && s.path.None? && s.final.None?
    ensures IsStretch(gate, states, BeginSteps(p)) && states[0] == s && p in states[5].procs && AloneAtWork(states[5], p, [])
  {
    var s1 := Apply(gate, s, Touch(p));
    var s2 := Apply(gate, s1, Open(p));
    var s3 := Apply(gate, s2, Flock(p));
    var s4 := Apply(gate, s3, Look(p));
    var s5 := Apply(gate, s4, Begin(p));
    states := [s, s1, s2, s3, s4, s5];
  }

  lemma {:induction false} LoneProcessWrites(gate: Gate, s: State, p: Pid, written: Content, chunks: seq<Content>)
    returns (states: seq<State>)
    requires p in s.procs && AloneAtWork(s, p, written)
    ensures IsStretch(gate, states, AppendSteps(p, chunks)) && states[0] == s
    ensures var last := states[|states| - 1]; p in last.procs && AloneAtWork(last, p, written + Concat(chunks))
    decreases |chunks|
  {
    if chunks == [] {
      states := [s];
      assert written + Concat(chunks) == written;
    } else {
      var s1 := Apply(gate, s, Append(p, chunks[0]));
      assert AloneAtWork(s1, p, written + chunks[0]);
      var more := LoneProcessWrites(gate, s1, p, written + chunks[0], chunks[1..]);
      assert IsStretch(gate, [s, s1], [Append(p, chunks[0])]);
      StretchesJoin(gate, [s, s1], [Append(p, chunks[0])], more, AppendSteps(p, chunks[1..]));
      states := [s, s1] + more[1..];
      assert written + Concat(chunks) == written + chunks[0] + Concat(chunks[1..]);
    }
  }

  lemma LoneProcessSucceeds(gate: Gate, s: State, p: Pid, c: Content) returns (states: seq<State>)
    requires p in s.procs && AloneAtWork(s, p, c) && gate(c)
    ensures IsStretch(gate, states, FinishSteps(p, true)) && states[0] == s
    ensures IsIdle(states[4]) && states[4].final == Some(c)
  {
    var s1 := Apply(gate, s, Exit(p, true));
    var s2 := Apply(gate, s1, Move(p));
    var s3 := Apply(gate, s2, Unlink(p));
    var s4 := Apply(gate, s3, Leave(p));
    states := [s, s1, s2, s3, s4];
  }

  lemma LoneProcessFails(gate: Gate, s: State, p: Pid, c: Content) returns (states: seq<State>)
    requires p in s.procs && AloneAtWork(s, p, c)
    ensures IsStretch(gate, states, FinishSteps(p, false)) && states[0] == s
    ensures IsIdle(states[5]) && states[5].final.None?
  {
    var s1 := Apply(gate, s, Exit(p, false));
    var s2 := Apply(gate, s1, Sweep(p));
    var s3 := Apply(gate, s2, SweepFinal(p));
    var s4 := Apply(gate, s3, Unlink(p));
    var s5 := Apply(gate, s4, Leave(p));
    states := [s, s1, s2, s3, s4, s5];
  }

  /**
   A process alone, from start to end: an accepted download leaves exactly what its body wrote as the final file, a
   failing one leaves no final file, and neither leaves anything else.
   */
  lemma LoneDownload(gate: Gate, s: State, p: Pid, chunks: seq<Content>, ok: bool) returns (states: seq<State>)
    requires s.procs == map[] && s.owner == map[] && s.path.None? && s.final.None?
    requires ok ==> gate(Concat(chunks))
    ensures IsStretch(gate, states, BeginSteps(p) + AppendSteps(p, chunks) + FinishSteps(p, ok)) && states[0] == s
    ensures var last := states[|states| - 1]; IsIdle(last) && last.final == if ok then Some(Concat(chunks)) else None
  {
    states := LoneProcessBegins(gate, s, p);
    var more := LoneProcessWrites(gate, states[5], p, [], chunks);
    assert [] + Concat(chunks) == Concat(chunks);
    StretchesJoin(gate, states, BeginSteps(p), more, AppendSteps(p, chunks));
    states := states + more[1..];
    var worked := states[|states| - 1];
    if ok {
      more := LoneProcessSucceeds(gate, worked, p, Concat(chunks));
    } else {
      more := LoneProcessFails(gate, worked, p, Concat(chunks));
    }
    StretchesJoin(gate, states, BeginSteps(p) + AppendSteps(p, chunks), more, FinishSteps(p, ok));
    states := states + more[1..];
  }

  // ---------------------------------------------------------------- without the side condition

  lemma {:induction false} RunKeepsLockInv(gate: Gate, states: seq<State>, steps: seq<Step>, n: nat)
    requires IsRun(gate, states, steps) && n < |states|
    ensures LockInv(states[n])
  {
    if n > 0 {
      RunKeepsLockInv(gate, states, steps, n - 1);
      StepKeepsLockInv(gate, states[n - 1], steps[n - 1]);
    }
  }

  function Downloaders(s: State): set<Pid> {
    set p | p in s.procs && Critical(s, p)
  }

  /** Distinct processes in `ps` hold distinct inodes below `n`. */
  lemma {:induction false} FewerThanInodes(s: State, ps: set<Pid>, n: nat)
    requires LockInv(s)
    requires forall p :: p in ps ==> HoldsLock(s, p) && s.procs[p].inode < n
    ensures |ps| <= n
  {
    if n == 0 {
      assert ps == {};
    } else if p :| p in ps && s.procs[p].inode == n - 1 {
      forall q | q in ps - {p} ensures s.procs[q].inode < n - 1 {
        assert s.owner[s.procs[q].inode] == q && s.owner[n - 1] == p;
      }
      FewerThanInodes(s, ps - {p}, n - 1);
    } else {
      FewerThanInodes(s, ps, n - 1);
    }
  }

  /** In every run, failures included, there are at most as many downloaders as lock files that ever had the name. */
  lemma ConcurrencyIsBounded(gate: Gate, states: seq<State>, steps: seq<Step>, n: nat)
    requires IsRun(gate, states, steps) && n < |states|
    ensures |Downloaders(states[n])| <= states[n].nextInode
    ensures |Downloaders(states[n])| <= states[n].removals + (if states[n].path.Some? then 1 else 0)
  {
    RunKeepsLockInv(gate, states, steps, n);
    FewerThanInodes(states[n], Downloaders(states[n]), states[n].nextInode);
  }

  // ---------------------------------------------------------------- why the side condition is the right one

  /** A step breaks the invariant exactly when it strands someone. */
  lemma StrandingIsTheHazard(gate: Gate, s: State, step: Step)
    requires ExclusionInv(gate, s) && Enabled(gate, s, step)
    ensures ExclusionInv(gate, Apply(gate, s, step)) <==> !Strands(s, step)
  {
    if Strands(s, step) {
      var q :| q != step.p && HasOpen(s, q) && s.procs[q].inode == s.procs[step.p].inode;
      var s' := Apply(gate, s, step);
      assert Critical(s, step.p);
      assert HasOpen(s', q) && InPhase(s', q, Opened);
    } else {
      StepKeepsExclusion(gate, s, step);
    }
  }

  lemma {:induction false} FreshPid(ps: set<Pid>) returns (r: Pid)
    ensures forall p :: p in ps ==> p < r
  {
    r := 0;
    if ps != {} {
      var p :| p in ps;
      var below := FreshPid(ps - {p});
      r := if p < below then below else p + 1;
      forall q | q in ps ensures q < r { assert q == p || q in ps - {p}; }
    }
  }

  lemma FailingHolderLeaves(gate: Gate, s: State, p: Pid, q: Pid) returns (s1: State, s2: State)
    requires LockInv(s) && s.final.None? && q != p
    requires InPhase(s, p, Unlinking(false)) && InPhase(s, q, Opened) && s.procs[q].inode == s.procs[p].inode
    ensures Enabled(gate, s, Unlink(p)) && s1 == Apply(gate, s, Unlink(p))
    ensures Enabled(gate, s1, Leave(p)) && s2 == Apply(gate, s1, Leave(p))
    ensures LockInv(s2) && InPhase(s2, q, Opened) && s2.procs[q].inode !in s2.owner
    ensures s2.path.None? && s2.final.None? && s2.procs.Keys <= s.procs.Keys
  {
    s1 := Apply(gate, s, Unlink(p));
    s2 := Apply(gate, s1, Leave(p));
    StepKeepsLockInv(gate, s, Unlink(p));
    StepKeepsLockInv(gate, s1, Leave(p));
  }

  lemma WaiterGoesToWork(gate: Gate, s: State, q: Pid) returns (s1: State, s2: State)
    requires LockInv(s) && s.final.None? && InPhase(s, q, Opened) && s.procs[q].inode !in s.owner
    ensures Enabled(gate, s, Flock(q)) && s1 == Apply(gate, s, Flock(q))
    ensures Enabled(gate, s1, Look(q)) && s2 == Apply(gate, s1, Look(q))
    ensures LockInv(s2) && InPhase(s2, q, Working(None)) && s2.path == s.path && s2.final.None? && s2.procs.Keys == s.procs.Keys
  {
    s1 := Apply(gate, s, Flock(q));
    s2 := Apply(gate, s1, Look(q));
    StepKeepsLockInv(gate, s, Flock(q));
    StepKeepsLockInv(gate, s1, Look(q));
  }

  /** Where the stranded process ends up once the failing holder is gone: at work on an inode without a name. */
  lemma StrandedGoesToWork(gate: Gate, s: State, p: Pid, q: Pid) returns (states: seq<State>, steps: seq<Step>)
    requires LockInv(s) && s.final.None? && q != p
    requires InPhase(s, p, Unlinking(false)) && InPhase(s, q, Opened) && s.procs[q].inode == s.procs[p].inode
    ensures IsStretch(gate, states, steps) && |steps| == 4 && states[0] == s && steps[0] == Unlink(p)
    ensures var last := states[4];
            LockInv(last) && InPhase(last, q, Working(None)) && last.path.None? && last.final.None? && last.procs.Keys <= s.procs.Keys
  {
    var s1, s2 := FailingHolderLeaves(gate, s, p, q);
    var s3, s4 := WaiterGoesToWork(gate, s2, q);
    states, steps := [s, s1, s2, s3, s4], [Unlink(p), Leave(p), Flock(q), Look(q)];
  }

  /** A newcomer that finds neither a lock file nor the final file gets to work unhindered. */
  lemma NewcomerGoesToWork(gate: Gate, s: State, r: Pid) returns (states: seq<State>, steps: seq<Step>)
    requires LockInv(s) && s.path.None? && s.final.None? && r !in s.procs
    ensures IsStretch(gate, states, steps) && |steps| == 4 && states[0] == s
    ensures var last := states[4];
            && InPhase(last, r, Working(None)) && last.final.None?
            && forall q :: q in s.procs ==> q in last.procs && last.procs[q] == s.procs[q]
  {
    assert s.nextInode !in s.owner;
    var s1 := Apply(gate, s, Touch(r));
    var s2 := Apply(gate, s1, Open(r));
    assert s2.procs[r] == Proc(Opened, s.nextInode) && s2.owner == s.owner && s2.final.None?;
    var s3 := Apply(gate, s2, Flock(r));
    var s4 := Apply(gate, s3, Look(r));
    states, steps := [s, s1, s2, s3, s4], [Touch(r), Open(r), Flock(r), Look(r)];
  }

  /** A step that strands someone can be followed by two simultaneous downloads. */
  lemma StrandingBreaksExclusion(gate: Gate, s: State, step: Step)
    returns (states: seq<State>, steps: seq<Step>, q: Pid, r: Pid)
    requires ExclusionInv(gate, s) && Enabled(gate, s, step) && Strands(s, step)
    ensures IsStretch(gate, states, steps) && |steps| > 0 && states[0] == s && steps[0] == step
    ensures var last := states[|states| - 1];
            q != r && InPhase(last, q, Working(None)) && InPhase(last, r, Working(None)) && last.final.None?
  {
    var p := step.p;
    q :| q != p && HasOpen(s, q) && s.procs[q].inode == s.procs[p].inode;
    r := FreshPid(s.procs.Keys);
    assert Critical(s, p) && s.final.None?;
    assert InPhase(s, q, Opened);
    states, steps := StrandedGoesToWork(gate, s, p, q);
    assert r !in states[4].procs;
    var states', steps' := NewcomerGoesToWork(gate, states[4], r);
    StretchesJoin(gate, states, steps, states', steps');
    states, steps := states + states'[1..], steps + steps';
  }

  lemma WorkerSucceeds(gate: Gate, s: State, q: Pid, good: Content) returns (states: seq<State>, steps: seq<Step>)
    requires InPhase(s, q, Working(None)) && gate(good)
    ensures IsStretch(gate, states, steps) && |steps| == 3 && states[0] == s
    ensures states[3].procs == s.procs[q := s.procs[q].(phase := Succeeded)]
  {
    var s1 := Apply(gate, s, Begin(q));
    var s2 := Apply(gate, s1, Append(q, good));
    assert [] + good == good;
    var s3 := Apply(gate, s2, Exit(q, true));
    states, steps := [s, s1, s2, s3], [Begin(q), Append(q, good), Exit(q, true)];
  }

  lemma FileIsSwitched(gate: Gate, s: State, q: Pid, r: Pid, bad: Content) returns (states: seq<State>, steps: seq<Step>)
    requires q != r && InPhase(s, q, Succeeded) && InPhase(s, r, Working(None))
    ensures IsStretch(gate, states, steps) && |steps| == 3 && states[0] == s
    ensures states[3].final == Some(bad) && InPhase(states[3], q, Unlinking(true)) && IsWorking(states[3], r)
  {
    var s1 := Apply(gate, s, Begin(r));
    var s2 := Apply(gate, s1, Append(r, bad));
    assert [] + bad == bad;
    var s3 := Apply(gate, s2, Move(q));
    states, steps := [s, s1, s2, s3], [Begin(r), Append(r, bad), Move(q)];
  }

  /** One of two simultaneous downloads succeeds, but moves into place what the other has written since. */
  lemma WorkerMovesOthersFile(gate: Gate, s: State, q: Pid, r: Pid, good: Content, bad: Content)
    returns (states: seq<State>, steps: seq<Step>)
    requires q != r && InPhase(s, q, Working(None)) && InPhase(s, r, Working(None)) && gate(good)
    ensures IsStretch(gate, states, steps) && |steps| == 6 && states[0] == s
    ensures states[6].final == Some(bad) && InPhase(states[6], q, Unlinking(true)) && IsWorking(states[6], r)
  {
    states, steps := WorkerSucceeds(gate, s, q, good);
    var states', steps' := FileIsSwitched(gate, states[3], q, r, bad);
    StretchesJoin(gate, states, steps, states', steps');
    states, steps := states + states'[1..], steps + steps';
  }

  /** A worker that fails removes the final file, whoever made it. */
  lemma FailingWorkerRemovesFile(gate: Gate, s: State, r: Pid) returns (states: seq<State>, steps: seq<Step>)
    requires IsWorking(s, r)
    ensures IsStretch(gate, states, steps) && |steps| == 3 && states[0] == s && states[3].final.None?
  {
    var s1 := Apply(gate, s, Exit(r, false));
    var s2 := Apply(gate, s1, Sweep(r));
    var s3 := Apply(gate, s2, SweepFinal(r));
    states, steps := [s, s1, s2, s3], [Exit(r, false), Sweep(r), SweepFinal(r)];
  }

  /**
   A step that strands someone can also be followed by a final file with any content at all, accepted or not, put
   there by a process that succeeded, and a moment later that file is gone.
   */
  lemma StrandingRuinsFinalFile(gate: Gate, s: State, step: Step, good: Content, bad: Content)
    returns (states: seq<State>, steps: seq<Step>, m: nat, q: Pid)
    requires ExclusionInv(gate, s) && Enabled(gate, s, step) && Strands(s, step) && gate(good)
    ensures IsStretch(gate, states, steps) && |steps| > 0 && states[0] == s && steps[0] == step
    ensures m < |states| && states[m].final == Some(bad) && InPhase(states[m], q, Unlinking(true))
    ensures states[|states| - 1].final.None?
  {
    var r;
    states, steps, q, r := StrandingBreaksExclusion(gate, s, step);
    var states', steps' := WorkerMovesOthersFile(gate, states[|states| - 1], q, r, good, bad);
    StretchesJoin(gate, states, steps, states', steps');
    states, steps := states + states'[1..], steps + steps';
    m := |states| - 1;
    states', steps' := FailingWorkerRemovesFile(gate, states[m], r);
    StretchesJoin(gate, states, steps, states', steps');
    states, steps := states + states'[1..], steps + steps';
  }

  lemma OneMore(gate: Gate, states: seq<State>, steps: seq<Step>, step: Step) returns (states': seq<State>, steps': seq<Step>)
    requires IsRun(gate, states, steps) && NeverStrands(states, steps)
    requires Enabled(gate, states[|states| - 1], step) && !Strands(states[|states| - 1], step)
    ensures IsRun(gate, states', steps') && NeverStrands(states', steps')
    ensures |states'| == |states| + 1 && states'[|states|] == Apply(gate, states[|states| - 1], step)
  {
    var next := Apply(gate, states[|states| - 1], step);
    StretchesJoin(gate, states, steps, [states[|states| - 1], next], [step]);
    assert [states[|states| - 1], next][1..] == [next];
    states', steps' := states + [next], steps + [step];
    forall i | 0 <= i < |steps'| ensures !Strands(states'[i], steps'[i]) {
      if i < |steps| {
        assert states'[i] == states[i] && steps'[i] == steps[i];
      }
    }
  }

  lemma DownloadStarts(gate: Gate) returns (states: seq<State>, steps: seq<Step>)
    ensures IsRun(gate, states, steps) && NeverStrands(states, steps)
    ensures states[|states| - 1] == State(map[0 := Proc(Locked, 0)], Some(0), map[0 := 0], None, None, 1, {}, 0)
  {
    states, steps := [State(map[], None, map[], None, None, 0, {}, 0)], [];
    states, steps := OneMore(gate, states, steps, Touch(0));
    states, steps := OneMore(gate, states, steps, Open(0));
    states, steps := OneMore(gate, states, steps, Flock(0));
  }

  lemma DownloadFails(gate: Gate) returns (states: seq<State>, steps: seq<Step>)
    ensures IsRun(gate, states, steps) && NeverStrands(states, steps)
    ensures states[|states| - 1] == State(map[0 := Proc(Failed, 0)], Some(0), map[0 := 0], None, None, 1, {}, 0)
  {
    states, steps := DownloadStarts(gate);
    states, steps := OneMore(gate, states, steps, Look(0));
    states, steps := OneMore(gate, states, steps, Exit(0, false));
  }

  /** Such a step does come up: a download fails while a second process already waits for the lock. */
  lemma StrandingIsReachable(gate: Gate) returns (states: seq<State>, steps: seq<Step>)
    ensures IsRun(gate, states, steps) && NeverStrands(states, steps)
    ensures var s := states[|states| - 1]; Enabled(gate, s, Unlink(0)) && Strands(s, Unlink(0))
  {
    states, steps := DownloadFails(gate);
    states, steps := OneMore(gate, states, steps, Touch(1));
    states, steps := OneMore(gate, states, steps, Open(1));
    states, steps := OneMore(gate, states, steps, Sweep(0));
    states, steps := OneMore(gate, states, steps, SweepFinal(0));
    assert HasOpen(states[|states| - 1], 1);
  }
}
