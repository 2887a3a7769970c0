/**
 The tool links of 00_mod.mk: stamp files that remember versions, downloaded or built binaries, and one symbolic
 link per tool. make only compares modification times, and it follows the link: the time of a link is the time of
 the binary that it points to.
 */
module ToolLinks {
  import opened Wrappers

  type Tool = string
  type Version = string
  type Time = nat

  /** A binary is named after its tool, its version and, if it is built from source, the Go version. */
  datatype Binary = Binary(tool: Tool, version: Version, go: Option<Version>)

  datatype Stamp = Stamp(content: Version, mtime: Time)

  /** The variables that make reads: every XXX_VERSION, and GO_TOOLCHAIN_VERSION. */
  datatype Config = Config(versions: map<Tool, Version>, go: Version)

  datatype Disk = Disk(
    clock: Time,                            // later than every modification time
    stamps: map<Tool, Stamp>,               // scratch/XXX_VERSION
    goStamp: Option<Stamp>,                 // scratch/GO_TOOLCHAIN_VERSION
    binaries: map<Binary, Time>,            // the download directory
    links: map<Tool, Binary>)               // tools/xxx

  /** $(XXX_DOWNLOAD_PATH); `built` holds the tools that are built from source. */
  function DownloadPath(built: set<Tool>, c: Config, t: Tool): Binary
    requires t in c.versions
  {
    Binary(t, c.versions[t], if t in built then Some(c.go) else None)
  }

  // ---------------------------------------------------------------- what make sees

  /** stat of the link: nothing if the link is missing or dangles. */
  function LinkTime(d: Disk, t: Tool): Option<Time> {
    if t in d.links && d.links[t] in d.binaries then Some(d.binaries[d.links[t]]) else None
  }

  function ToolStamp(d: Disk, t: Tool): Option<Stamp> {
    if t in d.stamps then Some(d.stamps[t]) else None
  }

  predicate NewerThan(stamp: Option<Stamp>, time: Time) {
    stamp.Some? && time < stamp.value.mtime
  }

  /** The link target is missing, or a prerequisite is newer. */
  predicate OutOfDate(built: set<Tool>, c: Config, d: Disk, t: Tool)
    requires t in c.versions
  {
    match LinkTime(d, t)
    case None => true
    case Some(time) =>
      || NewerThan(ToolStamp(d, t), time)
      || (t in built && NewerThan(d.goStamp, time))
      || (var b := DownloadPath(built, c, t); b in d.binaries && time < d.binaries[b])
  }

  // ---------------------------------------------------------------- the recipes

  /** `test version == content || echo version > stamp` */
  function Restamp(stamp: Option<Stamp>, version: Version, now: Time): Stamp {
    if stamp.Some? && stamp.value.content == version then stamp.value else Stamp(version, now)
  }

  function StampTool(c: Config, d: Disk, t: Tool): Disk
    requires t in c.versions
  {
    d.(stamps := d.stamps[t := Restamp(ToolStamp(d, t), c.versions[t], d.clock)], clock := d.clock + 1)
  }

  function StampGo(c: Config, d: Disk): Disk {
    d.(goStamp := Some(Restamp(d.goStamp, c.go, d.clock)), clock := d.clock + 1)
  }

  /** Download or build the binary unless it is there; it may carry any modification time up to now. */
  function Fetch(built: set<Tool>, c: Config, d: Disk, t: Tool, mtime: Time): Disk
    requires t in c.versions && mtime <= d.clock
  {
    var b := DownloadPath(built, c, t);
    if b in d.binaries then d else d.(binaries := d.binaries[b := mtime], clock := d.clock + 1)
  }

  /** `ln -fsn`, the first half of the link recipe. */
  function Ln(built: set<Tool>, c: Config, d: Disk, t: Tool): Disk
    requires t in c.versions
  {
    d.(links := d.links[t := DownloadPath(built, c, t)])
  }

  /** `touch` on the link, which follows it. */
  function TouchLink(d: Disk, t: Tool): Disk
    requires t in d.links
  {
    d.(binaries := d.binaries[d.links[t] := d.clock], clock := d.clock + 1)
  }

  function Link(built: set<Tool>, c: Config, d: Disk, t: Tool): Disk
    requires t in c.versions
  {
    if OutOfDate(built, c, d, t) then TouchLink(Ln(built, c, d, t), t) else d
  }

  /** One undisturbed `make` of one tool. */
  function Build(built: set<Tool>, c: Config, d: Disk, t: Tool, mtime: Time): Disk
    requires t in c.versions && mtime <= d.clock
  {
    var d1 := StampTool(c, d, t);
    var d2 := if t in built then StampGo(c, d1) else d1;
    Link(built, c, Fetch(built, c, d2, t, mtime), t)
  }

  // ---------------------------------------------------------------- invariant

  predicate StampsAre(built: set<Tool>, d: Disk, t: Tool, b: Binary) {
    && t in d.stamps && b.tool == t && b.version == d.stamps[t].content
    && (if t in built then d.goStamp.Some? && b.go == Some(d.goStamp.value.content) else b.go == None)
  }

  predicate AllStamped(built: set<Tool>, d: Disk, t: Tool) {
    t in d.stamps && (t in built ==> d.goStamp.Some?)
  }

  /** A live link that disagrees with its stamps is older than one of them. */
  predicate Honest(built: set<Tool>, d: Disk, t: Tool) {
    LinkTime(d, t).Some? && AllStamped(built, d, t) ==>
      || StampsAre(built, d, t, d.links[t])
      || NewerThan(ToolStamp(d, t), LinkTime(d, t).value)
      || (t in built && NewerThan(d.goStamp, LinkTime(d, t).value))
  }

  /** Times lie in the past, and links are named after their tools. */
  ghost predicate Sane(d: Disk) {
    && (forall t :: t in d.stamps ==> d.stamps[t].mtime < d.clock)
    && (d.goStamp.Some? ==> d.goStamp.value.mtime < d.clock)
    && (forall b :: b in d.binaries ==> d.binaries[b] < d.clock)
    && (forall t :: t in d.links ==> d.links[t].tool == t)
  }

  ghost predicate Inv(built: set<Tool>, d: Disk) {
    Sane(d) && forall t :: Honest(built, d, t)
  }

  // ---------------------------------------------------------------- interleaved and interrupted runs

  datatype Step =
    | Edit(config: Config)
    | DoStamp(t: Tool)
    | DoStampGo
    | DoFetch(t: Tool, mtime: Time)
    | DoLink(t: Tool)
    | LnOnly(t: Tool)                       // make is stopped between the two commands of the link recipe
    | RemoveBinary(b: Binary)               // the download directory is cleaned
    | RemoveLink(t: Tool)
    | RemoveStamp(t: Tool)
    | RemoveGoStamp

  datatype State = State(config: Config, disk: Disk)

  /** The prerequisites of the link have been made with the current configuration. */
  predicate Ready(built: set<Tool>, s: State, t: Tool) {
    && t in s.config.versions
    && StampsAre(built, s.disk, t, DownloadPath(built, s.config, t))
    && DownloadPath(built, s.config, t) in s.disk.binaries
  }

  predicate Enabled(built: set<Tool>, s: State, step: Step) {
    match step
    case DoStamp(t) => t in s.config.versions
    case DoFetch(t, mtime) => t in s.config.versions && mtime <= s.disk.clock
    case DoLink(t) => Ready(built, s, t)
    case LnOnly(t) => Ready(built, s, t)
    case _ => true
  }

  function Apply(built: set<Tool>, s: State, step: Step): State
    requires Enabled(built, s, step)
  {
    var d := s.disk;
    match step
    case Edit(c) => s.(config := c)
    case DoStamp(t) => s.(disk := StampTool(s.config, d, t))
    case DoStampGo => s.(disk := StampGo(s.config, d))
    case DoFetch(t, mtime) => s.(disk := Fetch(built, s.config, d, t, mtime))
    case DoLink(t) => s.(disk := Link(built, s.config, d, t))
    case LnOnly(t) => s.(disk := Ln(built, s.config, d, t))
    case RemoveBinary(b) => s.(disk := d.(binaries := d.binaries - {b}))
    case RemoveLink(t) => s.(disk := d.(links := d.links - {t}))
    case RemoveStamp(t) => s.(disk := d.(stamps := d.stamps - {t}))
    case RemoveGoStamp => s.(disk := d.(goStamp := None))
  }

  // ---------------------------------------------------------------- what a step does to honesty

  /** A binary to which the link dangles is brought back although the stamps name another, and none of them is newer. */
  predicate StaleFetch(built: set<Tool>, s: State, step: Step) {
    step.DoFetch? && step.t in s.config.versions &&
    var t, d, b := step.t, s.disk, DownloadPath(built, s.config, step.t);
    && t in d.links && d.links[t] == b && b !in d.binaries
    && AllStamped(built, d, t) && !StampsAre(built, d, t, b)
    && !NewerThan(ToolStamp(d, t), step.mtime) && !(t in built && NewerThan(d.goStamp, step.mtime))
  }

  /** A stamp of the tool gets another version or goes away, or its link is remade or stops being live. */
  predicate Repairs(built: set<Tool>, s: State, step: Step, t: Tool) {
    match step
    case DoStamp(u) => u == t && t in s.config.versions && t in s.disk.stamps && s.disk.stamps[t].content != s.config.versions[t]
    case DoStampGo => t in built && s.disk.goStamp.Some? && s.disk.goStamp.value.content != s.config.go
    case DoLink(u) => u == t && t in s.config.versions && OutOfDate(built, s.config, s.disk, t)
    case LnOnly(u) => u == t
    case RemoveBinary(b) => t in s.disk.links && s.disk.links[t] == b
    case RemoveLink(u) => u == t
    case RemoveStamp(u) => u == t
    case RemoveGoStamp => t in built
    case _ => false
  }

  lemma StepKeepsSane(built: set<Tool>, s: State, step: Step)
    requires Sane(s.disk) && Enabled(built, s, step)
    ensures Sane(Apply(built, s, step).disk)
  {
  }

  /** A link stops being honest by a stale fetch for its tool and by nothing else, and honest again by a repair. */
  lemma HonestAfterIff(built: set<Tool>, s: State, step: Step, t: Tool)
    requires Sane(s.disk) && Enabled(built, s, step)
    ensures Honest(built, Apply(built, s, step).disk, t) <==>
            if Honest(built, s.disk, t) then !(StaleFetch(built, s, step) && step.t == t) else Repairs(built, s, step, t)
  {
  }

  /** A step breaks the invariant exactly when it is a stale fetch. */
  lemma StaleFetchIsTheHazard(built: set<Tool>, s: State, step: Step)
    requires Inv(built, s.disk) && Enabled(built, s, step)
    ensures Inv(built, Apply(built, s, step).disk) <==> !StaleFetch(built, s, step)
  {
    StepKeepsSane(built, s, step);
    var stale := StaleFetch(built, s, step);
    forall t ensures Honest(built, Apply(built, s, step).disk, t) <==> !(stale && step.t == t) {
      assert Honest(built, s.disk, t);
      HonestAfterIff(built, s, step, t);
    }
    if stale {
      assert !Honest(built, Apply(built, s, step).disk, step.t);
    }
  }

  ghost predicate IsCurrent(built: set<Tool>, s: State, t: Tool) {
    && t in s.config.versions
    && t in s.disk.links && s.disk.links[t] == DownloadPath(built, s.config, t) && s.disk.links[t] in s.disk.binaries
    && !OutOfDate(built, s.config, s.disk, t)
  }

  /** The link is on the wrong binary, and make has nothing left to do about it. */
  ghost predicate IsStuck(built: set<Tool>, s: State, t: Tool) {
    && Ready(built, s, t) && !OutOfDate(built, s.config, s.disk, t)
    && t in s.disk.links && s.disk.links[t] != DownloadPath(built, s.config, t)
  }

  /** make sees that the binary it wants is newer than the one that is linked. */
  predicate BinaryIsNewer(built: set<Tool>, s: State, t: Tool)
    requires t in s.config.versions
  {
    var b, time := DownloadPath(built, s.config, t), LinkTime(s.disk, t);
    b in s.disk.binaries && time.Some? && time.value < s.disk.binaries[b]
  }

  /**
   Once its prerequisites are made, making the link leaves it on the binary of the current versions exactly when it
   was honest or make happens to be saved by the time of that binary.
   */
  lemma LinkIsCurrentIff(built: set<Tool>, s: State, t: Tool)
    requires Sane(s.disk) && Enabled(built, s, DoLink(t))
    ensures var s' := Apply(built, s, DoLink(t));
            && (IsCurrent(built, s', t) <==> Honest(built, s.disk, t) || BinaryIsNewer(built, s, t))
            && (IsCurrent(built, s', t) || IsStuck(built, s', t))
  {
  }

  // ---------------------------------------------------------------- all runs

  ghost predicate Init(s: State) {
    s.disk.stamps == map[] && s.disk.goStamp.None? && s.disk.links == map[]
    && forall b :: b in s.disk.binaries ==> s.disk.binaries[b] < s.disk.clock
  }

  /** A stretch of a run: each state leads to the next. */
  ghost predicate IsStretch(built: set<Tool>, states: seq<State>, steps: seq<Step>) {
    && |states| == |steps| + 1
    && forall i :: 0 <= i < |steps| ==> Enabled(built, states[i], steps[i]) && states[i + 1] == Apply(built, states[i], steps[i])
  }

  ghost predicate IsRun(built: set<Tool>, states: seq<State>, steps: seq<Step>) {
    IsStretch(built, states, steps) && Init(states[0])
  }

  /** Step `m` is a stale fetch for the tool, and no step between it and state `n` repairs that. */
  ghost predicate Unrepaired(built: set<Tool>, states: seq<State>, steps: seq<Step>, t: Tool, m: nat, n: nat)
    requires |states| == |steps| + 1
  {
    && m < n <= |steps|
    && StaleFetch(built, states[m], steps[m]) && steps[m].t == t
    && forall k :: m < k < n ==> !Repairs(built, states[k], steps[k], t)
  }

  lemma {:induction false} RunKeepsSane(built: set<Tool>, states: seq<State>, steps: seq<Step>, n: nat)
    requires IsRun(built, states, steps) && n < |states|
    ensures Sane(states[n].disk)
  {
    if n > 0 {
      RunKeepsSane(built, states, steps, n - 1);
      StepKeepsSane(built, states[n - 1], steps[n - 1]);
    }
  }

  ghost predicate HasUnrepaired(built: set<Tool>, states: seq<State>, steps: seq<Step>, t: Tool, n: nat)
    requires |states| == |steps| + 1
  {
    exists m: nat :: m < n && Unrepaired(built, states, steps, t, m, n)
  }

  /** What is left unrepaired after one more step. */
  lemma HasUnrepairedAfter(built: set<Tool>, states: seq<State>, steps: seq<Step>, t: Tool, n: nat)
    requires |states| == |steps| + 1 && 0 < n <= |steps|
    ensures HasUnrepaired(built, states, steps, t, n) <==>
            || (StaleFetch(built, states[n - 1], steps[n - 1]) && steps[n - 1].t == t)
            || (HasUnrepaired(built, states, steps, t, n - 1) && !Repairs(built, states[n - 1], steps[n - 1], t))
  {
    forall m: nat | m < n
      ensures Unrepaired(built, states, steps, t, m, n) <==>
              if m == n - 1 then StaleFetch(built, states[m], steps[m]) && steps[m].t == t
              else Unrepaired(built, states, steps, t, m, n - 1) && !Repairs(built, states[n - 1], steps[n - 1], t)
    {
    }
    if StaleFetch(built, states[n - 1], steps[n - 1]) && steps[n - 1].t == t {
      assert Unrepaired(built, states, steps, t, n - 1, n);
    }
  }

  /** In every run, a link is honest exactly when every stale fetch for its tool has been repaired. */
  lemma {:induction false} HonestIffRepaired(built: set<Tool>, states: seq<State>, steps: seq<Step>, n: nat, t: Tool)
    requires IsRun(built, states, steps) && n < |states|
    ensures Honest(built, states[n].disk, t) <==> !HasUnrepaired(built, states, steps, t, n)
  {
    if n > 0 {
      HonestIffRepaired(built, states, steps, n - 1, t);
      RunKeepsSane(built, states, steps, n - 1);
      HonestAfterIff(built, states[n - 1], steps[n - 1], t);
      if StaleFetch(built, states[n - 1], steps[n - 1]) {
        StaleFetchIsOfDeadLink(built, states[n - 1], steps[n - 1]);
      }
      HasUnrepairedAfter(built, states, steps, t, n);
    }
  }

  lemma StaleFetchIsOfDeadLink(built: set<Tool>, s: State, step: Step)
    requires StaleFetch(built, s, step)
    ensures Honest(built, s.disk, step.t)
  {
  }

  /**
   When links go stale: after any history of edits, reverts, interrupted runs, clean-ups and builds of other tools,
   making the link leaves it on the binary of the current versions, with nothing left to do, unless there is a stale
   fetch that was never repaired and the time of the wanted binary gives nothing away. Then the link is stuck.
   */
  lemma LinkGoesStaleIff(built: set<Tool>, states: seq<State>, steps: seq<Step>, n: nat)
    requires IsRun(built, states, steps)
    requires n < |steps| && steps[n].DoLink?
    ensures var t := steps[n].t;
            IsStuck(built, states[n + 1], t) <==>
              && HasUnrepaired(built, states, steps, t, n)
              && !BinaryIsNewer(built, states[n], t)
    ensures IsCurrent(built, states[n + 1], steps[n].t) <==> !IsStuck(built, states[n + 1], steps[n].t)
  {
    RunKeepsSane(built, states, steps, n);
    HonestIffRepaired(built, states, steps, n, steps[n].t);
    LinkIsCurrentIff(built, states[n], steps[n].t);
  }

  /** The steps that make a link dangle. */
  predicate RemovesLinked(s: State, step: Step) {
    step.RemoveBinary? && exists t :: t in s.disk.links && s.disk.links[t] == step.b
  }

  ghost predicate NoLinkDangles(d: Disk) {
    forall t :: t in d.links ==> d.links[t] in d.binaries
  }

  lemma {:induction false} NothingDangles(built: set<Tool>, states: seq<State>, steps: seq<Step>, n: nat)
    requires IsRun(built, states, steps) && n < |states|
    requires forall i :: 0 <= i < n ==> !RemovesLinked(states[i], steps[i])
    ensures NoLinkDangles(states[n].disk)
  {
    if n > 0 {
      NothingDangles(built, states, steps, n - 1);
      assert Enabled(built, states[n - 1], steps[n - 1]) && states[n] == Apply(built, states[n - 1], steps[n - 1]);
    }
  }

  /** Links never go stale as long as nobody removes a binary that is linked. */
  lemma LinksNeverGoStale(built: set<Tool>, states: seq<State>, steps: seq<Step>, n: nat)
    requires IsRun(built, states, steps)
    requires n < |steps| && steps[n].DoLink?
    requires forall i :: 0 <= i < n ==> !RemovesLinked(states[i], steps[i])
    ensures IsCurrent(built, states[n + 1], steps[n].t)
  {
    LinkGoesStaleIff(built, states, steps, n);
    if HasUnrepaired(built, states, steps, steps[n].t, n) {
      var m: nat :| m < n && Unrepaired(built, states, steps, steps[n].t, m, n);
      NothingDangles(built, states, steps, m);
      assert false;
    }
  }

  /** The link may be wrong by a fetch of this very configuration that ran ahead of the stamps. */
  ghost predicate FetchedAhead(built: set<Tool>, s: State, t: Tool) {
    && t in s.config.versions && t in s.disk.links && s.disk.links[t] == DownloadPath(built, s.config, t)
    && !StampsAre(built, s.disk, t, s.disk.links[t])
  }

  lemma {:induction false} HonestOrFetchedAhead(built: set<Tool>, states: seq<State>, steps: seq<Step>, m: nat, n: nat, t: Tool)
    requires IsRun(built, states, steps) && m <= n < |states|
    requires Honest(built, states[m].disk, t)
    requires forall i :: m <= i < n ==> !steps[i].Edit?
    ensures Honest(built, states[n].disk, t) || FetchedAhead(built, states[n], t)
  {
    if m < n {
      HonestOrFetchedAhead(built, states, steps, m, n - 1, t);
      RunKeepsSane(built, states, steps, n - 1);
      HonestAfterIff(built, states[n - 1], steps[n - 1], t);
    }
  }

  /**
   A make that gets as far as the link without the versions being edited under it leaves the right link, in whatever
   order a parallel make takes the prerequisites, and whatever else is built, removed or interrupted meanwhile.
   */
  lemma FinishedMakesAreCurrent(built: set<Tool>, states: seq<State>, steps: seq<Step>, m: nat, n: nat)
    requires IsRun(built, states, steps)
    requires m <= n < |steps| && steps[n].DoLink? && Honest(built, states[m].disk, steps[n].t)
    requires forall i :: m <= i < n ==> !steps[i].Edit?
    ensures IsCurrent(built, states[n + 1], steps[n].t)
  {
    HonestOrFetchedAhead(built, states, steps, m, n, steps[n].t);
    RunKeepsSane(built, states, steps, n);
    LinkIsCurrentIff(built, states[n], steps[n].t);
  }

  // ---------------------------------------------------------------- one make

  /** The order in which one sequential make works: the stamps come before the binary. */
  lemma StampingMakesReady(built: set<Tool>, c: Config, d: Disk, t: Tool, mtime: Time)
    requires Sane(d) && t in c.versions && mtime <= d.clock
    ensures var d1 := StampTool(c, d, t);
            var d2 := if t in built then StampGo(c, d1) else d1;
            var d3 := Fetch(built, c, d2, t, mtime);
            && mtime <= d2.clock
            && Ready(built, State(c, d3), t)
            && Sane(d3) && (forall u :: Honest(built, d, u) ==> Honest(built, d3, u))
  {
    var d1 := StampTool(c, d, t);
    var d2 := if t in built then StampGo(c, d1) else d1;
    StepKeepsSane(built, State(c, d), DoStamp(t));
    StepKeepsSane(built, State(c, d1), DoStampGo);
    StepKeepsSane(built, State(c, d2), DoFetch(t, mtime));
    forall u | Honest(built, d, u) ensures Honest(built, Fetch(built, c, d2, t, mtime), u) {
      HonestAfterIff(built, State(c, d), DoStamp(t), u);
      HonestAfterIff(built, State(c, d1), DoStampGo, u);
      HonestAfterIff(built, State(c, d2), DoFetch(t, mtime), u);
    }
  }

  /** A sequential make of one tool, from any disk on which its link is honest. */
  lemma BuildIsCurrent(built: set<Tool>, c: Config, d: Disk, t: Tool, mtime: Time)
    requires Sane(d) && Honest(built, d, t) && t in c.versions && mtime <= d.clock
    ensures var d' := Build(built, c, d, t, mtime);
            && Sane(d') && (forall u :: Honest(built, d, u) ==> Honest(built, d', u))
            && Ready(built, State(c, d'), t) && IsCurrent(built, State(c, d'), t)
  {
    StampingMakesReady(built, c, d, t, mtime);
    var d1 := StampTool(c, d, t);
    var d2 := if t in built then StampGo(c, d1) else d1;
    var d3 := Fetch(built, c, d2, t, mtime);
    var s3 := State(c, d3);
    LinkIsCurrentIff(built, s3, t);
    StepKeepsSane(built, s3, DoLink(t));
    forall u | Honest(built, d, u) ensures Honest(built, Link(built, c, d3, t), u) {
      HonestAfterIff(built, s3, DoLink(t), u);
    }
    LinkKeepsReady(built, c, d3, t);
  }

  lemma LinkOutcome(built: set<Tool>, c: Config, d: Disk, t: Tool)
    requires Sane(d) && Ready(built, State(c, d), t)
    ensures var d' := Link(built, c, d, t);
            Sane(d') && (Inv(built, d) ==> Inv(built, d') && IsCurrent(built, State(c, d'), t))
  {
    StepKeepsSane(built, State(c, d), DoLink(t));
    if Inv(built, d) {
      StaleFetchIsTheHazard(built, State(c, d), DoLink(t));
      LinkIsCurrentIff(built, State(c, d), t);
      assert Honest(built, d, t);
    }
  }

  /** The links of all other tools stay as they are. */
  lemma BuildLeavesOtherLinks(built: set<Tool>, c: Config, d: Disk, t: Tool, u: Tool, mtime: Time)
    requires t in c.versions && mtime <= d.clock && u != t
    ensures var d' := Build(built, c, d, t, mtime);
            (u in d'.links <==> u in d.links) && (u in d.links ==> d'.links[u] == d.links[u])
  {
    var d1 := StampTool(c, d, t);
    var d2 := if t in built then StampGo(c, d1) else d1;
    assert Fetch(built, c, d2, t, mtime).links == d.links;
  }

  lemma LinkKeepsReady(built: set<Tool>, c: Config, d: Disk, t: Tool)
    requires Ready(built, State(c, d), t)
    ensures Ready(built, State(c, Link(built, c, d, t)), t)
  {
  }

  predicate SameFiles(d: Disk, d': Disk) {
    d'.stamps == d.stamps && d'.goStamp == d.goStamp && d'.binaries == d.binaries && d'.links == d.links
  }

  /** In the steady state nothing is remade: a second make changes no file, not even a modification time. */
  lemma SecondBuildDoesNothing(built: set<Tool>, c: Config, d: Disk, t: Tool, mtime: Time, mtime': Time)
    requires Sane(d) && Honest(built, d, t)
    requires t in c.versions && mtime <= d.clock && mtime' <= Build(built, c, d, t, mtime).clock
    ensures var d' := Build(built, c, d, t, mtime); SameFiles(d', Build(built, c, d', t, mtime'))
  {
    BuildIsCurrent(built, c, d, t, mtime);
    BuildOfReadyTool(built, c, Build(built, c, d, t, mtime), t, mtime');
  }

  lemma BuildOfReadyTool(built: set<Tool>, c: Config, d: Disk, t: Tool, mtime: Time)
    requires t in c.versions && Ready(built, State(c, d), t) && !OutOfDate(built, c, d, t) && mtime <= d.clock
    ensures SameFiles(d, Build(built, c, d, t, mtime))
  {
    var d1 := StampTool(c, d, t);
    assert d1.stamps == d.stamps;
    var d2 := if t in built then StampGo(c, d1) else d1;
    assert d2.goStamp == d.goStamp;
  }

  /** Building another tool with the same configuration does not make an up-to-date link out of date. */
  lemma OtherBuildsDoNotDisturb(built: set<Tool>, c: Config, d: Disk, t: Tool, u: Tool, mtime: Time)
    requires Sane(d) && t in c.versions && u in c.versions && t != u && mtime <= d.clock
    requires Ready(built, State(c, d), t) && !OutOfDate(built, c, d, t)
    ensures var d' := Build(built, c, d, u, mtime); Ready(built, State(c, d'), t) && !OutOfDate(built, c, d', t)
  {
    var d1 := StampTool(c, d, u);
    var d2 := if u in built then StampGo(c, d1) else d1;
    var d3 := Fetch(built, c, d2, u, mtime);
    var b := d.links[t];
    assert b.tool == t && d3.links == d.links && ToolStamp(d3, t) == ToolStamp(d, t);
    assert t in built ==> d3.goStamp == d.goStamp;
    assert b in d3.binaries && d3.binaries[b] == d.binaries[b];
    LinkDoesNotDisturb(built, c, d3, t, u);
  }

  lemma LinkDoesNotDisturb(built: set<Tool>, c: Config, d: Disk, t: Tool, u: Tool)
    requires t in c.versions && u in c.versions && t != u
    requires Ready(built, State(c, d), t) && !OutOfDate(built, c, d, t) && d.links[t].tool == t
    ensures var d' := Link(built, c, d, u); Ready(built, State(c, d'), t) && !OutOfDate(built, c, d', t)
  {
  }

  // ---------------------------------------------------------------- what a stale fetch leads to

  /** The versions are edited back to what the stamps of the tool say. */
  function Reverted(built: set<Tool>, s: State, t: Tool): Config
    requires AllStamped(built, s.disk, t)
  {
    Config(s.config.versions[t := s.disk.stamps[t].content], if t in built then s.disk.goStamp.value.content else s.config.go)
  }

  /**
   Every stale fetch can turn into a wrong link: make is stopped, the edit is reverted, and the next make finds the
   stamps in order and the link too young to be remade. `mtime` is the time of the binary that the link should be on;
   from then on make has nothing left to do.
   */
  lemma StaleFetchGoesStale(built: set<Tool>, s: State, step: Step, mtime: Time) returns (states: seq<State>, steps: seq<Step>)
    requires Sane(s.disk) && Enabled(built, s, step) && StaleFetch(built, s, step) && mtime <= step.mtime
    ensures IsStretch(built, states, steps) && |steps| == 5 && states[0] == s && steps[0] == step && steps[4] == DoLink(step.t)
    ensures IsStuck(built, states[5], step.t)
  {
    var t := step.t;
    var s1 := Apply(built, s, step);
    var back := Edit(Reverted(built, s, t));
    var s2 := Apply(built, s1, back);
    var b := DownloadPath(built, s2.config, t);
    assert b != s.disk.links[t];
    var s3 := Apply(built, s2, RemoveBinary(b));
    var s4 := Apply(built, s3, DoFetch(t, mtime));
    assert Ready(built, s4, t) && !OutOfDate(built, s4.config, s4.disk, t);
    var s5 := Apply(built, s4, DoLink(t));
    states, steps := [s, s1, s2, s3, s4, s5], [step, back, RemoveBinary(b), DoFetch(t, mtime), DoLink(t)];
  }

  lemma RunExtends(built: set<Tool>, states: seq<State>, steps: seq<Step>, step: Step) returns (states': seq<State>, steps': seq<Step>)
    requires IsRun(built, states, steps) && Enabled(built, states[|states| - 1], step)
    ensures IsRun(built, states', steps')
    ensures |states'| == |states| + 1 && states'[|states|] == Apply(built, states[|states| - 1], step)
  {
    states', steps' := states + [Apply(built, states[|states| - 1], step)], steps + [step];
    forall i | 0 <= i < |steps'|
      ensures Enabled(built, states'[i], steps'[i]) && states'[i + 1] == Apply(built, states'[i], steps'[i])
    {
      if i < |steps| {
        assert states'[i] == states[i] && states'[i + 1] == states[i + 1] && steps'[i] == steps[i];
      }
    }
  }

  const V1: Config := Config(map["helm" := "v1"], "go1")
  const V2: Config := Config(map["helm" := "v2"], "go1")
  const HELM1: Binary := Binary("helm", "v1", None)

  lemma FirstMake() returns (states: seq<State>, steps: seq<Step>)
    ensures IsRun({}, states, steps)
    ensures states[|states| - 1] ==
            State(V1, Disk(3, map["helm" := Stamp("v1", 0)], None, map[HELM1 := 2], map["helm" := HELM1]))
  {
    states, steps := [State(V1, Disk(0, map[], None, map[], map[]))], [];
    states, steps := RunExtends({}, states, steps, DoStamp("helm"));
    states, steps := RunExtends({}, states, steps, DoFetch("helm", 1));
    states, steps := RunExtends({}, states, steps, DoLink("helm"));
  }

  /** A stale fetch does come up: an upgrade that was stopped, a clean-up, and a parallel make of the old version. */
  lemma HazardIsReachable() returns (states: seq<State>, steps: seq<Step>, step: Step)
    ensures IsRun({}, states, steps)
    ensures var s := states[|states| - 1]; Inv({}, s.disk) && Enabled({}, s, step) && StaleFetch({}, s, step)
  {
    states, steps := FirstMake();
    states, steps := RunExtends({}, states, steps, Edit(V2));
    states, steps := RunExtends({}, states, steps, DoStamp("helm"));
    states, steps := RunExtends({}, states, steps, RemoveBinary(HELM1));
    states, steps := RunExtends({}, states, steps, Edit(V1));
    step := DoFetch("helm", 4);
  }

  // ---------------------------------------------------------------- the files themselves

  /** The two directories that the recipes work on. */
  class Workspace {
    const built: set<Tool>
    var clock: Time
    var stamps: map<Tool, Stamp>
    var goStamp: Option<Stamp>
    var binaries: map<Binary, Time>
    var links: map<Tool, Binary>

    ghost function Files(): Disk
      reads this
    {
      Disk(clock, stamps, goStamp, binaries, links)
    }

    ghost predicate Valid()
      reads this
    {
      Sane(Files())
    }

    constructor (built: set<Tool>)
      ensures this.built == built && Valid() && Files() == Disk(0, map[], None, map[], map[])
    {
      this.built := built;
      clock, stamps, goStamp, binaries, links := 0, map[], None, map[], map[];
    }

    /** No live link disagrees with its stamps unless one of them is newer. */
    ghost predicate AllHonest()
      reads this
    {
      forall t :: Honest(built, Files(), t)
    }

    /** The stamp rule for a tool. */
    method StampToolRule(c: Config, t: Tool)
      requires Valid() && t in c.versions
      modifies this
      ensures Valid() && Files() == StampTool(c, old(Files()), t)
      ensures old(AllHonest()) ==> AllHonest()
    {
      ghost var s := State(c, Files());
      StepKeepsSane(built, s, DoStamp(t));
      if AllHonest() { StaleFetchIsTheHazard(built, s, DoStamp(t)); }
      if !(t in stamps && stamps[t].content == c.versions[t]) {
        stamps := stamps[t := Stamp(c.versions[t], clock)];
      }
      assert stamps == StampTool(c, old(Files()), t).stamps;
      clock := clock + 1;
    }

    /** The stamp rule for the Go version. */
    method StampGoRule(c: Config)
      requires Valid()
      modifies this
      ensures Valid() && Files() == StampGo(c, old(Files()))
      ensures old(AllHonest()) ==> AllHonest()
    {
      ghost var s := State(c, Files());
      StepKeepsSane(built, s, DoStampGo);
      if AllHonest() { StaleFetchIsTheHazard(built, s, DoStampGo); }
      if !(goStamp.Some? && goStamp.value.content == c.go) {
        goStamp := Some(Stamp(c.go, clock));
      }
      clock := clock + 1;
    }

    /** The rule for the versioned binary. */
    method FetchRule(c: Config, t: Tool, mtime: Time)
      requires Valid() && t in c.versions && mtime <= clock
      modifies this
      ensures Valid() && Files() == Fetch(built, c, old(Files()), t, mtime)
      ensures old(AllHonest()) ==> (AllHonest() <==> !StaleFetch(built, State(c, old(Files())), DoFetch(t, mtime)))
    {
      ghost var s := State(c, Files());
      StepKeepsSane(built, s, DoFetch(t, mtime));
      if AllHonest() { StaleFetchIsTheHazard(built, s, DoFetch(t, mtime)); }
      var b := DownloadPath(built, c, t);
      if b !in binaries {
        binaries := binaries[b := mtime];
        clock := clock + 1;
      }
    }

    /** The rule for the link: ln, then touch. */
    method LinkRule(c: Config, t: Tool)
      requires Valid() && Ready(built, State(c, Files()), t)
      modifies this
      ensures Valid() && Files() == Link(built, c, old(Files()), t)
      ensures old(AllHonest()) ==> AllHonest() && IsCurrent(built, State(c, Files()), t)
    {
      LinkOutcome(built, c, Files(), t);
      var b := DownloadPath(built, c, t);
      var live := t in links && links[t] in binaries;
      var time := if live then binaries[links[t]] else 0;
      assert live ==> LinkTime(Files(), t) == Some(time);
      if !live || (t in stamps && time < stamps[t].mtime)
         || (t in built && goStamp.Some? && time < goStamp.value.mtime) || time < binaries[b] {
        links := links[t := b];
        binaries := binaries[links[t] := clock];
        clock := clock + 1;
      }
    }

    /** make of one tool. */
    method Make(c: Config, t: Tool, mtime: Time)
      requires Valid() && Honest(built, Files(), t) && t in c.versions && mtime <= clock
      modifies this
      ensures Valid() && Files() == Build(built, c, old(Files()), t, mtime)
      ensures IsCurrent(built, State(c, Files()), t) && (old(AllHonest()) ==> AllHonest())
    {
      StampingMakesReady(built, c, Files(), t, mtime);
      BuildIsCurrent(built, c, Files(), t, mtime);
      StampToolRule(c, t);
      if t in built {
        StampGoRule(c);
      }
      FetchRule(c, t, mtime);
      LinkRule(c, t);
    }
  }
}
