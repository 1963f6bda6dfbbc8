/** What holds of every stored status in every run: health, phases, the grace period and the init marker. */
module MachineStatus {
  import opened Strings
  import opened Api
  import opened StatefulSets
  import opened Status
  import opened Machine

  /** Healthy tells exactly whether the phase is Running; the Scaling phase is never entered. */
  predicate IsKept(status: NacosStatus) {
    status.healthy == (status.phase == PhaseRunning) && status.phase != PhaseScale
  }

  /** How the control tells where the phase in memory comes from. */
  predicate PhaseFits(loaded: Phase, control: Control, phase: Phase) {
    if control.AtPreCheck? then phase == loaded
    else if !control.AtHandle? then phase == loaded && loaded != PhaseNone
    else if control.failure.Plain? then loaded == PhaseNone ==> phase != PhaseRunning
    else if control.failure.code == CODE_NORMAL then loaded == PhaseNone && phase == PhaseCreating
    else phase == loaded && loaded != PhaseNone
  }

  /** How many of the six stages have returned when the control is there. */
  function StagesBefore(control: Control): nat {
    if control.AtPreCheck? || control.AtHandle? then 0
    else if control.AtRotate? then 2
    else if control.AtCheck? then 4
    else if control.AtUpdateStatus? then 5
    else if control.AtPGEnsure? || control.AtInitCreate? || control.AtInitDelete? || control.AtInitInsert?
            || control.AtInitWrite? then 1
    else 3
  }

  predicate StagesFit(control: Control, stages: nat) {
    control.AtHandle? || stages == StagesBefore(control)
  }

  predicate WorkerFits(s: State) {
    s.worker.Busy? ==>
      var inst := s.worker.inst;
      && inst.rv < |s.versions|
      && IsKept(inst.status)
      && PhaseFits(s.versions[inst.rv].status.phase, s.worker.control, inst.status.phase)
      && StagesFit(s.worker.control, inst.stages)
  }

  predicate EverRan(versions: seq<Version>) {
    versions != [] &&
    (versions[|versions| - 1].status.phase == PhaseRunning || EverRan(versions[..|versions| - 1]))
  }

  /** What one version may look like, given the one before it. */
  predicate Follows(before: Version, after: Version) {
    && (before.status.phase != PhaseNone ==> after.status.phase != PhaseNone)
    && (after.status.phase == PhaseRunning && before.status.phase != PhaseRunning ==> after.stages == 5)
    && before.storedAt <= after.storedAt
  }

  /** Failed is shown within three minutes of creation only if Running was stored earlier. */
  predicate GraceKept(c: Config, earlier: seq<Version>, v: Version) {
    v.status.phase == PhaseFailed ==> EverRan(earlier) || c.meta.creation + 180 < v.storedAt
  }

  predicate VersionsFit(c: Config, versions: seq<Version>) {
    && versions != []
    && var front, v := versions[..|versions| - 1], versions[|versions| - 1];
       && IsKept(v.status)
       && if front == [] then v.status == EmptyStatus
          else VersionsFit(c, front) && Follows(front[|front| - 1], v) && GraceKept(c, front, v)
  }

  predicate HistoryFits(c: Config, s: State) {
    VersionsFit(c, s.versions) && s.cache < |s.versions| && Latest(s).storedAt <= s.clock
  }

  predicate StatusInv(c: Config, s: State) {
    HistoryFits(c, s) && WorkerFits(s)
  }

  lemma InitStatusInv(c: Config, s: State)
    requires Init(c, s)
    ensures StatusInv(c, s)
  {
  }

  /** A status may be stored if it fits behind the latest version. */
  predicate MayStore(c: Config, s: State, status: NacosStatus, stages: nat)
    requires s.versions != []
  {
    && IsKept(status)
    && Follows(Latest(s), Version(Latest(s).spec, status, s.clock, stages))
    && (status.phase == PhaseFailed ==>
          Latest(s).status.phase == PhaseFailed || Latest(s).status.phase == PhaseRunning
          || c.meta.creation + 180 < s.clock)
  }

  lemma AppendKeepsHistory(c: Config, s: State, v: Version)
    requires HistoryFits(c, s) && v.storedAt == s.clock && MayStore(c, s, v.status, v.stages)
    ensures HistoryFits(c, s.(versions := s.versions + [v]))
  {
    assert (s.versions + [v])[..|s.versions|] == s.versions;
  }

  lemma WriteKeepsHistory(c: Config, s: State, inst: Instance, fault: WriteFault)
    requires HistoryFits(c, s) && inst.rv < |s.versions|
    requires inst.rv == |s.versions| - 1 ==> MayStore(c, s, inst.status, inst.stages)
    ensures var w := WriteStatus(s.versions, s.clock, inst, fault);
      && HistoryFits(c, s.(versions := w.versions))
      && w.inst.(rv := inst.rv) == inst
      && s.versions <= w.versions && w.inst.rv < |w.versions|
      && (w.inst.rv == inst.rv || w.versions[w.inst.rv].status == inst.status)
  {
    WriteShape(s, inst, fault);
    if WriteStatus(s.versions, s.clock, inst, fault).versions != s.versions {
      AppendKeepsHistory(c, s, Proposed(s, inst));
    }
  }

  /** Steps that store no status: the history is untouched and the phase in memory moves as the control allows. */
  lemma SameVersions(c: Config, s: State, t: State)
    requires StatusInv(c, s)
    requires t.versions == s.versions && s.cache <= t.cache < |t.versions| && s.clock <= t.clock
    requires t.worker.Busy? && s.worker.Busy? ==>
      && t.worker.inst.rv == s.worker.inst.rv && IsKept(t.worker.inst.status)
      && PhaseFits(s.versions[s.worker.inst.rv].status.phase, t.worker.control, t.worker.inst.status.phase)
      && StagesFit(t.worker.control, t.worker.inst.stages)
    requires t.worker.Busy? ==> s.worker.Busy?
    ensures StatusInv(c, t)
  {
  }

  lemma {:induction false} VersionIsKept(c: Config, versions: seq<Version>, i: nat)
    requires VersionsFit(c, versions) && i < |versions|
    ensures IsKept(versions[i].status)
  {
    if i < |versions| - 1 {
      VersionIsKept(c, versions[..|versions| - 1], i);
    }
  }

  lemma LoadKeeps(c: Config, s: State)
    requires StatusInv(c, s)
    ensures StatusInv(c, Loaded(s))
  {
    VersionIsKept(c, s.versions, s.cache);
  }

  lemma SpecEditKeeps(c: Config, s: State, spec: NacosSpec)
    requires StatusInv(c, s)
    ensures StatusInv(c, SpecEdited(s, spec))
  {
    var v := Version(spec, Latest(s).status, s.clock, 0);
    AppendKeepsHistory(c, s, v);
    assert s.worker.Busy? ==> (s.versions + [v])[s.worker.inst.rv] == s.versions[s.worker.inst.rv];
  }

  lemma InitRecordKeeps(c: Config, s: State, fault: WriteFault)
    requires StatusInv(c, s) && At(s, AtInitWrite)
    ensures StatusInv(c, InitRecorded(s, fault))
  {
    WriteKeepsHistory(c, s, s.worker.inst, fault);
    WroteAndWent(c, s, s.worker.inst, fault, AtRotate);
  }

  /** A mid-pipeline write whose error is ignored leaves the reconcile where it may go on. */
  lemma WroteAndWent(c: Config, s: State, inst: Instance, fault: WriteFault, onward: Control)
    requires StatusInv(c, s) && s.worker.Busy? && MayFail(onward) && StagesFit(onward, inst.stages + 1)
    requires HistoryFits(c, s.(versions := WriteStatus(s.versions, s.clock, inst, fault).versions))
    requires inst.rv == s.worker.inst.rv && inst.status.phase == s.worker.inst.status.phase
    requires inst.status.healthy == s.worker.inst.status.healthy
    requires inst.status.phase == s.versions[inst.rv].status.phase && inst.status.phase != PhaseNone
    ensures var w := WriteStatus(s.versions, s.clock, inst, fault);
      StatusInv(c, s.(versions := w.versions, worker := Busy(onward, StageDone(w.inst))))
  {
  }

  lemma RotateKeeps(c: Config, s: State, rotated: Option<AdminStatus>, fault: WriteFault)
    requires StatusInv(c, s) && At(s, AtRotate)
    ensures StatusInv(c, AdminRotated(s, rotated, fault))
  {
    var inst := s.worker.inst;
    if rotated.None? {
      SameVersions(c, s, Goto(s, AtReadInternal, StageDone(inst)));
    } else {
      var inst' := inst.(status := inst.status.(admin := rotated.value));
      WriteKeepsHistory(c, s, inst', fault);
      WroteAndWent(c, s, inst', fault, AtReadInternal);
    }
  }

  /** A write after which the reconcile is over, or panics without a code. */
  lemma WroteAndEnded(c: Config, s: State, inst: Instance, fault: WriteFault, t: State)
    requires StatusInv(c, s) && inst.rv < |s.versions| && IsKept(inst.status)
    requires s.versions[inst.rv].status.phase != PhaseNone || inst.status.phase != PhaseRunning
    requires inst.rv == |s.versions| - 1 ==> MayStore(c, s, inst.status, inst.stages)
    requires var w := WriteStatus(s.versions, s.clock, inst, fault);
      && t.versions == w.versions && t.cache == s.cache && t.clock == s.clock
      && (t.worker.Idle? || t.worker == Busy(AtHandle(Plain), w.inst))
    ensures StatusInv(c, t)
  {
    WriteKeepsHistory(c, s, inst, fault);
  }

  lemma RunningMayBeStored(c: Config, s: State)
    requires StatusInv(c, s) && At(s, AtUpdateStatus)
    ensures var inst, status := s.worker.inst, RunningStatus(s.worker.inst.status, s.clock);
      && IsKept(status) && s.versions[inst.rv].status.phase != PhaseNone
      && (inst.rv == |s.versions| - 1 ==> MayStore(c, s, status, inst.stages))
  {
  }

  lemma RunningKeeps(c: Config, s: State, fault: WriteFault)
    requires StatusInv(c, s) && At(s, AtUpdateStatus)
    ensures StatusInv(c, RunningWritten(s, fault))
  {
    var inst := s.worker.inst;
    RunningMayBeStored(c, s);
    WroteAndEnded(c, s, inst.(status := RunningStatus(inst.status, s.clock)), fault, RunningWritten(s, fault));
  }

  /** What the handler writes for a panic may be stored, as the phase says where the reconcile had got to. */
  lemma ReportMayBeStored(c: Config, s: State)
    requires StatusInv(c, s) && s.worker.Busy? && s.worker.control.AtHandle?
    ensures var inst := s.worker.inst;
      var report := StatusToReport(c, s, inst, s.worker.control.failure);
      report.Some? ==>
        && IsKept(report.value)
        && (s.versions[inst.rv].status.phase != PhaseNone || report.value.phase != PhaseRunning)
        && (inst.rv == |s.versions| - 1 ==> MayStore(c, s, report.value, inst.stages))
  {
  }

  lemma HandleKeeps(c: Config, s: State, fault: WriteFault)
    requires StatusInv(c, s) && s.worker.Busy? && s.worker.control.AtHandle?
    ensures StatusInv(c, Handled(c, s, fault))
  {
    var inst := s.worker.inst;
    var report := StatusToReport(c, s, inst, s.worker.control.failure);
    if report.Some? {
      ReportMayBeStored(c, s);
      WroteAndEnded(c, s, inst.(status := report.value), fault, Handled(c, s, fault));
    }
  }

  /** Reading a source fails with a parameter error. */
  lemma InternalReadKeeps(c: Config, s: State)
    requires StatusInv(c, s) && At(s, AtReadInternal)
    ensures StatusInv(c, InternalRead(s))
  {
    GotoKeeps(c, s, AfterInternalRead(s.worker.inst.spec, s.sources), s.worker.inst);
  }

  lemma UserReadKeeps(c: Config, s: State)
    requires StatusInv(c, s) && s.worker.Busy? && s.worker.control.AtReadUser?
    ensures StatusInv(c, UserRead(s))
  {
    GotoKeeps(c, s, AfterUserRead(s.worker.inst.spec, s.sources, s.worker.control.internalContent), s.worker.inst);
  }

  lemma StsActKeeps(c: Config, s: State, fault: WriteFault)
    requires StatusInv(c, s) && s.worker.Busy? && s.worker.control.AtActSts?
    ensures StatusInv(c, StsActed(s, fault))
  {
    SameVersions(c, s, StsActed(s, fault));
  }

  lemma OutsideKeeps(c: Config, s: State, step: Step)
    requires StatusInv(c, s) && Enabled(c, s, step) && IsOutside(step)
    ensures StatusInv(c, Apply(c, s, step))
  {
    if step.EditSpec? {
      SpecEditKeeps(c, s, step.spec);
    } else {
      SameVersions(c, s, Apply(c, s, step));
    }
  }

  lemma PGEnsureKeeps(c: Config, s: State)
    requires StatusInv(c, s) && At(s, AtPGEnsure)
    ensures StatusInv(c, PGEnsured(s))
  {
    SameVersions(c, s, PGEnsured(s));
  }

  lemma SentinelKeeps(c: Config, s: State, next: Option<set<int>>, onward: Control, inst: Instance, fault: WriteFault)
    requires StatusInv(c, s) && s.worker.Busy? && StagesBefore(s.worker.control) == StagesBefore(onward) == 1
    requires inst == s.worker.inst.(status := s.worker.inst.status.(pg := inst.status.pg))
    ensures StatusInv(c, SentinelStep(s, next, onward, inst, fault))
  {
    SameVersions(c, s, SentinelStep(s, next, onward, inst, fault));
  }

  lemma PreCheckKeeps(c: Config, s: State)
    requires StatusInv(c, s) && At(s, AtPreCheck)
    ensures StatusInv(c, PreChecked(s))
  {
    SameVersions(c, s, PreChecked(s));
  }

  lemma FinalKeeps(c: Config, s: State, fault: WriteFault)
    requires StatusInv(c, s) && s.worker.Busy? && s.worker.control.AtWriteFinal?
    ensures StatusInv(c, FinalWritten(c, s, fault))
  {
    SameVersions(c, s, FinalWritten(c, s, fault));
  }

  lemma CheckKeeps(c: Config, s: State, conditions: seq<NacosCondition>, nacosVersion: string, verdict: Option<Failure>)
    requires StatusInv(c, s) && At(s, AtCheck) && (verdict.Some? ==> IsError(verdict.value))
    ensures StatusInv(c, Checked(s, conditions, nacosVersion, verdict))
  {
    SameVersions(c, s, Checked(s, conditions, nacosVersion, verdict));
  }

  /** Moving on without touching the status in memory, or panicking with an error. */
  lemma GotoKeeps(c: Config, s: State, control: Control, inst: Instance)
    requires StatusInv(c, s) && s.worker.Busy? && MayFail(s.worker.control)
    requires inst.(stages := 0) == s.worker.inst.(stages := 0)
    requires !control.AtPreCheck? && (control.AtHandle? ==> IsError(control.failure)) && StagesFit(control, inst.stages)
    ensures StatusInv(c, Goto(s, control, inst))
  {
    SameVersions(c, s, Goto(s, control, inst));
  }

  lemma GetStsKeeps(c: Config, s: State, desired: StatefulSet)
    requires StatusInv(c, s) && At(s, AtGetSts)
    ensures StatusInv(c, Goto(s, AtActSts(s.sts, desired), s.worker.inst))
  {
    GotoKeeps(c, s, AtActSts(s.sts, desired), s.worker.inst);
  }

  lemma ServicesKeep(c: Config, s: State)
    requires StatusInv(c, s) && At(s, AtServices)
    ensures StatusInv(c, Goto(s, AtCheck, StageDone(s.worker.inst)))
  {
    GotoKeeps(c, s, AtCheck, StageDone(s.worker.inst));
  }

  lemma StatementKeeps(c: Config, s: State, fault: WriteFault)
    requires StatusInv(c, s) && s.worker.Busy?
    ensures s.worker.control.AtInitCreate? ==> StatusInv(c, SentinelCreated(s, fault))
    ensures s.worker.control.AtInitDelete? ==> StatusInv(c, SentinelCleared(s, fault))
    ensures s.worker.control.AtInitInsert? ==> StatusInv(c, SentinelInserted(s, fault))
  {
    var inst := s.worker.inst;
    if s.worker.control.AtInitCreate? {
      SentinelKeeps(c, s, if s.sentinel.None? then Some({}) else s.sentinel, AtInitDelete, inst, fault);
    } else if s.worker.control.AtInitDelete? {
      SentinelKeeps(c, s, Some({}), AtInitInsert, inst, fault);
    } else if s.worker.control.AtInitInsert? {
      var version := DesiredVersion(inst.spec);
      SentinelKeeps(c, s, Some({version}), AtInitWrite,
                    inst.(status := inst.status.(pg := PGStatus(true, version, s.clock, "Success"))), fault);
    }
  }

  // ----- Every step, by the part of the machine that takes it -----

  lemma DatabaseKeeps(c: Config, s: State, step: Step)
    requires StatusInv(c, s) && Enabled(c, s, step) && IsDatabase(step)
    ensures StatusInv(c, Apply(c, s, step))
  {
    if step.PGEnsure? {
      PGEnsureKeeps(c, s);
    } else if step.InitWrite? {
      InitRecordKeeps(c, s, step.fault);
    } else if step.Rotate? {
      RotateKeeps(c, s, step.rotated, step.fault);
    } else {
      StatementKeeps(c, s, step.fault);
    }
  }

  lemma ConfigKeeps(c: Config, s: State, step: Step)
    requires StatusInv(c, s) && Enabled(c, s, step) && IsConfig(step)
    ensures StatusInv(c, Apply(c, s, step))
  {
    if step.ReadInternalConfig? {
      InternalReadKeeps(c, s);
    } else if step.ReadUserConfig? {
      UserReadKeeps(c, s);
    } else {
      FinalKeeps(c, s, step.fault);
    }
  }

  lemma WorkloadKeeps(c: Config, s: State, step: Step)
    requires StatusInv(c, s) && Enabled(c, s, step) && IsWorkload(step)
    ensures StatusInv(c, Apply(c, s, step))
  {
    if step.GetSts? {
      GetStsKeeps(c, s, step.desired);
    } else if step.EnsureServices? {
      ServicesKeep(c, s);
    } else {
      StsActKeeps(c, s, step.fault);
    }
  }

  lemma EntryKeeps(c: Config, s: State, step: Step)
    requires StatusInv(c, s) && Enabled(c, s, step) && IsEntry(step)
    ensures StatusInv(c, Apply(c, s, step))
  {
    if step.Load? {
      LoadKeeps(c, s);
    } else if step.PreCheck? {
      PreCheckKeeps(c, s);
    } else {
      GotoKeeps(c, s, AtHandle(step.failure), s.worker.inst);
    }
  }

  lemma VerdictKeeps(c: Config, s: State, step: Step)
    requires StatusInv(c, s) && Enabled(c, s, step) && IsVerdict(step)
    ensures StatusInv(c, Apply(c, s, step))
  {
    if step.Check? {
      CheckKeeps(c, s, step.conditions, step.nacosVersion, step.verdict);
    } else if step.WriteRunning? {
      RunningKeeps(c, s, step.fault);
    } else {
      HandleKeeps(c, s, step.fault);
    }
  }

  lemma StepKeepsStatus(c: Config, s: State, step: Step)
    requires StatusInv(c, s) && Enabled(c, s, step)
    ensures StatusInv(c, Apply(c, s, step))
  {
    if IsOutside(step) {
      OutsideKeeps(c, s, step);
    } else if IsDatabase(step) {
      DatabaseKeeps(c, s, step);
    } else if IsConfig(step) {
      ConfigKeeps(c, s, step);
    } else if IsWorkload(step) {
      WorkloadKeeps(c, s, step);
    } else if IsEntry(step) {
      EntryKeeps(c, s, step);
    } else {
      VerdictKeeps(c, s, step);
    }
  }

  lemma {:induction false} RunKeepsStatus(c: Config, s: State, steps: seq<Step>)
    requires StatusInv(c, s) && Legal(c, s, steps)
    ensures StatusInv(c, After(c, s, steps))
  {
    if steps != [] {
      var front := steps[..|steps| - 1];
      RunKeepsStatus(c, s, front);
      StepKeepsStatus(c, After(c, s, front), steps[|steps| - 1]);
    }
  }

  // ----- What follows for every run -----

  lemma {:induction false} RanMeaning(versions: seq<Version>)
    ensures EverRan(versions) <==> exists j :: 0 <= j < |versions| && versions[j].status.phase == PhaseRunning
  {
    if versions != [] {
      var front := versions[..|versions| - 1];
      RanMeaning(front);
      if EverRan(front) {
        var j :| 0 <= j < |front| && front[j].status.phase == PhaseRunning;
        assert versions[j].status.phase == PhaseRunning;
      }
      assert forall j :: 0 <= j < |front| ==> front[j] == versions[j];
    }
  }

  lemma {:induction false} FollowsAt(c: Config, versions: seq<Version>, i: nat)
    requires VersionsFit(c, versions) && i + 1 < |versions|
    ensures Follows(versions[i], versions[i + 1])
  {
    if i + 2 < |versions| {
      FollowsAt(c, versions[..|versions| - 1], i);
    }
  }

  lemma {:induction false} GraceAt(c: Config, versions: seq<Version>, i: nat)
    requires VersionsFit(c, versions) && i < |versions|
    ensures GraceKept(c, versions[..i], versions[i])
  {
    if i + 1 < |versions| {
      GraceAt(c, versions[..|versions| - 1], i);
      assert versions[..|versions| - 1][..i] == versions[..i];
    }
  }

  /** Healthy is never stale in the store, including the writes in mid-pipeline that do not recompute it. */
  lemma {:induction false} HealthyMeansRunning(c: Config, s0: State, steps: seq<Step>, s: State, i: nat)
    requires Init(c, s0) && Leads(c, s0, steps, s) && i < |s.versions|
    ensures s.versions[i].status.healthy <==> s.versions[i].status.phase == PhaseRunning
  {
    InitStatusInv(c, s0);
    RunKeepsStatus(c, s0, steps);
    VersionIsKept(c, s.versions, i);
  }

  /**
   The grace period: a stored Failed phase is either later than three minutes after creation or preceded by a
   stored Running phase.
   */
  lemma {:induction false} GracePeriod(c: Config, s0: State, steps: seq<Step>, s: State, i: nat)
    requires Init(c, s0) && Leads(c, s0, steps, s) && i < |s.versions|
    ensures s.versions[i].status.phase == PhaseFailed ==>
      || c.meta.creation + 180 < s.versions[i].storedAt
      || exists j :: 0 <= j < i && s.versions[j].status.phase == PhaseRunning
  {
    InitStatusInv(c, s0);
    RunKeepsStatus(c, s0, steps);
    GraceAt(c, s.versions, i);
    RanMeaning(s.versions[..i]);
  }

  /**
   Running is entered only by the write of the sixth stage of a reconcile whose first five stages returned, and a
   stored phase never becomes empty again.
   */
  lemma {:induction false} PhaseChanges(c: Config, s0: State, steps: seq<Step>, s: State, i: nat)
    requires Init(c, s0) && Leads(c, s0, steps, s) && i + 1 < |s.versions|
    ensures s.versions[i].status.phase != PhaseNone ==> s.versions[i + 1].status.phase != PhaseNone
    ensures s.versions[i + 1].status.phase == PhaseRunning && s.versions[i].status.phase != PhaseRunning ==>
      s.versions[i + 1].stages == 5
  {
    InitStatusInv(c, s0);
    RunKeepsStatus(c, s0, steps);
    FollowsAt(c, s.versions, i);
  }

  // ----- What the handler of panics stores -----

  /** The status says Failed, with this code and message, as of now. */
  predicate TellsFailure(status: NacosStatus, code: int, message: string, now: int) {
    && status.phase == PhaseFailed && !status.healthy
    && status.events != []
    && var last := status.events[|status.events| - 1];
       last.code == code && last.message == message && last.lastTransition == now
  }

  /** A write of a current object that takes effect leaves its status as the latest. */
  lemma WriteTakes(s: State, inst: Instance, fault: WriteFault)
    requires Formed(s) && inst.rv == |s.versions| - 1 && fault != Lost
    ensures var versions := WriteStatus(s.versions, s.clock, inst, fault).versions;
      versions != [] && versions[|versions| - 1].status == inst.status
  {
  }

  lemma LastTells(status: NacosStatus, code: int, message: string, now: int)
    ensures var failed := ExceptionStatus(status, code, message, now);
      && Tells(failed.events, Report(code, message, false, now))
      && failed == status.(phase := PhaseFailed, healthy := false, events := failed.events)
  {
  }

  /** The history after the report of a coded error on this instance. */
  function Reported(c: Config, s: State, inst: Instance, failure: Failure, fault: WriteFault): seq<Version>
    requires Formed(s)
  {
    match StatusToReport(c, s, inst, failure)
    case None => s.versions
    case Some(status) => WriteStatus(s.versions, s.clock, inst.(status := status), fault).versions
  }

  /** Once the phase has moved on from Creating or three minutes have passed since creation. */
  lemma FailureStored(c: Config, s: State, inst: Instance, code: int, message: string, fault: WriteFault)
    requires Formed(s) && code != CODE_NORMAL && inst.rv == |s.versions| - 1 && fault != Lost
    requires inst.status.phase != PhaseCreating || s.clock > c.meta.creation + 180
    ensures var versions := Reported(c, s, inst, Coded(code, message), fault);
      && versions != []
      && var stored := versions[|versions| - 1].status;
         && TellsFailure(stored, code, message, s.clock)
         && stored == inst.status.(phase := PhaseFailed, healthy := false, events := stored.events)
  {
    LastTells(inst.status, code, message, s.clock);
    WriteTakes(s, inst.(status := ExceptionStatus(inst.status, code, message, s.clock)), fault);
  }

  /**
   A coded error is stored as Failed exactly if the phase has moved on from Creating or three minutes have passed since
   creation, if the object is current and the write takes effect; else nothing is stored.
   */
  lemma FailureShown(c: Config, s: State, code: int, message: string, fault: WriteFault)
    requires Formed(s) && At(s, AtHandle(Coded(code, message))) && code != CODE_NORMAL
    requires s.worker.inst.rv == |s.versions| - 1 && fault != Lost
    ensures var before, after := s.versions, Handled(c, s, fault).versions;
      var due := s.worker.inst.status.phase != PhaseCreating || s.clock > c.meta.creation + 180;
      && after != []
      && (TellsFailure(after[|after| - 1].status, code, message, s.clock) <==>
            due || TellsFailure(before[|before| - 1].status, code, message, s.clock))
      && (!due ==> after == before)
  {
    var inst := s.worker.inst;
    assert Handled(c, s, fault).versions == Reported(c, s, inst, Coded(code, message), fault);
    if inst.status.phase != PhaseCreating || s.clock > c.meta.creation + 180 {
      FailureStored(c, s, inst, code, message, fault);
    }
  }

  /** Any other panic: the normal code stores the status in memory, a plain one nothing; nor does an outdated object. */
  lemma OtherPanics(c: Config, s: State, failure: Failure, fault: WriteFault)
    requires Formed(s) && At(s, AtHandle(failure))
    ensures failure.Plain? || fault == Lost || s.worker.inst.rv != |s.versions| - 1 ==>
      Handled(c, s, fault).versions == s.versions
    ensures failure.Coded? && failure.code == CODE_NORMAL && fault != Lost && s.worker.inst.rv == |s.versions| - 1 ==>
      var t, status := Handled(c, s, fault), s.worker.inst.status;
      t.versions != [] && Latest(t).status == status.(healthy := status.phase == PhaseRunning)
  {
  }
}
