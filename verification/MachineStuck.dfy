/** A StatefulSet that cannot settle is never rolled out until somebody edits, so it settles exactly if it can. */
module MachineStuck {
  import opened Strings
  import opened Api
  import opened StatefulSets
  import opened Machine
  import opened MachineRollout
  import opened MachineSteady
  import opened MachinePass
  import opened MachineSettles
  import opened MachineRecovery
  import Status

  /** The stored object can settle for no build of this spec. */
  ghost predicate Hopeless(c: Config, spec: NacosSpec, sts: Option<StatefulSet>) {
    forall configDigest, d :: c.builds(spec, configDigest, d) ==> !CanSettle(sts, d)
  }

  /** What a reconcile is about to apply is a build of this spec, and what it observed is still stored. */
  ghost predicate Applies(c: Config, spec: NacosSpec, sts: Option<StatefulSet>, control: Control) {
    match control
    case AtActSts(observed, desired) => observed == sts && exists configDigest :: c.builds(spec, configDigest, desired)
    case _ => true
  }

  ghost predicate Stuck(c: Config, s: State, spec: NacosSpec) {
    && Formed(s) && SpecFrom(s.versions, s.cache, spec) && Hopeless(c, spec, s.sts)
    && (s.worker.Busy? ==> s.worker.inst.spec == spec && Applies(c, spec, s.sts, s.worker.control))
  }

  lemma StuckMoves(c: Config, s: State, t: State, spec: NacosSpec)
    requires Stuck(c, s, spec) && t.sts == s.sts && s.cache <= t.cache < |t.versions|
    requires t.versions == s.versions || (exists v: Version :: v.spec == spec && t.versions == s.versions + [v])
    requires t.worker.Busy? ==> t.worker.inst.spec == spec && Applies(c, spec, s.sts, t.worker.control)
    ensures Stuck(c, t, spec)
  {
  }

  lemma WriteStuck(c: Config, s: State, inst: Instance, fault: WriteFault, t: State, spec: NacosSpec)
    requires Stuck(c, s, spec) && t.sts == s.sts && t.cache == s.cache
    requires t.versions == WriteStatus(s.versions, s.clock, inst, fault).versions
    requires t.worker.Busy? ==> t.worker.inst.spec == spec && !t.worker.control.AtActSts?
    ensures Stuck(c, t, spec)
  {
    assert Proposed(s, inst).spec == spec;
    StuckMoves(c, s, t, spec);
  }

  /** Whatever the request does, the object is as hopeless as before. */
  lemma ActStuck(c: Config, s: State, fault: WriteFault, spec: NacosSpec)
    requires SettlesAlike(c) && Stuck(c, s, spec) && s.worker.Busy? && s.worker.control.AtActSts?
    ensures Stuck(c, StsActed(s, fault), spec)
  {
    var t, desired := StsActed(s, fault), s.worker.control.desired;
    if t.sts != s.sts {
      HopelessStays(c, spec, s.sts, desired);
      assert t.sts == AfterCall(s.sts, desired);
    }
  }

  lemma HopelessStays(c: Config, spec: NacosSpec, sts: Option<StatefulSet>, desired: StatefulSet)
    requires SettlesAlike(c) && Hopeless(c, spec, sts) && exists configDigest :: c.builds(spec, configDigest, desired)
    ensures Hopeless(c, spec, AfterCall(sts, desired))
  {
    var configDigest :| c.builds(spec, configDigest, desired);
    NeverSettles(1, sts, desired);
    assert AfterCalls(1, sts, desired) == AfterCall(AfterCalls(0, sts, desired), desired);
  }

  lemma GotoStuck(c: Config, s: State, control: Control, inst: Instance, spec: NacosSpec)
    requires Stuck(c, s, spec) && inst.spec == spec && Applies(c, spec, s.sts, control)
    ensures Stuck(c, Goto(s, control, inst), spec)
  {
    StuckMoves(c, s, Goto(s, control, inst), spec);
  }

  lemma OutsideStuck(c: Config, s: State, step: Step, spec: NacosSpec)
    requires Stuck(c, s, spec) && Enabled(c, s, step) && IsOutside(step) && !step.EditSpec? && !step.EditSts?
    ensures Stuck(c, Apply(c, s, step), spec)
  {
    StuckMoves(c, s, Apply(c, s, step), spec);
  }

  lemma SentinelStuck(c: Config, s: State, next: Option<set<int>>, onward: Control, inst: Instance, fault: WriteFault,
                      spec: NacosSpec)
    requires Stuck(c, s, spec) && s.worker.Busy? && inst.spec == spec && !onward.AtActSts?
    ensures Stuck(c, SentinelStep(s, next, onward, inst, fault), spec)
  {
    StuckMoves(c, s, SentinelStep(s, next, onward, inst, fault), spec);
  }

  lemma StatementStuck(c: Config, s: State, fault: WriteFault, spec: NacosSpec)
    requires Stuck(c, s, spec) && s.worker.Busy?
    ensures s.worker.control.AtInitCreate? ==> Stuck(c, SentinelCreated(s, fault), spec)
    ensures s.worker.control.AtInitDelete? ==> Stuck(c, SentinelCleared(s, fault), spec)
    ensures s.worker.control.AtInitInsert? ==> Stuck(c, SentinelInserted(s, fault), spec)
  {
    var inst := s.worker.inst;
    if s.worker.control.AtInitCreate? {
      SentinelStuck(c, s, if s.sentinel.None? then Some({}) else s.sentinel, AtInitDelete, inst, fault, spec);
    } else if s.worker.control.AtInitDelete? {
      SentinelStuck(c, s, Some({}), AtInitInsert, inst, fault, spec);
    } else if s.worker.control.AtInitInsert? {
      var version := DesiredVersion(inst.spec);
      SentinelStuck(c, s, Some({version}), AtInitWrite,
                    inst.(status := inst.status.(pg := PGStatus(true, version, s.clock, "Success"))), fault, spec);
    }
  }

  lemma PGEnsureStuck(c: Config, s: State, spec: NacosSpec)
    requires Stuck(c, s, spec) && At(s, AtPGEnsure)
    ensures Stuck(c, PGEnsured(s), spec)
  {
    StuckMoves(c, s, PGEnsured(s), spec);
  }

  lemma InitWriteStuck(c: Config, s: State, fault: WriteFault, spec: NacosSpec)
    requires Stuck(c, s, spec) && At(s, AtInitWrite)
    ensures Stuck(c, InitRecorded(s, fault), spec)
  {
    WriteStuck(c, s, s.worker.inst, fault, InitRecorded(s, fault), spec);
  }

  lemma RotateStuck(c: Config, s: State, rotated: Option<AdminStatus>, fault: WriteFault, spec: NacosSpec)
    requires Stuck(c, s, spec) && At(s, AtRotate)
    ensures Stuck(c, AdminRotated(s, rotated, fault), spec)
  {
    var inst, t := s.worker.inst, AdminRotated(s, rotated, fault);
    if rotated.Some? {
      WriteStuck(c, s, inst.(status := inst.status.(admin := rotated.value)), fault, t, spec);
    } else {
      StuckMoves(c, s, t, spec);
    }
  }

  lemma DatabaseStuck(c: Config, s: State, step: Step, spec: NacosSpec)
    requires Stuck(c, s, spec) && Enabled(c, s, step) && IsDatabase(step)
    ensures Stuck(c, Apply(c, s, step), spec)
  {
    if step.PGEnsure? {
      PGEnsureStuck(c, s, spec);
    } else if step.InitWrite? {
      InitWriteStuck(c, s, step.fault, spec);
    } else if step.Rotate? {
      RotateStuck(c, s, step.rotated, step.fault, spec);
    } else {
      StatementStuck(c, s, step.fault, spec);
    }
  }

  lemma FinalStuck(c: Config, s: State, fault: WriteFault, spec: NacosSpec)
    requires Stuck(c, s, spec) && s.worker.Busy? && s.worker.control.AtWriteFinal?
    ensures Stuck(c, FinalWritten(c, s, fault), spec)
  {
    StuckMoves(c, s, FinalWritten(c, s, fault), spec);
  }

  lemma ConfigStuck(c: Config, s: State, step: Step, spec: NacosSpec)
    requires Stuck(c, s, spec) && Enabled(c, s, step) && IsConfig(step)
    ensures Stuck(c, Apply(c, s, step), spec)
  {
    var inst := s.worker.inst;
    if step.ReadInternalConfig? {
      GotoStuck(c, s, AfterInternalRead(inst.spec, s.sources), inst, spec);
    } else if step.ReadUserConfig? {
      GotoStuck(c, s, AfterUserRead(inst.spec, s.sources, s.worker.control.internalContent), inst, spec);
    } else {
      FinalStuck(c, s, step.fault, spec);
    }
  }

  lemma WorkloadStuck(c: Config, s: State, step: Step, spec: NacosSpec)
    requires SettlesAlike(c) && Stuck(c, s, spec) && Enabled(c, s, step) && IsWorkload(step)
    ensures Stuck(c, Apply(c, s, step), spec)
  {
    if step.GetSts? {
      GotoStuck(c, s, AtActSts(s.sts, step.desired), s.worker.inst, spec);
    } else if step.ActSts? {
      ActStuck(c, s, step.fault, spec);
    } else {
      GotoStuck(c, s, AtCheck, StageDone(s.worker.inst), spec);
    }
  }

  lemma LoadStuck(c: Config, s: State, spec: NacosSpec)
    requires Stuck(c, s, spec)
    ensures Stuck(c, Loaded(s), spec)
  {
    StuckMoves(c, s, Loaded(s), spec);
  }

  lemma PreCheckStuck(c: Config, s: State, spec: NacosSpec)
    requires Stuck(c, s, spec) && At(s, AtPreCheck)
    ensures Stuck(c, PreChecked(s), spec)
  {
    StuckMoves(c, s, PreChecked(s), spec);
  }

  lemma EntryStuck(c: Config, s: State, step: Step, spec: NacosSpec)
    requires Stuck(c, s, spec) && Enabled(c, s, step) && IsEntry(step)
    ensures Stuck(c, Apply(c, s, step), spec)
  {
    if step.Load? {
      LoadStuck(c, s, spec);
    } else if step.PreCheck? {
      PreCheckStuck(c, s, spec);
    } else {
      GotoStuck(c, s, AtHandle(step.failure), s.worker.inst, spec);
    }
  }

  lemma CheckStuck(c: Config, s: State, conditions: seq<NacosCondition>, nacosVersion: string,
                   verdict: Option<Failure>, spec: NacosSpec)
    requires Stuck(c, s, spec) && At(s, AtCheck)
    ensures Stuck(c, Checked(s, conditions, nacosVersion, verdict), spec)
  {
    StuckMoves(c, s, Checked(s, conditions, nacosVersion, verdict), spec);
  }

  lemma RunningStuck(c: Config, s: State, fault: WriteFault, spec: NacosSpec)
    requires Stuck(c, s, spec) && At(s, AtUpdateStatus)
    ensures Stuck(c, RunningWritten(s, fault), spec)
  {
    var inst := s.worker.inst;
    WriteStuck(
      c, s, inst.(status := Status.RunningStatus(inst.status, s.clock)), fault, RunningWritten(s, fault), spec);
  }

  lemma HandleStuck(c: Config, s: State, fault: WriteFault, spec: NacosSpec)
    requires Stuck(c, s, spec) && s.worker.Busy? && s.worker.control.AtHandle?
    ensures Stuck(c, Handled(c, s, fault), spec)
  {
    var inst := s.worker.inst;
    var report := StatusToReport(c, s, inst, s.worker.control.failure);
    if report.Some? {
      WriteStuck(c, s, inst.(status := report.value), fault, Handled(c, s, fault), spec);
    } else {
      StuckMoves(c, s, Handled(c, s, fault), spec);
    }
  }

  lemma VerdictStuck(c: Config, s: State, step: Step, spec: NacosSpec)
    requires Stuck(c, s, spec) && Enabled(c, s, step) && IsVerdict(step)
    ensures Stuck(c, Apply(c, s, step), spec)
  {
    if step.Check? {
      CheckStuck(c, s, step.conditions, step.nacosVersion, step.verdict, spec);
    } else if step.WriteRunning? {
      RunningStuck(c, s, step.fault, spec);
    } else {
      HandleStuck(c, s, step.fault, spec);
    }
  }

  lemma StepStuck(c: Config, s: State, step: Step, spec: NacosSpec)
    requires SettlesAlike(c) && Stuck(c, s, spec) && Enabled(c, s, step) && !step.EditSpec? && !step.EditSts?
    ensures Stuck(c, Apply(c, s, step), spec)
  {
    if IsOutside(step) {
      OutsideStuck(c, s, step, spec);
    } else if IsDatabase(step) {
      DatabaseStuck(c, s, step, spec);
    } else if IsConfig(step) {
      ConfigStuck(c, s, step, spec);
    } else if IsWorkload(step) {
      WorkloadStuck(c, s, step, spec);
    } else if IsEntry(step) {
      EntryStuck(c, s, step, spec);
    } else {
      VerdictStuck(c, s, step, spec);
    }
  }

  lemma {:induction false} RunStuck(c: Config, s: State, steps: seq<Step>, spec: NacosSpec)
    requires SettlesAlike(c) && Stuck(c, s, spec) && Legal(c, s, steps)
    requires forall step :: step in steps ==> !step.EditSpec? && !step.EditSts?
    ensures Stuck(c, After(c, s, steps), spec)
  {
    if steps != [] {
      var front := steps[..|steps| - 1];
      RunStuck(c, s, front, spec);
      StepStuck(c, After(c, s, front), steps[|steps| - 1], spec);
    }
  }

  lemma StuckIsNotCurrent(c: Config, s: State, spec: NacosSpec)
    requires Stuck(c, s, spec)
    ensures !RolledOut(c, s, spec)
  {
  }

  /**
   From a restart on a StatefulSet that cannot settle for a build of the spec, no run in which spec and StatefulSet are
   left alone ever has the configuration rolled out: whatever the sources become and whatever fails or succeeds.
   */
  lemma {:induction false} NeverRollsOut(c: Config, s: State, steps: seq<Step>, t: State, configDigest: string,
                                         desired: StatefulSet)
    requires IsUniform(c) && Formed(s) && c.builds(Latest(s).spec, configDigest, desired)
    requires !CanSettle(s.sts, desired) && Leads(c, Restarted(s), steps, t)
    requires forall step :: step in steps ==> !step.EditSpec? && !step.EditSts?
    ensures !RolledOut(c, t, Latest(s).spec)
  {
    RunStuck(c, Restarted(s), steps, Latest(s).spec);
    StuckIsNotCurrent(c, t, Latest(s).spec);
  }

  lemma {:induction false} CalmEditsNothing(c: Config, e: Surroundings, s: State, steps: seq<Step>)
    requires Legal(c, s, steps) && CalmSteps(c, e, s, steps)
    ensures forall step :: step in steps ==> !step.EditSpec? && !step.EditSts?
  {
    if steps != [] {
      CalmEditsNothing(c, e, s, steps[..|steps| - 1]);
    }
  }

  ghost predicate SettlesCalmly(c: Config, e: Surroundings, s: State, spec: NacosSpec) {
    exists steps: seq<Step>, t: State :: Calmly(c, e, s, steps, t) && Rests(t) && RolledOut(c, t, spec)
  }

  /**
   Exactly when a restart helps: from every reachable state in which the sources can be merged and the pods are healthy,
   undisturbed reconciles after a restart settle the resource if and only if its StatefulSet can settle, which
   StatefulSets.CanSettle reads off the stored object and the desired one.
   */
  lemma {:induction false} SettlesExactly(c: Config, e: Surroundings, s0: State, before: seq<Step>, s: State,
                                          desired: StatefulSet)
    requires IsUniform(c) && Init(c, s0) && Leads(c, s0, before, s) && Formed(s)
    requires CanMerge(c, Latest(s).spec, s.sources) && IsHealthy(e, Latest(s).spec.replicas)
    requires IsBuild(c, s, Latest(s).spec, desired)
    ensures SettlesCalmly(c, e, Restarted(s), Latest(s).spec) <==> CanSettle(s.sts, desired)
  {
    var spec := Latest(s).spec;
    if CanSettle(s.sts, desired) {
      var steps, t := EveryStateSettles(c, e, s0, before, s, desired);
    } else if SettlesCalmly(c, e, Restarted(s), spec) {
      var steps, t :| Calmly(c, e, Restarted(s), steps, t) && Rests(t) && RolledOut(c, t, spec);
      CalmEditsNothing(c, e, Restarted(s), steps);
      NeverRollsOut(c, s, steps, t, Digest(c, s, spec), desired);
    }
  }
}
