/** A configuration once rolled out stays so until somebody edits what it is made from. */
module MachineSteady {
  import opened Strings
  import opened Api
  import opened StatefulSets
  import opened Kind
  import opened Machine
  import opened MachineRollout
  import Builder
  import Status

  /** Any two builds for one spec and digest compare alike with every stored object. */
  ghost predicate BuildsAlike(c: Config) {
    forall spec, configDigest, d, e, stored ::
      c.builds(spec, configDigest, d) && c.builds(spec, configDigest, e) && CheckSts(stored, d) == Keep ==>
        CheckSts(stored, e) == Keep
  }

  lemma OperatorBuildsAlike(meta: Meta, digest: string -> string)
    ensures BuildsAlike(Concrete(meta, digest))
  {
    var c := Concrete(meta, digest);
    forall spec, configDigest, d, e, stored
      | c.builds(spec, configDigest, d) && c.builds(spec, configDigest, e) && CheckSts(stored, d) == Keep
      ensures CheckSts(stored, e) == Keep
    {
      SameComparison(meta, Builder.WithDefaults(spec), configDigest, d, e, stored);
    }
  }

  lemma SameComparison(meta: Meta, spec: NacosSpec, configDigest: string, d: StatefulSet, e: StatefulSet,
                       stored: StatefulSet)
    requires Builder.IsDesired(d, meta, spec, configDigest) && Builder.IsDesired(e, meta, spec, configDigest)
    requires CheckSts(stored, d) == Keep
    ensures CheckSts(stored, e) == Keep
  {
    Builder.DesiredHasContainer(e, meta, spec, configDigest);
    KeepIsAgreement(stored, d);
    KeepIsAgreement(stored, e);
  }

  /** The edits that may change what is to be rolled out, or what was. */
  predicate Disturbs(spec: NacosSpec, step: Step) {
    step.EditSpec? || step.EditSts? || (step.EditSource? && References(spec, step.name))
  }

  /** All versions the cache has got to or may still get to have this spec. */
  predicate SpecFrom(versions: seq<Version>, cache: nat, spec: NacosSpec) {
    forall i :: cache <= i < |versions| ==> versions[i].spec == spec
  }

  ghost predicate Steady(c: Config, s: State, spec: NacosSpec) {
    && Formed(s) && Managed(spec) && RolledOut(c, s, spec) && SpecFrom(s.versions, s.cache, spec)
    && (s.worker.Busy? ==> s.worker.inst.spec == spec && ControlCurrent(c, s, s.worker.control, s.worker.inst))
  }

  // ----- Steps -----

  /** A step that leaves the sources, final-config and the StatefulSet alone, and may store a status. */
  lemma SteadyMoves(c: Config, s: State, t: State, spec: NacosSpec)
    requires Steady(c, s, spec)
    requires t.sources == s.sources && t.finals == s.finals && t.sts == s.sts
    requires s.cache <= t.cache < |t.versions|
    requires t.versions == s.versions || (exists v: Version :: v.spec == spec && t.versions == s.versions + [v])
    requires t.worker.Busy? ==>
      t.worker.inst.spec == spec && ControlCurrent(c, s, t.worker.control, t.worker.inst)
    ensures Steady(c, t, spec)
  {
  }

  lemma WriteSteady(c: Config, s: State, inst: Instance, fault: WriteFault, t: State, spec: NacosSpec)
    requires Steady(c, s, spec) && inst.spec == spec
    requires t.sources == s.sources && t.finals == s.finals && t.sts == s.sts && t.cache == s.cache
    requires t.versions == WriteStatus(s.versions, s.clock, inst, fault).versions
    requires t.worker.Busy? ==>
      t.worker.inst.spec == spec && ControlCurrent(c, s, t.worker.control, t.worker.inst)
    ensures Steady(c, t, spec)
  {
    assert Proposed(s, inst).spec == spec;
    SteadyMoves(c, s, t, spec);
  }

  lemma EditKeepsSteady(c: Config, s: State, name: string, data: Option<map<string, string>>, spec: NacosSpec)
    requires Steady(c, s, spec) && !References(spec, name)
    ensures Steady(c, SourceEdited(s, name, data), spec)
  {
    RolledOutElsewhere(c, s, spec, name, data);
    if s.worker.Busy? {
      ControlElsewhere(c, s, name, data, s.worker.control, s.worker.inst);
    }
  }

  lemma ReadKeepsSteady(c: Config, s: State, spec: NacosSpec)
    requires Steady(c, s, spec) && s.worker.Busy?
    ensures At(s, AtReadInternal) ==> Steady(c, InternalRead(s), spec)
    ensures s.worker.control.AtReadUser? ==> Steady(c, UserRead(s), spec)
  {
    if At(s, AtReadInternal) {
      SteadyMoves(c, s, InternalRead(s), spec);
    } else if s.worker.control.AtReadUser? {
      SteadyMoves(c, s, UserRead(s), spec);
    }
  }

  /** What is written is what is there. */
  lemma FinalKeepsSteady(c: Config, s: State, fault: WriteFault, spec: NacosSpec)
    requires Steady(c, s, spec) && s.worker.Busy? && s.worker.control.AtWriteFinal?
    ensures Steady(c, FinalWritten(c, s, fault), spec)
  {
    var name := FinalName(c.meta, spec);
    assert s.finals[name := s.worker.control.content] == s.finals;
    SteadyMoves(c, s, FinalWritten(c, s, fault), spec);
  }

  /** The stored object agrees with any build for the current sources, so nothing is asked of the store. */
  lemma NothingToDo(c: Config, s: State, spec: NacosSpec)
    requires BuildsAlike(c) && Steady(c, s, spec) && s.worker.Busy? && s.worker.control.AtActSts?
    ensures RequestFor(s.sts, s.worker.control.observed, s.worker.control.desired) == NoRequest
  {
    var desired := s.worker.control.desired;
    var configDigest := c.digest(FinalContent(spec, s.sources).value);
    var d :| c.builds(spec, configDigest, d) && CheckSts(s.sts.value, d) == Keep;
    assert c.builds(spec, configDigest, desired);
  }

  lemma ActKeepsSteady(c: Config, s: State, fault: WriteFault, spec: NacosSpec)
    requires BuildsAlike(c) && Steady(c, s, spec) && s.worker.Busy? && s.worker.control.AtActSts?
    ensures Steady(c, StsActed(s, fault), spec)
  {
    NothingToDo(c, s, spec);
    SteadyMoves(c, s, StsActed(s, fault), spec);
  }

  lemma GotoKeepsSteady(c: Config, s: State, control: Control, inst: Instance, spec: NacosSpec)
    requires Steady(c, s, spec) && inst.spec == spec && ControlCurrent(c, s, control, inst)
    ensures Steady(c, Goto(s, control, inst), spec)
  {
    SteadyMoves(c, s, Goto(s, control, inst), spec);
  }

  // ----- Every step, by the part of the machine that takes it -----

  lemma OutsideKeepsSteady(c: Config, s: State, step: Step, spec: NacosSpec)
    requires Steady(c, s, spec) && Enabled(c, s, step) && IsOutside(step) && !Disturbs(spec, step)
    ensures Steady(c, Apply(c, s, step), spec)
  {
    if step.EditSource? {
      EditKeepsSteady(c, s, step.name, step.data, spec);
    } else {
      SteadyMoves(c, s, Apply(c, s, step), spec);
    }
  }

  lemma PGEnsureKeepsSteady(c: Config, s: State, spec: NacosSpec)
    requires Steady(c, s, spec) && At(s, AtPGEnsure)
    ensures Steady(c, PGEnsured(s), spec)
  {
    SteadyMoves(c, s, PGEnsured(s), spec);
  }

  lemma SentinelKeepsSteady(c: Config, s: State, next: Option<set<int>>, onward: Control, inst: Instance,
                            fault: WriteFault, spec: NacosSpec)
    requires Steady(c, s, spec) && s.worker.Busy? && inst.spec == spec
    requires onward.AtInitDelete? || onward.AtInitInsert? || onward.AtInitWrite?
    ensures Steady(c, SentinelStep(s, next, onward, inst, fault), spec)
  {
    SteadyMoves(c, s, SentinelStep(s, next, onward, inst, fault), spec);
  }

  lemma StatementKeepsSteady(c: Config, s: State, fault: WriteFault, spec: NacosSpec)
    requires Steady(c, s, spec) && s.worker.Busy?
    ensures s.worker.control.AtInitCreate? ==> Steady(c, SentinelCreated(s, fault), spec)
    ensures s.worker.control.AtInitDelete? ==> Steady(c, SentinelCleared(s, fault), spec)
    ensures s.worker.control.AtInitInsert? ==> Steady(c, SentinelInserted(s, fault), spec)
  {
    var inst := s.worker.inst;
    if s.worker.control.AtInitCreate? {
      SentinelKeepsSteady(
        c, s, if s.sentinel.None? then Some({}) else s.sentinel, AtInitDelete, inst, fault, spec);
    } else if s.worker.control.AtInitDelete? {
      SentinelKeepsSteady(c, s, Some({}), AtInitInsert, inst, fault, spec);
    } else if s.worker.control.AtInitInsert? {
      var version := DesiredVersion(inst.spec);
      SentinelKeepsSteady(
        c, s, Some({version}), AtInitWrite,
        inst.(status := inst.status.(pg := PGStatus(true, version, s.clock, "Success"))), fault, spec);
    }
  }

  lemma RotateKeepsSteady(c: Config, s: State, rotated: Option<AdminStatus>, fault: WriteFault, spec: NacosSpec)
    requires Steady(c, s, spec) && At(s, AtRotate)
    ensures Steady(c, AdminRotated(s, rotated, fault), spec)
  {
    var inst, t := s.worker.inst, AdminRotated(s, rotated, fault);
    if rotated.Some? {
      WriteSteady(c, s, inst.(status := inst.status.(admin := rotated.value)), fault, t, spec);
    } else {
      SteadyMoves(c, s, t, spec);
    }
  }

  lemma InitWriteKeepsSteady(c: Config, s: State, fault: WriteFault, spec: NacosSpec)
    requires Steady(c, s, spec) && At(s, AtInitWrite)
    ensures Steady(c, InitRecorded(s, fault), spec)
  {
    WriteSteady(c, s, s.worker.inst, fault, InitRecorded(s, fault), spec);
  }

  lemma DatabaseKeepsSteady(c: Config, s: State, step: Step, spec: NacosSpec)
    requires Steady(c, s, spec) && Enabled(c, s, step) && IsDatabase(step)
    ensures Steady(c, Apply(c, s, step), spec)
  {
    if step.PGEnsure? {
      PGEnsureKeepsSteady(c, s, spec);
    } else if step.InitWrite? {
      InitWriteKeepsSteady(c, s, step.fault, spec);
    } else if step.Rotate? {
      RotateKeepsSteady(c, s, step.rotated, step.fault, spec);
    } else {
      StatementKeepsSteady(c, s, step.fault, spec);
    }
  }

  lemma ConfigKeepsSteady(c: Config, s: State, step: Step, spec: NacosSpec)
    requires Steady(c, s, spec) && Enabled(c, s, step) && IsConfig(step)
    ensures Steady(c, Apply(c, s, step), spec)
  {
    if step.WriteFinal? {
      FinalKeepsSteady(c, s, step.fault, spec);
    } else {
      ReadKeepsSteady(c, s, spec);
    }
  }

  lemma WorkloadKeepsSteady(c: Config, s: State, step: Step, spec: NacosSpec)
    requires BuildsAlike(c) && Steady(c, s, spec) && Enabled(c, s, step) && IsWorkload(step)
    ensures Steady(c, Apply(c, s, step), spec)
  {
    if step.GetSts? {
      GotoKeepsSteady(c, s, AtActSts(s.sts, step.desired), s.worker.inst, spec);
    } else if step.ActSts? {
      ActKeepsSteady(c, s, step.fault, spec);
    } else {
      GotoKeepsSteady(c, s, AtCheck, StageDone(s.worker.inst), spec);
    }
  }

  lemma LoadKeepsSteady(c: Config, s: State, spec: NacosSpec)
    requires Steady(c, s, spec)
    ensures Steady(c, Loaded(s), spec)
  {
    SteadyMoves(c, s, Loaded(s), spec);
  }

  lemma PreCheckKeepsSteady(c: Config, s: State, spec: NacosSpec)
    requires Steady(c, s, spec) && At(s, AtPreCheck)
    ensures Steady(c, PreChecked(s), spec)
  {
    SteadyMoves(c, s, PreChecked(s), spec);
  }

  lemma EntryKeepsSteady(c: Config, s: State, step: Step, spec: NacosSpec)
    requires Steady(c, s, spec) && Enabled(c, s, step) && IsEntry(step)
    ensures Steady(c, Apply(c, s, step), spec)
  {
    if step.Load? {
      LoadKeepsSteady(c, s, spec);
    } else if step.PreCheck? {
      PreCheckKeepsSteady(c, s, spec);
    } else {
      GotoKeepsSteady(c, s, AtHandle(step.failure), s.worker.inst, spec);
    }
  }

  lemma CheckKeepsSteady(c: Config, s: State, conditions: seq<NacosCondition>, nacosVersion: string,
                         verdict: Option<Failure>, spec: NacosSpec)
    requires Steady(c, s, spec) && At(s, AtCheck)
    ensures Steady(c, Checked(s, conditions, nacosVersion, verdict), spec)
  {
    SteadyMoves(c, s, Checked(s, conditions, nacosVersion, verdict), spec);
  }

  lemma RunningKeepsSteady(c: Config, s: State, fault: WriteFault, spec: NacosSpec)
    requires Steady(c, s, spec) && At(s, AtUpdateStatus)
    ensures Steady(c, RunningWritten(s, fault), spec)
  {
    var inst := s.worker.inst;
    WriteSteady(
      c, s, inst.(status := Status.RunningStatus(inst.status, s.clock)), fault, RunningWritten(s, fault), spec);
  }

  lemma HandleKeepsSteady(c: Config, s: State, fault: WriteFault, spec: NacosSpec)
    requires Steady(c, s, spec) && s.worker.Busy? && s.worker.control.AtHandle?
    ensures Steady(c, Handled(c, s, fault), spec)
  {
    var inst := s.worker.inst;
    var report := StatusToReport(c, s, inst, s.worker.control.failure);
    if report.Some? {
      WriteSteady(c, s, inst.(status := report.value), fault, Handled(c, s, fault), spec);
    } else {
      SteadyMoves(c, s, Handled(c, s, fault), spec);
    }
  }

  lemma VerdictKeepsSteady(c: Config, s: State, step: Step, spec: NacosSpec)
    requires Steady(c, s, spec) && Enabled(c, s, step) && IsVerdict(step)
    ensures Steady(c, Apply(c, s, step), spec)
  {
    if step.Check? {
      CheckKeepsSteady(c, s, step.conditions, step.nacosVersion, step.verdict, spec);
    } else if step.WriteRunning? {
      RunningKeepsSteady(c, s, step.fault, spec);
    } else {
      HandleKeepsSteady(c, s, step.fault, spec);
    }
  }

  lemma StepKeepsSteady(c: Config, s: State, step: Step, spec: NacosSpec)
    requires BuildsAlike(c) && Steady(c, s, spec) && Enabled(c, s, step) && !Disturbs(spec, step)
    ensures Steady(c, Apply(c, s, step), spec)
  {
    if IsOutside(step) {
      OutsideKeepsSteady(c, s, step, spec);
    } else if IsDatabase(step) {
      DatabaseKeepsSteady(c, s, step, spec);
    } else if IsConfig(step) {
      ConfigKeepsSteady(c, s, step, spec);
    } else if IsWorkload(step) {
      WorkloadKeepsSteady(c, s, step, spec);
    } else if IsEntry(step) {
      EntryKeepsSteady(c, s, step, spec);
    } else {
      VerdictKeepsSteady(c, s, step, spec);
    }
  }

  lemma {:induction false} RunKeepsSteady(c: Config, s: State, steps: seq<Step>, spec: NacosSpec)
    requires BuildsAlike(c) && Steady(c, s, spec) && Legal(c, s, steps)
    requires forall step :: step in steps ==> !Disturbs(spec, step)
    ensures Steady(c, After(c, s, steps), spec)
  {
    if steps != [] {
      var front := steps[..|steps| - 1];
      RunKeepsSteady(c, s, front, spec);
      StepKeepsSteady(c, After(c, s, front), steps[|steps| - 1], spec);
    }
  }

  lemma {:induction false} SettledStaysRolledOut(c: Config, s0: State, before: seq<Step>, s: State, steps: seq<Step>,
                                                 t: State)
    requires BuildsAlike(c) && Init(c, s0) && Leads(c, s0, before, s)
    requires s.worker.Idle? && s.versions != [] && !Unsettled(s) && Managed(Latest(s).spec)
    requires Leads(c, s, steps, t) && forall step :: step in steps ==> !Disturbs(Latest(s).spec, step)
    ensures RolledOut(c, t, Latest(s).spec)
  {
    InitRolloutInv(c, s0);
    RunKeepsRollout(c, s0, before);
    RunKeepsSteady(c, s, steps, Latest(s).spec);
  }

  /**
   From every reachable settled state the configuration stays rolled out, through queued and running reconciles,
   whatever requests fail, restarts, stale caches and dropped events, until an edit of the spec, of the StatefulSet or
   of a ConfigMap the resource refers to.
   */
  lemma {:induction false} StaysRolledOut(meta: Meta, digest: string -> string, s0: State, before: seq<Step>, s: State,
                                          steps: seq<Step>, t: State)
    requires Init(Concrete(meta, digest), s0) && Leads(Concrete(meta, digest), s0, before, s)
    requires s.worker.Idle? && s.versions != [] && !Unsettled(s) && Managed(Latest(s).spec)
    requires Leads(Concrete(meta, digest), s, steps, t)
    requires forall step :: step in steps ==> !Disturbs(Latest(s).spec, step)
    ensures RolledOut(Concrete(meta, digest), t, Latest(s).spec)
  {
    OperatorBuildsAlike(meta, digest);
    SettledStaysRolledOut(Concrete(meta, digest), s0, before, s, steps, t);
  }
}
