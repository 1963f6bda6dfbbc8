/** No lost rollout: edits of the configuration sources reach final-config and the StatefulSet in every run. */
module MachineRollout {
  import opened Strings
  import opened Api
  import opened StatefulSets
  import opened Kind
  import opened Machine
  import Builder
  import Status

  // ----- What is owed, and what still announces work -----

  /** final-config holds the merge of the current sources. */
  predicate FinalStored(c: Config, sources: ConfigMaps, finals: map<string, string>, spec: NacosSpec) {
    && FinalContent(spec, sources).Ok?
    && FinalName(c.meta, spec) in finals
    && finals[FinalName(c.meta, spec)] == FinalContent(spec, sources).value
  }

  /** The StatefulSet agrees with one built for the digest of the merge of the current sources. */
  ghost predicate StsCurrent(c: Config, sources: ConfigMaps, sts: Option<StatefulSet>, spec: NacosSpec)
    requires FinalContent(spec, sources).Ok?
  {
    sts.Some? && exists d ::
      c.builds(spec, c.digest(FinalContent(spec, sources).value), d) && CheckSts(sts.value, d) == Keep
  }

  ghost predicate RolledOut(c: Config, s: State, spec: NacosSpec) {
    FinalStored(c, s.sources, s.finals, spec) && StsCurrent(c, s.sources, s.sts, spec)
  }

  /** The event of a source the resource refers to is on its way. */
  predicate SourceEventPending(spec: NacosSpec, pending: set<string>) {
    || (spec.userConfigRef.Some? && spec.userConfigRef.value.name in pending)
    || (spec.internalConfigRef.Some? && spec.internalConfigRef.value.name in pending)
  }

  /** Another reconcile is bound to come. */
  predicate Announced(s: State)
    requires s.versions != []
  {
    || s.queued || s.pendingSts
    || s.cache != |s.versions| - 1
    || SourceEventPending(Latest(s).spec, s.pendingMaps)
  }

  /** Another reconcile is bound to come, or the event of a source was dropped because listing failed. */
  predicate Unsettled(s: State)
    requires s.versions != []
  {
    Announced(s) || s.missed
  }

  // ----- The invariant -----

  /** While nothing announces further work, what the reconcile holds is still true of the store. */
  ghost predicate ControlCurrent(c: Config, s: State, control: Control, inst: Instance) {
    var spec := inst.spec;
    match control
    case AtReadUser(content) => ReadInternal(spec, s.sources) == Ok(content)
    case AtWriteFinal(content) => FinalContent(spec, s.sources) == Ok(content)
    case AtGetSts =>
      FinalStored(c, s.sources, s.finals, spec)
      && inst.status.configDigest == c.digest(FinalContent(spec, s.sources).value)
    case AtActSts(observed, desired) =>
      FinalStored(c, s.sources, s.finals, spec) && observed == s.sts
      && c.builds(spec, c.digest(FinalContent(spec, s.sources).value), desired)
    case AtServices => RolledOut(c, s, spec)
    case AtCheck => RolledOut(c, s, spec)
    case AtUpdateStatus => RolledOut(c, s, spec)
    case _ => true
  }

  ghost predicate WorkerCurrent(c: Config, s: State)
    requires s.versions != []
  {
    match s.worker
    case Idle => Managed(Latest(s).spec) ==> RolledOut(c, s, Latest(s).spec)
    case Busy(control, inst) =>
      inst.spec == Latest(s).spec && (Managed(inst.spec) ==> ControlCurrent(c, s, control, inst))
  }

  ghost predicate RolloutInv(c: Config, s: State) {
    Formed(s) && (Unsettled(s) || WorkerCurrent(c, s))
  }

  lemma InitRolloutInv(c: Config, s: State)
    requires Init(c, s)
    ensures RolloutInv(c, s)
  {
  }

  // ----- Users and watches -----

  lemma ReadElsewhere(ref: Option<ConfigMapRef>, default: string, a: ConfigMaps, b: ConfigMaps, name: string)
    requires ref.None? || ref.value.name != name
    requires forall k :: k != name ==> ((k in a <==> k in b) && (k in a ==> a[k] == b[k]))
    ensures ReadConfig(ref, default, a) == ReadConfig(ref, default, b)
  {
  }

  /** An edit of a ConfigMap the resource does not refer to changes nothing it reads. */
  lemma EditElsewhere(s: State, spec: NacosSpec, name: string, data: Option<map<string, string>>)
    requires !References(spec, name)
    ensures var t := SourceEdited(s, name, data);
      ReadInternal(spec, t.sources) == ReadInternal(spec, s.sources)
      && ReadUser(spec, t.sources) == ReadUser(spec, s.sources)
      && FinalContent(spec, t.sources) == FinalContent(spec, s.sources)
  {
    var t := SourceEdited(s, name, data);
    ReadElsewhere(spec.internalConfigRef, "internal.properties", t.sources, s.sources, name);
    ReadElsewhere(spec.userConfigRef, "user.properties", t.sources, s.sources, name);
  }

  lemma ControlElsewhere(c: Config, s: State, name: string, data: Option<map<string, string>>, control: Control,
                         inst: Instance)
    requires !References(inst.spec, name)
    ensures ControlCurrent(c, s, control, inst) <==> ControlCurrent(c, SourceEdited(s, name, data), control, inst)
  {
    EditElsewhere(s, inst.spec, name, data);
  }

  lemma RolledOutElsewhere(c: Config, s: State, spec: NacosSpec, name: string, data: Option<map<string, string>>)
    requires !References(spec, name)
    ensures RolledOut(c, s, spec) <==> RolledOut(c, SourceEdited(s, name, data), spec)
  {
    EditElsewhere(s, spec, name, data);
  }

  lemma SourceEditKeeps(c: Config, s: State, name: string, data: Option<map<string, string>>)
    requires RolloutInv(c, s)
    ensures RolloutInv(c, SourceEdited(s, name, data))
  {
    if !References(Latest(s).spec, name) && !Unsettled(s) {
      match s.worker
      case Idle => RolledOutElsewhere(c, s, Latest(s).spec, name, data);
      case Busy(control, inst) => ControlElsewhere(c, s, name, data, control, inst);
    }
  }

  lemma DeliverKeeps(c: Config, s: State, name: string, listOk: bool)
    requires RolloutInv(c, s)
    ensures RolloutInv(c, MapDelivered(s, name, listOk))
  {
    var t := MapDelivered(s, name, listOk);
    if !Unsettled(s) {
      assert WorkerCurrent(c, t) <==> WorkerCurrent(c, s);
    } else if s.cache == |s.versions| - 1 && listOk && !s.queued && !s.pendingSts && !s.missed {
      assert SourceEventPending(Latest(s).spec, s.pendingMaps);
      assert SourceEventPending(Latest(t).spec, t.pendingMaps) || References(Latest(s).spec, name);
    }
  }

  // ----- Steps -----

  /** Steps that leave the store, the events and the queue alone, save perhaps for a status that was stored. */
  lemma WorkerMoves(c: Config, s: State, t: State)
    requires RolloutInv(c, s) && Formed(t)
    requires t.sources == s.sources && t.finals == s.finals && t.sts == s.sts
    requires t.cache == s.cache && t.pendingMaps == s.pendingMaps && t.missed == s.missed
    requires t.pendingSts == s.pendingSts
    requires t.queued == s.queued
    requires s.versions <= t.versions && (t.versions == s.versions || s.cache < |t.versions| - 1)
    requires t.versions == s.versions && !Unsettled(s) ==> WorkerCurrent(c, t)
    ensures RolloutInv(c, t)
  {
  }

  lemma WriteGrows(s: State, inst: Instance, fault: WriteFault)
    requires Formed(s)
    ensures var w := WriteStatus(s.versions, s.clock, inst, fault);
      && s.versions <= w.versions && w.inst.spec == inst.spec
      && w.inst.status == inst.status
      && (w.versions == s.versions || s.cache < |w.versions| - 1)
  {
  }

  lemma LoadRolloutKeeps(c: Config, s: State)
    requires RolloutInv(c, s)
    ensures RolloutInv(c, Loaded(s))
  {
  }

  lemma InitWriteRolloutKeeps(c: Config, s: State, fault: WriteFault)
    requires RolloutInv(c, s) && At(s, AtInitWrite)
    ensures RolloutInv(c, InitRecorded(s, fault))
  {
    WriteGrows(s, s.worker.inst, fault);
    WorkerMoves(c, s, InitRecorded(s, fault));
  }

  lemma RotateRolloutKeeps(c: Config, s: State, rotated: Option<AdminStatus>, fault: WriteFault)
    requires RolloutInv(c, s) && At(s, AtRotate)
    ensures RolloutInv(c, AdminRotated(s, rotated, fault))
  {
    if rotated.Some? {
      var inst := s.worker.inst;
      WriteGrows(s, inst.(status := inst.status.(admin := rotated.value)), fault);
    }
    WorkerMoves(c, s, AdminRotated(s, rotated, fault));
  }

  lemma RunningRolloutKeeps(c: Config, s: State, fault: WriteFault)
    requires RolloutInv(c, s) && At(s, AtUpdateStatus)
    ensures RolloutInv(c, RunningWritten(s, fault))
  {
    var inst := s.worker.inst;
    WriteGrows(s, inst.(status := Status.RunningStatus(inst.status, s.clock)), fault);
    WorkerMoves(c, s, RunningWritten(s, fault));
  }

  lemma HandleRolloutKeeps(c: Config, s: State, fault: WriteFault)
    requires RolloutInv(c, s) && s.worker.Busy? && s.worker.control.AtHandle?
    ensures RolloutInv(c, Handled(c, s, fault))
  {
    var inst := s.worker.inst;
    var report := StatusToReport(c, s, inst, s.worker.control.failure);
    if report.Some? {
      WriteGrows(s, inst.(status := report.value), fault);
    }
  }

  lemma ReadKeeps(c: Config, s: State, t: State)
    requires RolloutInv(c, s) && s.worker.Busy?
    requires (At(s, AtReadInternal) && t == InternalRead(s)) || (s.worker.control.AtReadUser? && t == UserRead(s))
    ensures RolloutInv(c, t)
  {
    WorkerMoves(c, s, t);
  }

  lemma FinalWriteKeeps(c: Config, s: State, fault: WriteFault)
    requires RolloutInv(c, s) && s.worker.Busy? && s.worker.control.AtWriteFinal?
    ensures RolloutInv(c, FinalWritten(c, s, fault))
  {
  }

  lemma GetStsKeeps(c: Config, s: State, desired: StatefulSet)
    requires RolloutInv(c, s) && At(s, AtGetSts)
    requires c.builds(s.worker.inst.spec, s.worker.inst.status.configDigest, desired)
    ensures RolloutInv(c, Goto(s, AtActSts(s.sts, desired), s.worker.inst))
  {
    WorkerMoves(c, s, Goto(s, AtActSts(s.sts, desired), s.worker.inst));
  }

  /** Without a write the StatefulSet may only be moved past if it agrees with what was built. */
  lemma NoWriteKeeps(c: Config, s: State, fault: WriteFault)
    requires RolloutInv(c, s) && s.worker.Busy? && s.worker.control.AtActSts?
    requires StsActed(s, fault).sts == s.sts && StsActed(s, fault).pendingSts == s.pendingSts
    requires StsActed(s, fault).worker.control.AtServices? ==>
      var observed := s.worker.control.observed;
      observed.Some? && CheckSts(observed.value, s.worker.control.desired) == Keep
    ensures RolloutInv(c, StsActed(s, fault))
  {
    WorkerMoves(c, s, StsActed(s, fault));
  }

  lemma ActStsKeeps(c: Config, s: State, fault: WriteFault)
    requires RolloutInv(c, s) && s.worker.Busy? && s.worker.control.AtActSts?
    ensures RolloutInv(c, StsActed(s, fault))
  {
    var request := RequestFor(s.sts, s.worker.control.observed, s.worker.control.desired);
    if request.Put? && fault != Lost {
      assert StsActed(s, fault).pendingSts;
    } else {
      NoWriteKeeps(c, s, fault);
    }
  }

  lemma SentinelRolloutKeeps(c: Config, s: State, next: Option<set<int>>, onward: Control, inst: Instance,
                             fault: WriteFault)
    requires RolloutInv(c, s) && s.worker.Busy? && inst.spec == s.worker.inst.spec
    requires onward.AtInitDelete? || onward.AtInitInsert? || onward.AtInitWrite?
    ensures RolloutInv(c, SentinelStep(s, next, onward, inst, fault))
  {
    WorkerMoves(c, s, SentinelStep(s, next, onward, inst, fault));
  }

  lemma StatementRolloutKeeps(c: Config, s: State, fault: WriteFault)
    requires RolloutInv(c, s) && s.worker.Busy?
    ensures s.worker.control.AtInitCreate? ==> RolloutInv(c, SentinelCreated(s, fault))
    ensures s.worker.control.AtInitDelete? ==> RolloutInv(c, SentinelCleared(s, fault))
    ensures s.worker.control.AtInitInsert? ==> RolloutInv(c, SentinelInserted(s, fault))
  {
    var inst := s.worker.inst;
    if s.worker.control.AtInitCreate? {
      SentinelRolloutKeeps(
        c, s, if s.sentinel.None? then Some({}) else s.sentinel, AtInitDelete, inst, fault);
    } else if s.worker.control.AtInitDelete? {
      SentinelRolloutKeeps(c, s, Some({}), AtInitInsert, inst, fault);
    } else if s.worker.control.AtInitInsert? {
      var version := DesiredVersion(inst.spec);
      SentinelRolloutKeeps(
        c, s, Some({version}), AtInitWrite,
        inst.(status := inst.status.(pg := PGStatus(true, version, s.clock, "Success"))), fault);
    }
  }

  lemma PGEnsureRolloutKeeps(c: Config, s: State)
    requires RolloutInv(c, s) && Formed(s) && At(s, AtPGEnsure)
    ensures RolloutInv(c, PGEnsured(s))
  {
    WorkerMoves(c, s, PGEnsured(s));
  }

  lemma PreCheckRolloutKeeps(c: Config, s: State)
    requires RolloutInv(c, s) && At(s, AtPreCheck)
    ensures RolloutInv(c, PreChecked(s))
  {
    WorkerMoves(c, s, PreChecked(s));
  }

  lemma CheckRolloutKeeps(c: Config, s: State, conditions: seq<NacosCondition>, nacosVersion: string,
                          verdict: Option<Failure>)
    requires RolloutInv(c, s) && At(s, AtCheck)
    ensures RolloutInv(c, Checked(s, conditions, nacosVersion, verdict))
  {
    WorkerMoves(c, s, Checked(s, conditions, nacosVersion, verdict));
  }

  lemma GotoRolloutKeeps(c: Config, s: State, control: Control, inst: Instance)
    requires RolloutInv(c, s) && s.worker.Busy? && inst.spec == s.worker.inst.spec
    requires control.AtHandle? || (At(s, AtServices) && control.AtCheck?)
    ensures RolloutInv(c, Goto(s, control, inst))
  {
    WorkerMoves(c, s, Goto(s, control, inst));
  }

  // ----- Every step, by the part of the machine that takes it -----

  lemma OutsideRolloutKeeps(c: Config, s: State, step: Step)
    requires RolloutInv(c, s) && Enabled(c, s, step) && IsOutside(step)
    ensures RolloutInv(c, Apply(c, s, step))
  {
    if step.EditSource? {
      SourceEditKeeps(c, s, step.name, step.data);
    } else if step.DeliverMap? {
      DeliverKeeps(c, s, step.mapName, step.listOk);
    }
  }

  lemma DatabaseRolloutKeeps(c: Config, s: State, step: Step)
    requires RolloutInv(c, s) && Enabled(c, s, step) && IsDatabase(step)
    ensures RolloutInv(c, Apply(c, s, step))
  {
    if step.PGEnsure? {
      PGEnsureRolloutKeeps(c, s);
    } else if step.InitWrite? {
      InitWriteRolloutKeeps(c, s, step.fault);
    } else if step.Rotate? {
      RotateRolloutKeeps(c, s, step.rotated, step.fault);
    } else {
      StatementRolloutKeeps(c, s, step.fault);
    }
  }

  lemma ConfigRolloutKeeps(c: Config, s: State, step: Step)
    requires RolloutInv(c, s) && Enabled(c, s, step) && IsConfig(step)
    ensures RolloutInv(c, Apply(c, s, step))
  {
    if step.ReadInternalConfig? {
      ReadKeeps(c, s, InternalRead(s));
    } else if step.ReadUserConfig? {
      ReadKeeps(c, s, UserRead(s));
    } else {
      FinalWriteKeeps(c, s, step.fault);
    }
  }

  lemma WorkloadRolloutKeeps(c: Config, s: State, step: Step)
    requires RolloutInv(c, s) && Enabled(c, s, step) && IsWorkload(step)
    ensures RolloutInv(c, Apply(c, s, step))
  {
    if step.GetSts? {
      GetStsKeeps(c, s, step.desired);
    } else if step.ActSts? {
      ActStsKeeps(c, s, step.fault);
    } else {
      GotoRolloutKeeps(c, s, AtCheck, StageDone(s.worker.inst));
    }
  }

  lemma EntryRolloutKeeps(c: Config, s: State, step: Step)
    requires RolloutInv(c, s) && Enabled(c, s, step) && IsEntry(step)
    ensures RolloutInv(c, Apply(c, s, step))
  {
    if step.Load? {
      LoadRolloutKeeps(c, s);
    } else if step.PreCheck? {
      PreCheckRolloutKeeps(c, s);
    } else {
      GotoRolloutKeeps(c, s, AtHandle(step.failure), s.worker.inst);
    }
  }

  lemma VerdictRolloutKeeps(c: Config, s: State, step: Step)
    requires RolloutInv(c, s) && Enabled(c, s, step) && IsVerdict(step)
    ensures RolloutInv(c, Apply(c, s, step))
  {
    if step.Check? {
      CheckRolloutKeeps(c, s, step.conditions, step.nacosVersion, step.verdict);
    } else if step.WriteRunning? {
      RunningRolloutKeeps(c, s, step.fault);
    } else {
      HandleRolloutKeeps(c, s, step.fault);
    }
  }

  lemma {:induction false} StepKeepsRollout(c: Config, s: State, step: Step)
    requires RolloutInv(c, s) && Enabled(c, s, step)
    ensures RolloutInv(c, Apply(c, s, step))
  {
    if IsOutside(step) {
      OutsideRolloutKeeps(c, s, step);
    } else if IsDatabase(step) {
      DatabaseRolloutKeeps(c, s, step);
    } else if IsConfig(step) {
      ConfigRolloutKeeps(c, s, step);
    } else if IsWorkload(step) {
      WorkloadRolloutKeeps(c, s, step);
    } else if IsEntry(step) {
      EntryRolloutKeeps(c, s, step);
    } else {
      VerdictRolloutKeeps(c, s, step);
    }
  }

  lemma {:induction false} RunKeepsRollout(c: Config, s: State, steps: seq<Step>)
    requires RolloutInv(c, s) && Legal(c, s, steps)
    ensures RolloutInv(c, After(c, s, steps))
  {
    if steps != [] {
      var front := steps[..|steps| - 1];
      RunKeepsRollout(c, s, front);
      StepKeepsRollout(c, After(c, s, front), steps[|steps| - 1]);
    }
  }

  // ----- What follows for every run -----

  /** The machine with the operator's own builder. */
  ghost function Concrete(meta: Meta, digest: string -> string): Config {
    Config(meta, digest,
           (spec, configDigest, ss) => Builder.IsDesired(ss, meta, Builder.WithDefaults(spec), configDigest))
  }

  /**
   No lost rollout: in every state of every run in which the resource is neither being reconciled nor announced to
   be, a config-managed resource has the merge of its current sources in final-config, the digest of exactly that
   text in the annotations of its StatefulSet, and a StatefulSet agreeing with a build for it on all compared fields.
   */
  lemma {:induction false} NoLostRollout(meta: Meta, digest: string -> string, s0: State, steps: seq<Step>, s: State)
    requires Init(Concrete(meta, digest), s0) && Leads(Concrete(meta, digest), s0, steps, s)
    requires s.worker.Idle? && s.versions != [] && !Unsettled(s) && Managed(Latest(s).spec)
    ensures var spec := Latest(s).spec;
      var content := FinalContent(spec, s.sources);
      && content.Ok?
      && FinalName(meta, spec) in s.finals && s.finals[FinalName(meta, spec)] == content.value
      && s.sts.Some? && s.sts.value.annotations == Builder.Annotations(spec, digest(content.value))
      && exists d ::
           Builder.IsDesired(d, meta, Builder.WithDefaults(spec), digest(content.value)) && Agrees(s.sts.value, d)
  {
    var c := Concrete(meta, digest);
    InitRolloutInv(c, s0);
    RunKeepsRollout(c, s0, steps);
    var spec := Latest(s).spec;
    assert RolledOut(c, s, spec);
    var configDigest := digest(FinalContent(spec, s.sources).value);
    var d :| c.builds(spec, configDigest, d) && CheckSts(s.sts.value, d) == Keep;
    KeepIsAgreement(s.sts.value, d);
    AnnotationsOfBuild(meta, spec, configDigest, d);
  }

  lemma AnnotationsOfBuild(meta: Meta, spec: NacosSpec, configDigest: string, d: StatefulSet)
    requires Builder.IsDesired(d, meta, Builder.WithDefaults(spec), configDigest)
    ensures d.annotations == Builder.Annotations(spec, configDigest)
  {
  }

  /**
   Which edits are lost. From a rolled-out state with nothing on its way, after any edit or deletion of any ConfigMap
   and the delivery of its event, a reconcile is bound to come or the resource is still rolled out, exactly when the
   watch handler could list the resources and this one refers to the ConfigMap, or the merge is what it was.
   */
  lemma EditArrives(c: Config, s: State, name: string, data: Option<map<string, string>>, listOk: bool)
    requires Formed(s) && s.worker.Idle? && !Announced(s)
    requires RolledOut(c, s, Latest(s).spec) && Enabled(c, s, EditSource(name, data))
    ensures var t, spec := MapDelivered(SourceEdited(s, name, data), name, listOk), Latest(s).spec;
      && Leads(c, s, [EditSource(name, data), DeliverMap(name, listOk)], t)
      && (Announced(t) || RolledOut(c, t, spec) <==>
            (listOk && References(spec, name)) || FinalContent(spec, t.sources) == FinalContent(spec, s.sources))
  {
    var u := SourceEdited(s, name, data);
    var t := MapDelivered(u, name, listOk);
    LeadsTwo(c, s, EditSource(name, data), u, DeliverMap(name, listOk), t);
    AnnouncedExactly(s, name, data, listOk);
    RolledOutExactly(c, s, t, Latest(s).spec);
  }

  lemma AnnouncedExactly(s: State, name: string, data: Option<map<string, string>>, listOk: bool)
    requires Formed(s) && !Announced(s)
    ensures Announced(MapDelivered(SourceEdited(s, name, data), name, listOk)) <==>
      listOk && References(Latest(s).spec, name)
  {
  }

  lemma RolledOutExactly(c: Config, s: State, t: State, spec: NacosSpec)
    requires RolledOut(c, s, spec) && t.finals == s.finals && t.sts == s.sts
    ensures RolledOut(c, t, spec) <==> FinalContent(spec, t.sources) == FinalContent(spec, s.sources)
  {
  }

  /**
   So an edit or deletion of either source that changes the merge, or makes it impossible, is lost whenever the
   listing fails: nothing is on its way, and final-config does not hold the merge of the current sources.
   */
  lemma DroppedEventLosesRollout(c: Config, s: State, name: string, data: Option<map<string, string>>)
    returns (t: State)
    requires Formed(s) && s.worker.Idle? && !Announced(s)
    requires RolledOut(c, s, Latest(s).spec) && Enabled(c, s, EditSource(name, data))
    requires var spec := Latest(s).spec;
      FinalContent(spec, SourceEdited(s, name, data).sources) != FinalContent(spec, s.sources)
    ensures Leads(c, s, [EditSource(name, data), DeliverMap(name, false)], t)
    ensures Formed(t) && t.worker.Idle? && !Announced(t) && !FinalStored(c, t.sources, t.finals, Latest(t).spec)
  {
    EditArrives(c, s, name, data, false);
    t := MapDelivered(SourceEdited(s, name, data), name, false);
  }
}
