/** What every undisturbed reconcile does to the store, that it gets to its end, and when it leaves nothing to do. */
module MachineSettles {
  import opened Strings
  import opened Api
  import opened StatefulSets
  import opened Kind
  import opened Machine
  import opened MachineRollout
  import opened MachineSteady
  import opened MachinePass
  import Postgres
  import Status

  // ----- Every undisturbed step keeps to the pass -----

  lemma DatabaseOnPass(c: Config, e: Surroundings, s0: State, spec: NacosSpec, s: State, step: Step)
    requires Begins(c, e, s0, spec) && OnPass(c, e, s0, spec, s)
    requires s.worker.Busy? && Enabled(c, s, step) && IsCalm(e, s, step) && IsDatabase(step)
    ensures OnPass(c, e, s0, spec, Apply(c, s, step))
  {
    if step.PGEnsure? {
      PGEnsureOnPass(c, e, s0, spec, s);
    } else if step.InitCreate? {
      CreateOnPass(c, e, s0, spec, s);
    } else if step.InitDelete? {
      DeleteOnPass(c, e, s0, spec, s);
    } else if step.InitInsert? {
      InsertOnPass(c, e, s0, spec, s);
    } else if step.InitWrite? {
      InitWriteOnPass(c, e, s0, spec, s);
    } else {
      RotateOnPass(c, e, s0, spec, s);
    }
  }

  lemma ConfigOnPass(c: Config, e: Surroundings, s0: State, spec: NacosSpec, s: State, step: Step)
    requires Begins(c, e, s0, spec) && OnPass(c, e, s0, spec, s)
    requires s.worker.Busy? && Enabled(c, s, step) && IsCalm(e, s, step) && IsConfig(step)
    ensures OnPass(c, e, s0, spec, Apply(c, s, step))
  {
    if step.ReadInternalConfig? {
      InternalOnPass(c, e, s0, spec, s);
    } else if step.ReadUserConfig? {
      UserOnPass(c, e, s0, spec, s);
    } else {
      FinalOnPass(c, e, s0, spec, s);
    }
  }

  lemma WorkloadOnPass(c: Config, e: Surroundings, s0: State, spec: NacosSpec, s: State, step: Step)
    requires Begins(c, e, s0, spec) && OnPass(c, e, s0, spec, s)
    requires s.worker.Busy? && Enabled(c, s, step) && IsCalm(e, s, step) && IsWorkload(step)
    ensures OnPass(c, e, s0, spec, Apply(c, s, step))
  {
    if step.GetSts? {
      GetOnPass(c, e, s0, spec, s, step.desired);
    } else if step.ActSts? {
      ActOnPass(c, e, s0, spec, s);
    } else {
      ServicesOnPass(c, e, s0, spec, s);
    }
  }

  lemma EntryOnPass(c: Config, e: Surroundings, s0: State, spec: NacosSpec, s: State, step: Step)
    requires Begins(c, e, s0, spec) && OnPass(c, e, s0, spec, s)
    requires s.worker.Busy? && Enabled(c, s, step) && IsCalm(e, s, step) && IsEntry(step)
    ensures OnPass(c, e, s0, spec, Apply(c, s, step))
  {
    if step.PreCheck? {
      PreCheckOnPass(c, e, s0, spec, s);
    } else {
      RemovedOnPass(c, e, s0, spec, s);
    }
  }

  lemma VerdictOnPass(c: Config, e: Surroundings, s0: State, spec: NacosSpec, s: State, step: Step)
    requires Begins(c, e, s0, spec) && OnPass(c, e, s0, spec, s)
    requires s.worker.Busy? && Enabled(c, s, step) && IsCalm(e, s, step) && IsVerdict(step)
    ensures OnPass(c, e, s0, spec, Apply(c, s, step))
  {
    if step.Check? {
      CheckOnPass(c, e, s0, spec, s);
    } else if step.WriteRunning? {
      RunningOnPass(c, e, s0, spec, s);
    } else {
      HandleOnPass(c, e, s0, spec, s);
    }
  }

  lemma StepOnPass(c: Config, e: Surroundings, s0: State, spec: NacosSpec, s: State, step: Step)
    requires Begins(c, e, s0, spec) && OnPass(c, e, s0, spec, s)
    requires s.worker.Busy? && Enabled(c, s, step) && IsCalm(e, s, step)
    ensures OnPass(c, e, s0, spec, Apply(c, s, step))
  {
    if IsDatabase(step) {
      DatabaseOnPass(c, e, s0, spec, s, step);
    } else if IsConfig(step) {
      ConfigOnPass(c, e, s0, spec, s, step);
    } else if IsWorkload(step) {
      WorkloadOnPass(c, e, s0, spec, s, step);
    } else if IsEntry(step) {
      EntryOnPass(c, e, s0, spec, s, step);
    } else {
      VerdictOnPass(c, e, s0, spec, s, step);
    }
  }

  /** The steps of one reconcile, with no event delivered. */
  predicate IsOnePass(steps: seq<Step>) {
    && steps != [] && steps[0] == Load
    && (forall i :: 0 < i < |steps| ==> steps[i] != Load)
    && (forall step :: step in steps ==> !IsDelivery(step))
  }

  /**
   What every undisturbed reconcile does, as far as it has got: when it is over the store is as HasPassed says, so the
   final-config, the StatefulSet, the stored status and whether the resource is queued again are determined.
   */
  lemma {:induction false} PassesFully(c: Config, e: Surroundings, s0: State, spec: NacosSpec, steps: seq<Step>,
                                       t: State)
    requires Begins(c, e, s0, spec) && Calmly(c, e, s0, steps, t) && IsOnePass(steps)
    ensures OnPass(c, e, s0, spec, t)
    ensures t.worker.Idle? ==> HasPassed(c, e, s0, spec, t)
  {
    var front, last := steps[..|steps| - 1], steps[|steps| - 1];
    if front == [] {
      LoadOnPass(c, e, s0, spec);
    } else {
      var s := After(c, s0, front);
      PassesFully(c, e, s0, spec, front, s);
      if s.worker.Busy? {
        StepOnPass(c, e, s0, spec, s, last);
      }
    }
  }

  // ----- It gets to the end -----

  /** How far from the end a reconcile is. */
  function Rank(control: Control): nat {
    match control
    case AtPreCheck => 16
    case AtPGEnsure => 15
    case AtInitCreate => 14
    case AtInitDelete => 13
    case AtInitInsert => 12
    case AtInitWrite => 11
    case AtRotate => 10
    case AtReadInternal => 9
    case AtReadUser(_) => 8
    case AtWriteFinal(_) => 7
    case AtGetSts => 6
    case AtActSts(_, _) => 5
    case AtServices => 4
    case AtCheck => 3
    case AtUpdateStatus => 2
    case AtHandle(_) => 1
  }

  lemma AppliedReplicas(c: Config, s0: State, spec: NacosSpec, sts: Option<StatefulSet>, pendingSts: bool)
    requires BuildsReplicas(c) && FinalContent(spec, s0.sources).Ok? && Applied(c, s0, spec, sts, pendingSts)
    ensures sts.Some? ==> sts.value.replicas == spec.replicas
  {
    var d :| IsBuild(c, s0, spec, d) && !Crashes(s0.sts, d) && sts == AfterCall(s0.sts, d);
    assert d.replicas == spec.replicas;
    if s0.sts.Some? {
      KeepIsAgreement(s0.sts.value, d);
    }
  }

  function StepAt(e: Surroundings, s: State, desired: StatefulSet): Step
    requires s.worker.Busy?
  {
    match s.worker.control
    case AtPreCheck => PreCheck
    case AtPGEnsure => PGEnsure
    case AtInitCreate => InitCreate(Fine)
    case AtInitDelete => InitDelete(Fine)
    case AtInitInsert => InitInsert(Fine)
    case AtInitWrite => InitWrite(Fine)
    case AtRotate => Rotate(Rotation(e, s.worker.inst.spec, s.worker.inst.status.admin, s.clock), Fine)
    case AtReadInternal => ReadInternalConfig
    case AtReadUser(_) => ReadUserConfig
    case AtWriteFinal(_) => WriteFinal(Fine)
    case AtGetSts => GetSts(desired)
    case AtActSts(_, _) => ActSts(Fine)
    case AtServices => EnsureServices
    case AtCheck =>
      if s.sts.None? then Fail(Plain)
      else Check(SeenConditions(e), SeenVersion(e, s.worker.inst.status.version), None)
    case AtUpdateStatus => WriteRunning(Fine)
    case AtHandle(_) => Handle(Fine)
  }

  predicate IsEarly(control: Control) {
    control.AtPreCheck? || control.AtPGEnsure? || control.AtInitCreate? || control.AtInitDelete?
    || control.AtInitInsert? || control.AtInitWrite? || control.AtRotate?
  }

  predicate IsStatement(control: Control) {
    control.AtInitCreate? || control.AtInitDelete? || control.AtInitInsert?
  }

  predicate IsMiddle(control: Control) {
    control.AtReadInternal? || control.AtReadUser? || control.AtWriteFinal? || control.AtGetSts?
  }

  lemma EarlyStep(c: Config, e: Surroundings, s: State, desired: StatefulSet)
    requires Formed(s) && s.worker.Busy? && IsEarly(s.worker.control)
    ensures var step := StepAt(e, s, desired); IsCalm(e, s, step) && step != Load && Enabled(c, s, step)
  {
  }

  lemma MiddleStep(c: Config, e: Surroundings, s0: State, spec: NacosSpec, s: State, desired: StatefulSet)
    requires Begins(c, e, s0, spec) && OnPass(c, e, s0, spec, s) && s.worker.Busy? && IsMiddle(s.worker.control)
    requires IsBuild(c, s0, spec, desired)
    ensures var step := StepAt(e, s, desired); IsCalm(e, s, step) && step != Load && Enabled(c, s, step)
  {
  }

  lemma CheckStep(c: Config, e: Surroundings, s0: State, spec: NacosSpec, s: State, desired: StatefulSet)
    requires Begins(c, e, s0, spec) && OnPass(c, e, s0, spec, s) && At(s, AtCheck)
    ensures var step := StepAt(e, s, desired); IsCalm(e, s, step) && step != Load && Enabled(c, s, step)
  {
    AppliedReplicas(c, s0, spec, s.sts, s.pendingSts);
  }

  lemma LateStep(c: Config, e: Surroundings, s: State, desired: StatefulSet)
    requires Formed(s) && s.worker.Busy? && !s.worker.control.AtCheck?
    requires !IsEarly(s.worker.control) && !IsMiddle(s.worker.control)
    ensures var step := StepAt(e, s, desired); IsCalm(e, s, step) && step != Load && Enabled(c, s, step)
  {
  }

  /** On a pass the next step is there to be taken. */
  lemma StepIsThere(c: Config, e: Surroundings, s0: State, spec: NacosSpec, s: State, desired: StatefulSet)
    requires Begins(c, e, s0, spec) && OnPass(c, e, s0, spec, s) && s.worker.Busy?
    requires IsBuild(c, s0, spec, desired)
    ensures var step := StepAt(e, s, desired); IsCalm(e, s, step) && step != Load && Enabled(c, s, step)
  {
    if IsEarly(s.worker.control) {
      EarlyStep(c, e, s, desired);
    } else if IsMiddle(s.worker.control) {
      MiddleStep(c, e, s0, spec, s, desired);
    } else if s.worker.control.AtCheck? {
      CheckStep(c, e, s0, spec, s, desired);
    } else {
      LateStep(c, e, s, desired);
    }
  }

  predicate Descends(s: State, t: State) {
    s.worker.Busy? && (t.worker.Busy? ==> Rank(t.worker.control) < Rank(s.worker.control))
  }

  lemma FirstDescend(s: State)
    requires Formed(s) && s.worker.Busy?
    ensures At(s, AtPreCheck) ==> Descends(s, PreChecked(s))
    ensures At(s, AtPGEnsure) ==> Descends(s, PGEnsured(s))
    ensures At(s, AtInitWrite) ==> Descends(s, InitRecorded(s, Fine))
  {
  }

  lemma StatementsDescend(s: State)
    requires s.worker.Busy?
    ensures At(s, AtInitCreate) ==> Descends(s, SentinelCreated(s, Fine))
    ensures At(s, AtInitDelete) ==> Descends(s, SentinelCleared(s, Fine))
    ensures At(s, AtInitInsert) ==> Descends(s, SentinelInserted(s, Fine))
  {
  }

  lemma RotateDescends(s: State, rotated: Option<AdminStatus>)
    requires Formed(s) && At(s, AtRotate)
    ensures Descends(s, AdminRotated(s, rotated, Fine))
  {
  }

  lemma EarlyDescends(c: Config, e: Surroundings, s: State, desired: StatefulSet)
    requires Formed(s) && s.worker.Busy? && IsEarly(s.worker.control) && !IsStatement(s.worker.control)
    requires Enabled(c, s, StepAt(e, s, desired))
    ensures Descends(s, Apply(c, s, StepAt(e, s, desired)))
  {
    if s.worker.control.AtRotate? {
      RotateDescends(s, Rotation(e, s.worker.inst.spec, s.worker.inst.status.admin, s.clock));
    } else {
      FirstDescend(s);
    }
  }

  lemma StatementStepDescends(c: Config, e: Surroundings, s: State, desired: StatefulSet)
    requires Formed(s) && s.worker.Busy? && IsStatement(s.worker.control) && Enabled(c, s, StepAt(e, s, desired))
    ensures Descends(s, Apply(c, s, StepAt(e, s, desired)))
  {
    StatementsDescend(s);
  }

  lemma ReadsDescend(s: State)
    requires s.worker.Busy?
    ensures At(s, AtReadInternal) ==> Descends(s, InternalRead(s))
    ensures s.worker.control.AtReadUser? ==> Descends(s, UserRead(s))
  {
  }

  lemma FinalDescends(c: Config, s: State)
    requires s.worker.Busy? && s.worker.control.AtWriteFinal?
    ensures Descends(s, FinalWritten(c, s, Fine))
  {
  }

  lemma MiddleDescends(c: Config, e: Surroundings, s: State, desired: StatefulSet)
    requires Formed(s) && s.worker.Busy? && IsMiddle(s.worker.control) && Enabled(c, s, StepAt(e, s, desired))
    ensures Descends(s, Apply(c, s, StepAt(e, s, desired)))
  {
    if s.worker.control.AtWriteFinal? {
      FinalDescends(c, s);
    } else if s.worker.control.AtGetSts? {
      assert Descends(s, Goto(s, AtActSts(s.sts, desired), s.worker.inst));
    } else {
      ReadsDescend(s);
    }
  }

  lemma ActDescends(s: State)
    requires s.worker.Busy? && s.worker.control.AtActSts?
    ensures Descends(s, StsActed(s, Fine))
  {
  }

  lemma EndDescends(c: Config, s: State)
    requires Formed(s) && s.worker.Busy?
    ensures At(s, AtUpdateStatus) ==> Descends(s, RunningWritten(s, Fine))
    ensures s.worker.control.AtHandle? ==> Descends(s, Handled(c, s, Fine))
  {
  }

  lemma CheckDescends(s: State, conditions: seq<NacosCondition>, nacosVersion: string)
    requires At(s, AtCheck)
    ensures Descends(s, Checked(s, conditions, nacosVersion, None))
    ensures Descends(s, Goto(s, AtHandle(Plain), s.worker.inst))
  {
  }

  lemma ServiceDescends(c: Config, e: Surroundings, s: State, desired: StatefulSet)
    requires Formed(s) && s.worker.Busy? && (s.worker.control.AtActSts? || s.worker.control.AtServices?)
    requires Enabled(c, s, StepAt(e, s, desired))
    ensures Descends(s, Apply(c, s, StepAt(e, s, desired)))
  {
    if s.worker.control.AtActSts? {
      ActDescends(s);
    } else {
      assert Descends(s, Goto(s, AtCheck, StageDone(s.worker.inst)));
    }
  }

  lemma LateDescends(c: Config, e: Surroundings, s: State, desired: StatefulSet)
    requires Formed(s) && s.worker.Busy? && !IsEarly(s.worker.control) && !IsMiddle(s.worker.control)
    requires !s.worker.control.AtActSts? && !s.worker.control.AtServices?
    requires Enabled(c, s, StepAt(e, s, desired))
    ensures Descends(s, Apply(c, s, StepAt(e, s, desired)))
  {
    if s.worker.control.AtCheck? {
      CheckDescends(s, SeenConditions(e), SeenVersion(e, s.worker.inst.status.version));
    } else {
      EndDescends(c, s);
    }
  }

  lemma StepDescends(c: Config, e: Surroundings, s: State, desired: StatefulSet)
    requires s.worker.Busy? && Enabled(c, s, StepAt(e, s, desired))
    ensures Descends(s, Apply(c, s, StepAt(e, s, desired)))
  {
    if IsStatement(s.worker.control) {
      StatementStepDescends(c, e, s, desired);
    } else if IsEarly(s.worker.control) {
      EarlyDescends(c, e, s, desired);
    } else if IsMiddle(s.worker.control) {
      MiddleDescends(c, e, s, desired);
    } else if s.worker.control.AtActSts? || s.worker.control.AtServices? {
      ServiceDescends(c, e, s, desired);
    } else {
      LateDescends(c, e, s, desired);
    }
  }

  /** From anywhere on a reconcile its undisturbed steps lead to its end. */
  lemma {:induction false} Finishes(c: Config, e: Surroundings, s0: State, spec: NacosSpec, s: State,
                                    desired: StatefulSet)
    returns (steps: seq<Step>, t: State)
    requires Begins(c, e, s0, spec) && OnPass(c, e, s0, spec, s) && IsBuild(c, s0, spec, desired)
    ensures Calmly(c, e, s, steps, t) && t.worker.Idle? && OnPass(c, e, s0, spec, t)
    decreases if s.worker.Idle? then 0 else Rank(s.worker.control)
  {
    if s.worker.Idle? {
      steps, t := [], s;
      CalmNone(c, e, s);
    } else {
      var step := StepAt(e, s, desired);
      StepIsThere(c, e, s0, spec, s, desired);
      StepOnPass(c, e, s0, spec, s, step);
      StepDescends(c, e, s, desired);
      CalmOne(c, e, s, step);
      var more;
      more, t := Finishes(c, e, s0, spec, Apply(c, s, step), desired);
      CalmOn(c, e, s, [step], Apply(c, s, step), more, t);
      steps := [step] + more;
    }
  }

  /** There is such a reconcile, for whichever build it applies. */
  lemma PassHappens(c: Config, e: Surroundings, s0: State, spec: NacosSpec, desired: StatefulSet)
    returns (steps: seq<Step>, t: State)
    requires Begins(c, e, s0, spec) && IsBuild(c, s0, spec, desired)
    ensures Calmly(c, e, s0, steps, t) && t.worker.Idle? && OnPass(c, e, s0, spec, t)
  {
    CalmOne(c, e, s0, Load);
    LoadOnPass(c, e, s0, spec);
    var more;
    more, t := Finishes(c, e, s0, spec, Loaded(s0), desired);
    CalmOn(c, e, s0, [Load], Loaded(s0), more, t);
    steps := [Load] + more;
  }

  // ----- When a reconcile leaves nothing to do -----

  function RunningReport(clock: int): Status.Report {
    Status.Report(CODE_NORMAL, "", true, clock)
  }

  predicate EndsWith(events: seq<Event>, r: Status.Report) {
    && events != []
    && var last := events[|events| - 1];
       last.code == r.code && last.message == r.message && last.lastTransition == r.now
  }

  /** Entering a report changes the log unless it is short enough and its last entry tells the same. */
  lemma LoggedSame(events: seq<Event>, r: Status.Report)
    ensures Status.Logged(events, r) == events <==> |events| <= Status.EVENT_MAX_SIZE && EndsWith(events, r)
  {
    if EndsWith(events, r) {
      RefreshesLast(events, r);
    }
    if |events| > Status.EVENT_MAX_SIZE {
      var kept := events[1..];
      assert kept[|kept| - 1] == events[|events| - 1];
    }
  }

  lemma RefreshesLast(events: seq<Event>, r: Status.Report)
    requires EndsWith(events, r)
    ensures Status.Extend(events, r) == events
  {
    var last := events[|events| - 1];
    assert last.(message := r.message, lastTransition := r.now) == last;
  }

  /** The stages that talk to the database leave the status alone exactly when neither has anything to do. */
  lemma DatabaseSame(e: Surroundings, spec: NacosSpec, status: NacosStatus, clock: int)
    ensures WithDatabase(e, spec, status, clock) == status <==>
      !InitDue(spec, status) && Rotation(e, spec, status.admin, clock).None?
  {
    BasedMeansInited(e, spec, status, clock);
    Postgres.RecordedIsSkipped(spec.adminSecretChecksum, e.secret, clock);
  }

  /** A status that tells all that an undisturbed reconcile at this time would tell. */
  predicate TellsAll(e: Surroundings, spec: NacosSpec, configDigest: string, status: NacosStatus, clock: int) {
    && status.phase == PhaseRunning && status.healthy
    && status.conditions == SeenConditions(e) && status.version == SeenVersion(e, status.version)
    && status.configDigest == configDigest
    && !InitDue(spec, status) && Rotation(e, spec, status.admin, clock).None?
    && |status.events| <= 10 && EndsWith(status.events, RunningReport(clock))
  }

  /** An undisturbed reconcile stores no new status exactly if the stored one tells all, the current second included. */
  lemma SameExactly(e: Surroundings, spec: NacosSpec, configDigest: string, status: NacosStatus, clock: int)
    ensures PassedStatus(e, spec, configDigest, status, clock) == status <==>
      TellsAll(e, spec, configDigest, status, clock)
  {
    OnlyDatabase(e, spec, status, clock, configDigest);
    DatabaseSame(e, spec, status, clock);
    LoggedSame(status.events, RunningReport(clock));
  }

  /** The resource is rolled out and waits, with nothing else on its way. */
  ghost predicate Near(c: Config, e: Surroundings, s: State, spec: NacosSpec) {
    && Begins(c, e, s, spec) && Latest(s).status.phase != PhaseNone
    && StsCurrent(c, s.sources, s.sts, spec) && s.pendingMaps == {} && !s.pendingSts
  }

  predicate Rests(s: State) {
    Formed(s) && s.worker.Idle? && !Unsettled(s)
  }

  /** Where the StatefulSet is current a reconcile neither writes it nor panics on it. */
  lemma NearSucceeds(c: Config, e: Surroundings, s0: State, spec: NacosSpec, t: State)
    requires BuildsAlike(c) && Near(c, e, s0, spec) && t.worker.Idle? && OnPass(c, e, s0, spec, t)
    ensures HasSucceeded(c, e, s0, spec, t) && StsAsBefore(s0, t)
  {
    var d :| IsBuild(c, s0, spec, d) && CheckSts(s0.sts.value, d) == Keep;
    assert forall b :: IsBuild(c, s0, spec, b) ==> CheckSts(s0.sts.value, b) == Keep;
  }

  /**
   Every undisturbed reconcile of a rolled-out resource leaves it at rest, storing nothing, exactly if the stored
   status told all; otherwise it stores one more version or several, and the resource is about to be queued again.
   */
  lemma {:induction false} PassRestsExactly(c: Config, e: Surroundings, s0: State, spec: NacosSpec, steps: seq<Step>,
                                            t: State)
    requires BuildsAlike(c) && Near(c, e, s0, spec)
    requires Calmly(c, e, s0, steps, t) && IsOnePass(steps) && t.worker.Idle?
    ensures Formed(t) && (Rests(t) <==> t.versions == s0.versions)
    ensures Rests(t) <==> TellsAll(e, spec, Digest(c, s0, spec), Latest(s0).status, s0.clock)
  {
    PassesFully(c, e, s0, spec, steps, t);
    NearSucceeds(c, e, s0, spec, t);
    SameExactly(e, spec, Digest(c, s0, spec), Latest(s0).status, s0.clock);
    RestsIfSame(c, e, s0, spec, t);
  }

  lemma RestsIfSame(c: Config, e: Surroundings, s0: State, spec: NacosSpec, t: State)
    requires Near(c, e, s0, spec) && t.worker.Idle? && OnPass(c, e, s0, spec, t)
    requires HasSucceeded(c, e, s0, spec, t) && StsAsBefore(s0, t)
    ensures Rests(t) <==> t.versions == s0.versions
    ensures Latest(t).status == PassedStatus(e, spec, Digest(c, s0, spec), Latest(s0).status, s0.clock)
    ensures t.versions == s0.versions <==> Latest(t).status == Latest(s0).status
  {
  }

  /**
   So the operator never comes to rest by reconciling in different seconds: every undisturbed reconcile in a later
   second than the one whose status is stored stores another version.
   */
  lemma {:induction false} LaterPassStores(c: Config, e: Surroundings, s0: State, spec: NacosSpec, steps: seq<Step>,
                                           t: State, before: NacosStatus, earlier: int)
    requires BuildsAlike(c) && Near(c, e, s0, spec) && earlier < s0.clock
    requires Latest(s0).status == PassedStatus(e, spec, Digest(c, s0, spec), before, earlier)
    requires Calmly(c, e, s0, steps, t) && IsOnePass(steps) && t.worker.Idle?
    ensures t.versions != s0.versions && Formed(t) && Unsettled(t)
  {
    PassRestsExactly(c, e, s0, spec, steps, t);
    PassedEndsWith(e, spec, Digest(c, s0, spec), before, earlier);
  }

  lemma PassedEndsWith(e: Surroundings, spec: NacosSpec, configDigest: string, status: NacosStatus, clock: int)
    ensures EndsWith(PassedStatus(e, spec, configDigest, status, clock).events, RunningReport(clock))
  {
    var kept := if |status.events| > Status.EVENT_MAX_SIZE then status.events[1..] else status.events;
    assert PassedStatus(e, spec, configDigest, status, clock).events == Status.Extend(kept, RunningReport(clock));
    ExtendEndsWith(kept, RunningReport(clock));
  }

  lemma ExtendEndsWith(events: seq<Event>, r: Status.Report)
    ensures EndsWith(Status.Extend(events, r), r) && |Status.Extend(events, r)| <= |events| + 1
  {
  }
}
