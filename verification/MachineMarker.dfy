/** The init marker: whether status.pg.initialized can be trusted about the sentinel table. */
module MachineMarker {
  import opened Strings
  import opened Api
  import opened StatefulSets
  import opened Machine
  import Status

  predicate Records(pg: PGStatus, sentinel: Option<set<int>>) {
    pg.initialized ==> sentinel == Some({pg.initVersion})
  }

  /** Every stored marker is true of the table. */
  predicate Agree(versions: seq<Version>, sentinel: Option<set<int>>) {
    forall i :: 0 <= i < |versions| ==> Records(versions[i].status.pg, sentinel)
  }

  /** A stored marker is never changed again. */
  predicate Frozen(versions: seq<Version>) {
    && versions != []
    && var front, v := versions[..|versions| - 1], versions[|versions| - 1];
       front != [] ==> Frozen(front) && Continues(front[|front| - 1].status.pg, v.status.pg)
  }

  predicate Continues(before: PGStatus, after: PGStatus) {
    before.initialized ==> after == before
  }

  predicate InInit(control: Control) {
    control.AtInitCreate? || control.AtInitDelete? || control.AtInitInsert?
  }

  /** In every run, whether the cache is up to date or not. */
  predicate FrozenInv(s: State) {
    && Formed(s) && Frozen(s.versions)
    && (s.worker.Busy? ==>
          var inst := s.worker.inst;
          && inst.rv < |s.versions| && Continues(s.versions[inst.rv].status.pg, inst.status.pg)
          && (InInit(s.worker.control) ==> !inst.status.pg.initialized))
  }

  /** As long as no initialisation was begun from an outdated status. */
  predicate RecordsInv(s: State)
    requires Formed(s)
  {
    && Records(Latest(s).status.pg, s.sentinel)
    && (s.worker.Busy? ==>
          && Records(s.worker.inst.status.pg, s.sentinel)
          && (InInit(s.worker.control) ==> !Latest(s).status.pg.initialized))
  }

  predicate MarkerInv(s: State) {
    FrozenInv(s) && (!s.staleInit ==> RecordsInv(s))
  }

  lemma {:induction false} FrozenAt(versions: seq<Version>, i: nat)
    requires Frozen(versions) && i < |versions|
    ensures Continues(versions[i].status.pg, versions[|versions| - 1].status.pg)
  {
    if i < |versions| - 1 {
      FrozenAt(versions[..|versions| - 1], i);
    }
  }

  /** Where markers are never changed, it is enough to look at the latest. */
  lemma LatestDecides(versions: seq<Version>, sentinel: Option<set<int>>)
    requires Frozen(versions)
    ensures Agree(versions, sentinel) <==> Records(versions[|versions| - 1].status.pg, sentinel)
  {
    forall i | 0 <= i < |versions|
      ensures Records(versions[|versions| - 1].status.pg, sentinel) ==> Records(versions[i].status.pg, sentinel)
    {
      FrozenAt(versions, i);
    }
  }

  lemma FrozenAppend(versions: seq<Version>, v: Version)
    requires Frozen(versions) && Continues(versions[|versions| - 1].status.pg, v.status.pg)
    ensures Frozen(versions + [v])
  {
    assert (versions + [v])[..|versions|] == versions;
  }

  lemma InitMarkerInv(c: Config, s: State)
    requires Init(c, s)
    ensures MarkerInv(s)
  {
  }

  /** A status write by the instance in flight, whatever becomes of it. */
  lemma WriteKeepsFrozen(s: State, inst: Instance, fault: WriteFault)
    requires Formed(s) && Frozen(s.versions) && inst.rv < |s.versions|
    requires Continues(s.versions[inst.rv].status.pg, inst.status.pg)
    ensures var w := WriteStatus(s.versions, s.clock, inst, fault);
      && s.versions <= w.versions && Frozen(w.versions)
      && w.inst.status == inst.status && w.inst.rv < |w.versions|
      && Continues(w.versions[w.inst.rv].status.pg, inst.status.pg)
      && (w.versions[|w.versions| - 1].status.pg in {Latest(s).status.pg, inst.status.pg})
  {
    if inst.rv == |s.versions| - 1 {
      FrozenAppend(s.versions, Version(Latest(s).spec, inst.status, s.clock, inst.stages));
    }
  }

  /** What every step that writes a status leaves. */
  lemma WriteKeepsMarker(s: State, inst: Instance, fault: WriteFault, t: State)
    requires MarkerInv(s) && s.worker.Busy?
    requires inst.rv == s.worker.inst.rv && inst.status.pg == s.worker.inst.status.pg
    requires var w := WriteStatus(s.versions, s.clock, inst, fault);
      && t.versions == w.versions && t.sentinel == s.sentinel && t.staleInit == s.staleInit && t.cache == s.cache
      && (t.worker.Busy? ==>
            && !InInit(t.worker.control) && t.worker.inst.rv == w.inst.rv
            && t.worker.inst.status.pg == inst.status.pg)
    ensures MarkerInv(t)
  {
    WriteKeepsFrozen(s, inst, fault);
  }

  lemma SpecEditKeepsMarker(s: State, spec: NacosSpec)
    requires MarkerInv(s)
    ensures MarkerInv(SpecEdited(s, spec))
  {
    FrozenAppend(s.versions, Version(spec, Latest(s).status, s.clock, 0));
  }

  lemma LoadKeepsMarker(s: State)
    requires MarkerInv(s)
    ensures MarkerInv(Loaded(s))
  {
    FrozenAt(s.versions, s.cache);
  }

  lemma SentinelKeepsMarker(s: State, next: Option<set<int>>, onward: Control, inst: Instance, fault: WriteFault)
    requires MarkerInv(s) && s.worker.Busy? && InInit(s.worker.control) && inst.rv == s.worker.inst.rv
    requires if InInit(onward) then inst == s.worker.inst
             else inst.status.pg.initialized && next == Some({inst.status.pg.initVersion})
    ensures MarkerInv(SentinelStep(s, next, onward, inst, fault))
  {
  }

  /** Steps that touch neither the stored statuses, nor the table, nor the marker in memory. */
  lemma SameMarker(s: State, t: State)
    requires MarkerInv(s)
    requires t.versions == s.versions && t.sentinel == s.sentinel && t.staleInit == s.staleInit
    requires t.cache < |t.versions|
    requires t.worker.Busy? ==>
      && s.worker.Busy? && t.worker.inst.rv == s.worker.inst.rv
      && t.worker.inst.status.pg == s.worker.inst.status.pg
      && (InInit(t.worker.control) ==> InInit(s.worker.control))
    ensures MarkerInv(t)
  {
  }

  lemma InitWriteKeepsMarker(s: State, fault: WriteFault)
    requires MarkerInv(s) && At(s, AtInitWrite)
    ensures MarkerInv(InitRecorded(s, fault))
  {
    WriteKeepsMarker(s, s.worker.inst, fault, InitRecorded(s, fault));
  }

  lemma RotateKeepsMarker(s: State, rotated: Option<AdminStatus>, fault: WriteFault)
    requires MarkerInv(s) && At(s, AtRotate)
    ensures MarkerInv(AdminRotated(s, rotated, fault))
  {
    var inst, t := s.worker.inst, AdminRotated(s, rotated, fault);
    if rotated.Some? {
      WriteKeepsMarker(s, inst.(status := inst.status.(admin := rotated.value)), fault, t);
    } else {
      SameMarker(s, t);
    }
  }

  lemma RunningKeepsMarker(s: State, fault: WriteFault)
    requires MarkerInv(s) && At(s, AtUpdateStatus)
    ensures MarkerInv(RunningWritten(s, fault))
  {
    var inst := s.worker.inst;
    WriteKeepsMarker(
      s, inst.(status := Status.RunningStatus(inst.status, s.clock)), fault, RunningWritten(s, fault));
  }

  lemma HandleKeepsMarker(c: Config, s: State, fault: WriteFault)
    requires MarkerInv(s) && s.worker.Busy? && s.worker.control.AtHandle?
    ensures MarkerInv(Handled(c, s, fault))
  {
    var inst, t := s.worker.inst, Handled(c, s, fault);
    var report := StatusToReport(c, s, inst, s.worker.control.failure);
    if report.Some? {
      WriteKeepsMarker(s, inst.(status := report.value), fault, t);
    } else {
      SameMarker(s, t);
    }
  }

  lemma PGEnsureKeepsMarker(s: State)
    requires MarkerInv(s) && At(s, AtPGEnsure)
    ensures MarkerInv(PGEnsured(s))
  {
  }

  // ----- Every step, by the part of the machine that takes it -----

  lemma OutsideKeepsMarker(c: Config, s: State, step: Step)
    requires MarkerInv(s) && Enabled(c, s, step) && IsOutside(step)
    ensures MarkerInv(Apply(c, s, step))
  {
    if step.EditSpec? {
      SpecEditKeepsMarker(s, step.spec);
    } else {
      SameMarker(s, Apply(c, s, step));
    }
  }

  lemma StatementKeepsMarker(s: State, fault: WriteFault)
    requires MarkerInv(s) && s.worker.Busy? && InInit(s.worker.control)
    ensures s.worker.control.AtInitCreate? ==> MarkerInv(SentinelCreated(s, fault))
    ensures s.worker.control.AtInitDelete? ==> MarkerInv(SentinelCleared(s, fault))
    ensures s.worker.control.AtInitInsert? ==> MarkerInv(SentinelInserted(s, fault))
  {
    var inst := s.worker.inst;
    match s.worker.control
    case AtInitCreate =>
      SentinelKeepsMarker(s, if s.sentinel.None? then Some({}) else s.sentinel, AtInitDelete, inst, fault);
    case AtInitDelete => SentinelKeepsMarker(s, Some({}), AtInitInsert, inst, fault);
    case _ =>
      var version := DesiredVersion(inst.spec);
      SentinelKeepsMarker(s, Some({version}), AtInitWrite,
                          inst.(status := inst.status.(pg := PGStatus(true, version, s.clock, "Success"))), fault);
  }

  lemma DatabaseKeepsMarker(c: Config, s: State, step: Step)
    requires MarkerInv(s) && Enabled(c, s, step) && IsDatabase(step)
    ensures MarkerInv(Apply(c, s, step))
  {
    if step.PGEnsure? {
      PGEnsureKeepsMarker(s);
    } else if step.InitWrite? {
      InitWriteKeepsMarker(s, step.fault);
    } else if step.Rotate? {
      RotateKeepsMarker(s, step.rotated, step.fault);
    } else {
      StatementKeepsMarker(s, step.fault);
    }
  }

  lemma ReadsKeepMarker(s: State)
    requires MarkerInv(s) && s.worker.Busy?
    ensures At(s, AtReadInternal) ==> MarkerInv(InternalRead(s))
    ensures s.worker.control.AtReadUser? ==> MarkerInv(UserRead(s))
  {
    if At(s, AtReadInternal) {
      GotoKeepsMarker(s, AfterInternalRead(s.worker.inst.spec, s.sources), s.worker.inst);
    } else if s.worker.control.AtReadUser? {
      GotoKeepsMarker(s, AfterUserRead(s.worker.inst.spec, s.sources, s.worker.control.internalContent), s.worker.inst);
    }
  }

  lemma FinalKeepsMarker(c: Config, s: State, fault: WriteFault)
    requires MarkerInv(s) && s.worker.Busy? && s.worker.control.AtWriteFinal?
    ensures MarkerInv(FinalWritten(c, s, fault))
  {
    SameMarker(s, FinalWritten(c, s, fault));
  }

  lemma ActKeepsMarker(s: State, fault: WriteFault)
    requires MarkerInv(s) && s.worker.Busy? && s.worker.control.AtActSts?
    ensures MarkerInv(StsActed(s, fault))
  {
    SameMarker(s, StsActed(s, fault));
  }

  lemma GotoKeepsMarker(s: State, control: Control, inst: Instance)
    requires MarkerInv(s) && s.worker.Busy? && !InInit(control)
    requires inst.rv == s.worker.inst.rv && inst.status.pg == s.worker.inst.status.pg
    ensures MarkerInv(Goto(s, control, inst))
  {
    SameMarker(s, Goto(s, control, inst));
  }

  lemma ConfigKeepsMarker(c: Config, s: State, step: Step)
    requires MarkerInv(s) && Enabled(c, s, step) && IsConfig(step)
    ensures MarkerInv(Apply(c, s, step))
  {
    if step.WriteFinal? {
      FinalKeepsMarker(c, s, step.fault);
    } else {
      ReadsKeepMarker(s);
    }
  }

  lemma WorkloadKeepsMarker(c: Config, s: State, step: Step)
    requires MarkerInv(s) && Enabled(c, s, step) && IsWorkload(step)
    ensures MarkerInv(Apply(c, s, step))
  {
    if step.GetSts? {
      GotoKeepsMarker(s, AtActSts(s.sts, step.desired), s.worker.inst);
    } else if step.EnsureServices? {
      GotoKeepsMarker(s, AtCheck, StageDone(s.worker.inst));
    } else {
      ActKeepsMarker(s, step.fault);
    }
  }

  lemma CheckKeepsMarker(s: State, conditions: seq<NacosCondition>, nacosVersion: string, verdict: Option<Failure>)
    requires MarkerInv(s) && At(s, AtCheck)
    ensures MarkerInv(Checked(s, conditions, nacosVersion, verdict))
  {
    SameMarker(s, Checked(s, conditions, nacosVersion, verdict));
  }

  lemma PreCheckKeepsMarker(s: State)
    requires MarkerInv(s) && At(s, AtPreCheck)
    ensures MarkerInv(PreChecked(s))
  {
    SameMarker(s, PreChecked(s));
  }

  lemma EntryKeepsMarker(c: Config, s: State, step: Step)
    requires MarkerInv(s) && Enabled(c, s, step) && IsEntry(step)
    ensures MarkerInv(Apply(c, s, step))
  {
    if step.Load? {
      LoadKeepsMarker(s);
    } else if step.PreCheck? {
      PreCheckKeepsMarker(s);
    } else {
      GotoKeepsMarker(s, AtHandle(step.failure), s.worker.inst);
    }
  }

  lemma VerdictKeepsMarker(c: Config, s: State, step: Step)
    requires MarkerInv(s) && Enabled(c, s, step) && IsVerdict(step)
    ensures MarkerInv(Apply(c, s, step))
  {
    if step.Check? {
      CheckKeepsMarker(s, step.conditions, step.nacosVersion, step.verdict);
    } else if step.WriteRunning? {
      RunningKeepsMarker(s, step.fault);
    } else {
      HandleKeepsMarker(c, s, step.fault);
    }
  }

  lemma StepKeepsMarker(c: Config, s: State, step: Step)
    requires MarkerInv(s) && Enabled(c, s, step)
    ensures MarkerInv(Apply(c, s, step))
  {
    if IsOutside(step) {
      OutsideKeepsMarker(c, s, step);
    } else if IsDatabase(step) {
      DatabaseKeepsMarker(c, s, step);
    } else if IsConfig(step) {
      ConfigKeepsMarker(c, s, step);
    } else if IsWorkload(step) {
      WorkloadKeepsMarker(c, s, step);
    } else if IsEntry(step) {
      EntryKeepsMarker(c, s, step);
    } else {
      VerdictKeepsMarker(c, s, step);
    }
  }

  lemma {:induction false} RunKeepsMarker(c: Config, s: State, steps: seq<Step>)
    requires MarkerInv(s) && Legal(c, s, steps)
    ensures MarkerInv(After(c, s, steps))
  {
    if steps != [] {
      var front := steps[..|steps| - 1];
      RunKeepsMarker(c, s, front);
      StepKeepsMarker(c, After(c, s, front), steps[|steps| - 1]);
    }
  }

  lemma {:induction false} MarkerHolds(c: Config, s0: State, steps: seq<Step>, s: State)
    requires Init(c, s0) && Leads(c, s0, steps, s)
    ensures MarkerInv(s)
  {
    InitMarkerInv(c, s0);
    RunKeepsMarker(c, s0, steps);
  }

  /**
   Unless an initialisation was begun from an outdated status, a stored marker tells exactly what is in the
   sentinel table, although the table is cleared and filled in two statements either of which may fail.
   */
  lemma {:induction false} MarkerSound(c: Config, s0: State, steps: seq<Step>, s: State)
    requires Init(c, s0) && Leads(c, s0, steps, s) && !s.staleInit
    ensures Agree(s.versions, s.sentinel)
  {
    MarkerHolds(c, s0, steps, s);
    LatestDecides(s.versions, s.sentinel);
  }

  // ----- Exactly when an initialisation breaks the marker -----

  /** PGEnsure is about to write the table. */
  predicate WillInitialise(s: State) {
    && Formed(s) && At(s, AtPGEnsure) && !s.worker.inst.status.pg.initialized
    && s.worker.inst.spec.postgresHost != "" && s.worker.inst.spec.pgInitEnabled
  }

  /** The table when the initialisation is cut off after some of its three statements. */
  function CutOffTable(s: State, done: nat): Option<set<int>>
    requires WillInitialise(s)
  {
    if done == 0 then s.sentinel
    else if done == 1 then if s.sentinel.None? then Some({}) else s.sentinel
    else if done == 2 then Some({})
    else Some({DesiredVersion(s.worker.inst.spec)})
  }

  /** Each such table comes about. */
  lemma CutOffHappens(c: Config, s: State, done: nat) returns (steps: seq<Step>, t: State)
    requires WillInitialise(s) && done <= 3
    ensures Leads(c, s, steps, t) && t.versions == s.versions && t.sentinel == CutOffTable(s, done)
  {
    BeginsInit(c, s);
    steps, t := [PGEnsure], s.(staleInit := s.staleInit || Latest(s).status.pg.initialized,
                               worker := Busy(AtInitCreate, s.worker.inst));
    if done == 1 {
      LeadsStep(c, s, steps, t, InitCreate(Fine));
      steps, t := steps + [InitCreate(Fine)], SentinelCreated(t, Fine);
    } else if done >= 2 {
      var more, u := StatementsHappen(c, t, done);
      LeadsOn(c, s, steps, t, more, u);
      steps, t := steps + more, u;
    }
  }

  lemma StatementsHappen(c: Config, s: State, done: nat) returns (steps: seq<Step>, t: State)
    requires Formed(s) && At(s, AtInitCreate) && 2 <= done <= 3
    ensures Leads(c, s, steps, t) && t.versions == s.versions
    ensures t.sentinel == Some(if done == 2 then {} else {DesiredVersion(s.worker.inst.spec)})
  {
    ClearsSentinel(c, s);
    steps := [InitCreate(Fine), InitDelete(Fine)];
    t := s.(sentinel := Some({}), worker := Busy(AtInitInsert, s.worker.inst));
    if done == 3 {
      LeadsStep(c, s, steps, t, InitInsert(Fine));
      steps, t := steps + [InitInsert(Fine)], SentinelInserted(t, Fine);
    }
  }

  /**
   In every reachable state that is about to initialise, cutting off after create leaves markers and table as they
   were to each other; after delete they agree exactly if the latest stored status was not initialised, whatever
   the reconcile had read; after insert, exactly if it was not or names the version inserted.
   */
  lemma {:induction false} CutOffExactly(c: Config, s0: State, steps: seq<Step>, s: State)
    requires Init(c, s0) && Leads(c, s0, steps, s) && WillInitialise(s)
    ensures var stored := Latest(s).status.pg;
      && (Agree(s.versions, CutOffTable(s, 1)) <==> Agree(s.versions, s.sentinel))
      && (Agree(s.versions, CutOffTable(s, 2)) <==> !stored.initialized)
      && (Agree(s.versions, CutOffTable(s, 3)) <==>
            stored.initialized ==> stored.initVersion == DesiredVersion(s.worker.inst.spec))
  {
    MarkerHolds(c, s0, steps, s);
    forall done: nat
      ensures Agree(s.versions, CutOffTable(s, done)) <==> Records(Latest(s).status.pg, CutOffTable(s, done))
    {
      LatestDecides(s.versions, CutOffTable(s, done));
    }
    var version := DesiredVersion(s.worker.inst.spec);
    assert version in {version} && forall v: int :: {version} == {v} ==> v in {version};
    assert {} != {Latest(s).status.pg.initVersion};
  }

  /**
   Where marker and table agree before it, an initialisation keeps them in agreement wherever it is cut off, exactly
   if the latest stored status was not initialised: the test the code makes, made on what is stored.
   */
  lemma {:induction false} MarkerSafeExactly(c: Config, s0: State, steps: seq<Step>, s: State)
    requires Init(c, s0) && Leads(c, s0, steps, s) && WillInitialise(s) && Agree(s.versions, s.sentinel)
    ensures (forall done: nat :: done <= 3 ==> Agree(s.versions, CutOffTable(s, done)))
      <==> !Latest(s).status.pg.initialized
  {
    CutOffExactly(c, s0, steps, s);
  }

  // ----- The condition is needed: the cache may lag behind a status the operator itself wrote -----

  /** A created resource with initialisation switched on, read from the cache and not yet initialised there. */
  predicate Initialises(s: State) {
    && Formed(s) && s.worker.Idle? && s.queued
    && var v := s.versions[s.cache];
       && v.status.phase == PhaseCreating && !v.status.pg.initialized
       && v.spec.postgresHost != "" && v.spec.pgInitEnabled
  }

  function LoadedInstance(s: State): Instance
    requires Formed(s)
  {
    Instance(s.versions[s.cache].spec, s.versions[s.cache].status, s.cache, 1)
  }

  lemma PassesPreCheck(c: Config, s: State)
    requires Initialises(s)
    ensures Leads(c, s, [Load, PreCheck],
                  s.(queued := false, missed := false, worker := Busy(AtPGEnsure, LoadedInstance(s))))
  {
    LeadsTwo(c, s, Load, Loaded(s), PreCheck, PreChecked(Loaded(s)));
  }

  lemma BeginsInit(c: Config, s: State)
    requires Formed(s) && At(s, AtPGEnsure) && !s.worker.inst.status.pg.initialized
    requires s.worker.inst.spec.postgresHost != "" && s.worker.inst.spec.pgInitEnabled
    ensures Leads(c, s, [PGEnsure], s.(staleInit := s.staleInit || Latest(s).status.pg.initialized,
                                       worker := Busy(AtInitCreate, s.worker.inst)))
  {
    LeadsOne(c, s, PGEnsure);
  }

  lemma ClearsSentinel(c: Config, s: State)
    requires Formed(s) && At(s, AtInitCreate)
    ensures Leads(c, s, [InitCreate(Fine), InitDelete(Fine)],
                  s.(sentinel := Some({}), worker := Busy(AtInitInsert, s.worker.inst)))
  {
    var t := SentinelCreated(s, Fine);
    LeadsTwo(c, s, InitCreate(Fine), t, InitDelete(Fine), SentinelCleared(t, Fine));
  }

  lemma ReachesInit(c: Config, s: State)
    requires Initialises(s)
    ensures Leads(c, s, [Load, PreCheck, PGEnsure],
                  s.(queued := false, missed := false, staleInit := s.staleInit || Latest(s).status.pg.initialized,
                     worker := Busy(AtInitCreate, LoadedInstance(s))))
  {
    PassesPreCheck(c, s);
    var t := s.(queued := false, missed := false, worker := Busy(AtPGEnsure, LoadedInstance(s)));
    BeginsInit(c, t);
    LeadsOn(c, s, [Load, PreCheck], t, [PGEnsure],
            t.(staleInit := s.staleInit || Latest(s).status.pg.initialized,
               worker := Busy(AtInitCreate, LoadedInstance(s))));
    assert [Load, PreCheck] + [PGEnsure] == [Load, PreCheck, PGEnsure];
  }

  /** A reconcile up to the cleared table. */
  lemma ClearsTable(c: Config, s: State) returns (steps: seq<Step>, t: State)
    requires Initialises(s)
    ensures Leads(c, s, steps, t)
    ensures t == s.(queued := false, missed := false, sentinel := Some({}),
                    staleInit := s.staleInit || Latest(s).status.pg.initialized,
                    worker := Busy(AtInitInsert, LoadedInstance(s)))
  {
    ReachesInit(c, s);
    var u := s.(queued := false, missed := false, staleInit := s.staleInit || Latest(s).status.pg.initialized,
                worker := Busy(AtInitCreate, LoadedInstance(s)));
    ClearsSentinel(c, u);
    t := u.(sentinel := Some({}), worker := Busy(AtInitInsert, LoadedInstance(s)));
    steps := [Load, PreCheck, PGEnsure] + [InitCreate(Fine), InitDelete(Fine)];
    LeadsOn(c, s, [Load, PreCheck, PGEnsure], u, [InitCreate(Fine), InitDelete(Fine)], t);
  }

  lemma ReportsCreating(c: Config, s: State)
    requires Formed(s) && s.worker.Busy? && s.worker.control == AtHandle(Coded(CODE_NORMAL, ""))
    requires s.worker.inst.rv == 0 && |s.versions| == 1 && s.versions[0].status == EmptyStatus && s.cache == 0
    requires s.worker.inst.status == EmptyStatus.(phase := PhaseCreating)
    ensures Leads(c, s, [Handle(Fine), DeliverResource(1)],
                  s.(versions := s.versions
                       + [Version(s.versions[0].spec, s.worker.inst.status, s.clock, s.worker.inst.stages)],
                     cache := 1, queued := true, worker := Idle))
  {
    var t := Handled(c, s, Fine);
    LeadsTwo(c, s, Handle(Fine), t, DeliverResource(1), t.(cache := 1, queued := true));
  }

  /** From creation to the Creating phase, delivered to the cache. */
  lemma Creates(c: Config, s: State) returns (steps: seq<Step>, t: State)
    requires Init(c, s)
    ensures Leads(c, s, steps, t)
    ensures t == s.(versions := s.versions
                      + [Version(s.versions[0].spec, EmptyStatus.(phase := PhaseCreating), s.clock, 0)],
                    cache := 1, queued := true, worker := Idle)
  {
    LeadsTwo(c, s, Load, Loaded(s), PreCheck, PreChecked(Loaded(s)));
    var s1 := PreChecked(Loaded(s));
    ReportsCreating(c, s1);
    t := s1.(versions := s1.versions
               + [Version(s1.versions[0].spec, s1.worker.inst.status, s1.clock, s1.worker.inst.stages)],
             cache := 1, queued := true, worker := Idle);
    steps := [Load, PreCheck] + [Handle(Fine), DeliverResource(1)];
    LeadsOn(c, s, [Load, PreCheck], s1, [Handle(Fine), DeliverResource(1)], t);
  }

  lemma MarkerStored(s: State)
    requires Formed(s) && At(s, AtInitInsert)
    requires s.worker.inst.rv == |s.versions| - 1 && !Latest(s).status.pg.initialized
    ensures var t := InitRecorded(SentinelInserted(s, Fine), Fine);
      && At(t, AtRotate) && t.cache == s.cache && |t.versions| == |s.versions| + 1
      && s.versions <= t.versions && Latest(t).status.pg.initialized
  {
    assert SentinelInserted(s, Fine).worker.inst.status.pg.initialized;
  }

  lemma StoresMarker(c: Config, s: State)
    requires Formed(s) && At(s, AtInitInsert)
    ensures Leads(c, s, [InitInsert(Fine), InitWrite(Fine)], InitRecorded(SentinelInserted(s, Fine), Fine))
  {
    var t := SentinelInserted(s, Fine);
    LeadsTwo(c, s, InitInsert(Fine), t, InitWrite(Fine), InitRecorded(t, Fine));
  }

  lemma FailsPlainly(c: Config, s: State)
    requires Formed(s) && s.worker.Busy? && MayFail(s.worker.control)
    ensures Leads(c, s, [Fail(Plain), Handle(Fine)], s.(queued := true, worker := Idle))
  {
    var t := Goto(s, AtHandle(Plain), s.worker.inst);
    LeadsTwo(c, s, Fail(Plain), t, Handle(Fine), Handled(c, t, Fine));
  }

  /** Finishing the initialisation, storing the marker, and failing later in the same reconcile. */
  lemma RecordsInit(c: Config, s: State) returns (steps: seq<Step>, t: State)
    requires Formed(s) && At(s, AtInitInsert)
    requires s.worker.inst.rv == |s.versions| - 1 && !Latest(s).status.pg.initialized
    ensures Leads(c, s, steps, t)
    ensures t.worker.Idle? && t.queued && t.cache == s.cache && |t.versions| == |s.versions| + 1
    ensures s.versions <= t.versions && Latest(t).status.pg.initialized
  {
    StoresMarker(c, s);
    MarkerStored(s);
    var s1 := InitRecorded(SentinelInserted(s, Fine), Fine);
    FailsPlainly(c, s1);
    t := s1.(queued := true, worker := Idle);
    steps := [InitInsert(Fine), InitWrite(Fine)] + [Fail(Plain), Handle(Fine)];
    LeadsOn(c, s, [InitInsert(Fine), InitWrite(Fine)], s1, [Fail(Plain), Handle(Fine)], t);
  }

  /**
   From every initial state with initialisation switched on some run ends with the marker stored and the table
   empty: a reconcile that starts before the cache has seen the marker initialises again and is cut off.
   */
  lemma StaleCacheBreaksMarker(c: Config, s0: State)
    requires Init(c, s0)
    requires s0.versions[0].spec.postgresHost != "" && s0.versions[0].spec.pgInitEnabled
    ensures exists s: State, steps: seq<Step> ::
      && Leads(c, s0, steps, s)
      && s.versions != [] && Latest(s).status.pg.initialized && s.sentinel == Some({}) && s.staleInit
  {
    var a, t := Creates(c, s0);
    var b, u := MarksTwice(c, t);
    LeadsOn(c, s0, a, t, b, u);
  }

  lemma MarksTwice(c: Config, s: State) returns (steps: seq<Step>, t: State)
    requires Initialises(s) && s.cache == |s.versions| - 1
    ensures Leads(c, s, steps, t)
    ensures t.versions != [] && Latest(t).status.pg.initialized && t.sentinel == Some({}) && t.staleInit
  {
    var a, u := ClearsTable(c, s);
    var b, v := RecordsInit(c, u);
    LeadsOn(c, s, a, u, b, v);
    assert v.versions[s.cache] == s.versions[s.cache];
    var d, w := ClearsTable(c, v);
    LeadsOn(c, s, a + b, v, d, w);
    steps, t := a + b + d, w;
  }

  /** What a completed insert leaves: the table holds the version asked for, or the first, and memory says so. */
  lemma InitRecords(s: State)
    requires At(s, AtInitInsert)
    ensures var t, asked := SentinelInserted(s, Fine), s.worker.inst.spec.pgSchemaVersion;
      var version := if asked != 0 then asked else 1;
      && t.sentinel == Some({version}) && At(t, AtInitWrite)
      && t.worker.inst.status == s.worker.inst.status.(pg := PGStatus(true, version, s.clock, "Success"))
  {
  }
}
