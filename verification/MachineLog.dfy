/** The event log of the stored status, in every run: the bounded log of exactly the reports that were stored. */
module MachineLog {
  import opened Strings
  import opened Api
  import opened StatefulSets
  import opened Status
  import opened Machine

  /** The report a step stores, if it stores a version with one. */
  function StoredReport(c: Config, s: State, step: Step): Option<Report>
    requires Enabled(c, s, step)
  {
    match step
    case WriteRunning(fault) =>
      if RunningWritten(s, fault).versions == s.versions then None
      else Some(Report(CODE_NORMAL, "", true, s.clock))
    case Handle(fault) =>
      if Handled(c, s, fault).versions == s.versions then None else HandledReport(s)
    case _ => None
  }

  /** The panic of PreCheck is no report. */
  function HandledReport(s: State): Option<Report>
    requires s.worker.Busy? && s.worker.control.AtHandle?
  {
    match s.worker.control.failure
    case Plain => None
    case Coded(code, message) => if code == CODE_NORMAL then None else Some(Report(code, message, false, s.clock))
  }

  /** The reports stored in a run, in order. */
  function StoredReports(c: Config, s: State, steps: seq<Step>): seq<Report>
    requires Legal(c, s, steps)
  {
    if steps == [] then []
    else
      var front := steps[..|steps| - 1];
      StoredReports(c, s, front) + Listed(StoredReport(c, After(c, s, front), steps[|steps| - 1]))
  }

  function Listed(report: Option<Report>): seq<Report> {
    if report.Some? then [report.value] else []
  }

  /** The latest version has this log, and an instance in flight that of its version, unless it is done for. */
  predicate LogInv(s: State, events: seq<Event>) {
    && Formed(s) && Latest(s).status.events == events
    && (s.worker.Busy? ==>
          && s.worker.inst.rv < |s.versions|
          && (s.worker.control != AtHandle(Plain) ==>
                s.worker.inst.status.events == s.versions[s.worker.inst.rv].status.events))
  }

  function WithReport(events: seq<Event>, report: Option<Report>): seq<Event> {
    if report.Some? then Logged(events, report.value) else events
  }

  // ----- Steps -----

  /** Steps that store nothing and leave the log in memory alone. */
  lemma SameLog(s: State, t: State, events: seq<Event>)
    requires LogInv(s, events) && t.versions == s.versions && t.cache < |t.versions|
    requires t.worker.Busy? ==>
      && s.worker.Busy? && t.worker.inst.rv == s.worker.inst.rv
      && (t.worker.control != AtHandle(Plain) ==>
            s.worker.control != AtHandle(Plain) && t.worker.inst.status.events == s.worker.inst.status.events)
    ensures LogInv(t, events)
  {
  }

  lemma SpecEditKeepsLog(s: State, spec: NacosSpec, events: seq<Event>)
    requires LogInv(s, events)
    ensures LogInv(SpecEdited(s, spec), events)
  {
  }

  /** A write in mid-pipeline, with the log the instance was loaded with. */
  lemma WriteKeepsLog(s: State, inst: Instance, fault: WriteFault, onward: Control, events: seq<Event>)
    requires LogInv(s, events) && s.worker.Busy? && s.worker.control != AtHandle(Plain)
    requires inst.rv == s.worker.inst.rv && inst.status.events == s.worker.inst.status.events
    ensures var w := WriteStatus(s.versions, s.clock, inst, fault);
      LogInv(s.(versions := w.versions, worker := Busy(onward, StageDone(w.inst))), events)
  {
    WriteShape(s, inst, fault);
  }

  /** A write that ends the reconcile, of a log with one more report or the same. */
  lemma WriteEndsLog(s: State, inst: Instance, fault: WriteFault, report: Option<Report>, t: State, events: seq<Event>)
    requires LogInv(s, events) && s.worker.Busy? && s.worker.control != AtHandle(Plain)
    requires inst.rv == s.worker.inst.rv
    requires inst.status.events == WithReport(s.worker.inst.status.events, report)
    requires t.versions == WriteStatus(s.versions, s.clock, inst, fault).versions && t.cache == s.cache
    requires t.worker.Idle? || (t.worker.control == AtHandle(Plain) && t.worker.inst.rv < |t.versions|)
    ensures LogInv(t, if t.versions == s.versions then events else WithReport(events, report))
  {
    WriteShape(s, inst, fault);
  }

  lemma OutsideKeepsLog(c: Config, s: State, step: Step, events: seq<Event>)
    requires LogInv(s, events) && Enabled(c, s, step) && IsOutside(step)
    ensures LogInv(Apply(c, s, step), events)
  {
    if step.EditSpec? {
      SpecEditKeepsLog(s, step.spec, events);
    } else {
      SameLog(s, Apply(c, s, step), events);
    }
  }

  lemma SentinelKeepsLog(s: State, next: Option<set<int>>, onward: Control, inst: Instance, fault: WriteFault,
                         events: seq<Event>)
    requires LogInv(s, events) && s.worker.Busy? && s.worker.control != AtHandle(Plain)
    requires inst.rv == s.worker.inst.rv && inst.status.events == s.worker.inst.status.events
    ensures LogInv(SentinelStep(s, next, onward, inst, fault), events)
  {
    SameLog(s, SentinelStep(s, next, onward, inst, fault), events);
  }

  lemma StatementKeepsLog(s: State, fault: WriteFault, events: seq<Event>)
    requires LogInv(s, events) && s.worker.Busy?
    ensures s.worker.control.AtInitCreate? ==> LogInv(SentinelCreated(s, fault), events)
    ensures s.worker.control.AtInitDelete? ==> LogInv(SentinelCleared(s, fault), events)
    ensures s.worker.control.AtInitInsert? ==> LogInv(SentinelInserted(s, fault), events)
  {
    var inst := s.worker.inst;
    if s.worker.control.AtInitCreate? {
      SentinelKeepsLog(s, if s.sentinel.None? then Some({}) else s.sentinel, AtInitDelete, inst, fault, events);
    } else if s.worker.control.AtInitDelete? {
      SentinelKeepsLog(s, Some({}), AtInitInsert, inst, fault, events);
    } else if s.worker.control.AtInitInsert? {
      var version := DesiredVersion(inst.spec);
      SentinelKeepsLog(
        s, Some({version}), AtInitWrite,
        inst.(status := inst.status.(pg := PGStatus(true, version, s.clock, "Success"))), fault, events);
    }
  }

  lemma PGEnsureKeepsLog(s: State, events: seq<Event>)
    requires LogInv(s, events) && At(s, AtPGEnsure)
    ensures LogInv(PGEnsured(s), events)
  {
    SameLog(s, PGEnsured(s), events);
  }

  lemma RotateKeepsLog(s: State, rotated: Option<AdminStatus>, fault: WriteFault, events: seq<Event>)
    requires LogInv(s, events) && At(s, AtRotate)
    ensures LogInv(AdminRotated(s, rotated, fault), events)
  {
    var inst := s.worker.inst;
    if rotated.Some? {
      WriteKeepsLog(s, inst.(status := inst.status.(admin := rotated.value)), fault, AtReadInternal, events);
    } else {
      SameLog(s, AdminRotated(s, None, fault), events);
    }
  }

  lemma DatabaseKeepsLog(c: Config, s: State, step: Step, events: seq<Event>)
    requires LogInv(s, events) && Enabled(c, s, step) && IsDatabase(step)
    ensures LogInv(Apply(c, s, step), events)
  {
    if step.PGEnsure? {
      PGEnsureKeepsLog(s, events);
    } else if step.InitWrite? {
      WriteKeepsLog(s, s.worker.inst, step.fault, AtRotate, events);
    } else if step.Rotate? {
      RotateKeepsLog(s, step.rotated, step.fault, events);
    } else {
      StatementKeepsLog(s, step.fault, events);
    }
  }

  lemma GotoKeepsLog(s: State, control: Control, inst: Instance, events: seq<Event>)
    requires LogInv(s, events) && s.worker.Busy? && s.worker.control != AtHandle(Plain)
    requires inst.rv == s.worker.inst.rv && inst.status.events == s.worker.inst.status.events
    ensures LogInv(Goto(s, control, inst), events)
  {
    SameLog(s, Goto(s, control, inst), events);
  }

  lemma FinalKeepsLog(c: Config, s: State, fault: WriteFault, events: seq<Event>)
    requires LogInv(s, events) && s.worker.Busy? && s.worker.control.AtWriteFinal?
    ensures LogInv(FinalWritten(c, s, fault), events)
  {
    SameLog(s, FinalWritten(c, s, fault), events);
  }

  lemma ConfigKeepsLog(c: Config, s: State, step: Step, events: seq<Event>)
    requires LogInv(s, events) && Enabled(c, s, step) && IsConfig(step)
    ensures LogInv(Apply(c, s, step), events)
  {
    var inst := s.worker.inst;
    if step.ReadInternalConfig? {
      GotoKeepsLog(s, AfterInternalRead(inst.spec, s.sources), inst, events);
    } else if step.ReadUserConfig? {
      GotoKeepsLog(s, AfterUserRead(inst.spec, s.sources, s.worker.control.internalContent), inst, events);
    } else {
      FinalKeepsLog(c, s, step.fault, events);
    }
  }

  lemma ActKeepsLog(s: State, fault: WriteFault, events: seq<Event>)
    requires LogInv(s, events) && s.worker.Busy? && s.worker.control.AtActSts?
    ensures LogInv(StsActed(s, fault), events)
  {
    SameLog(s, StsActed(s, fault), events);
  }

  lemma WorkloadKeepsLog(c: Config, s: State, step: Step, events: seq<Event>)
    requires LogInv(s, events) && Enabled(c, s, step) && IsWorkload(step)
    ensures LogInv(Apply(c, s, step), events)
  {
    if step.GetSts? {
      GotoKeepsLog(s, AtActSts(s.sts, step.desired), s.worker.inst, events);
    } else if step.ActSts? {
      ActKeepsLog(s, step.fault, events);
    } else {
      GotoKeepsLog(s, AtCheck, StageDone(s.worker.inst), events);
    }
  }

  lemma LoadKeepsLog(s: State, events: seq<Event>)
    requires LogInv(s, events)
    ensures LogInv(Loaded(s), events)
  {
  }

  lemma PreCheckKeepsLog(s: State, events: seq<Event>)
    requires LogInv(s, events) && At(s, AtPreCheck)
    ensures LogInv(PreChecked(s), events)
  {
    SameLog(s, PreChecked(s), events);
  }

  lemma EntryKeepsLog(c: Config, s: State, step: Step, events: seq<Event>)
    requires LogInv(s, events) && Enabled(c, s, step) && IsEntry(step)
    ensures LogInv(Apply(c, s, step), events)
  {
    if step.Load? {
      LoadKeepsLog(s, events);
    } else if step.PreCheck? {
      PreCheckKeepsLog(s, events);
    } else {
      GotoKeepsLog(s, AtHandle(step.failure), s.worker.inst, events);
    }
  }

  lemma CheckKeepsLog(s: State, conditions: seq<NacosCondition>, nacosVersion: string, verdict: Option<Failure>,
                      events: seq<Event>)
    requires LogInv(s, events) && At(s, AtCheck)
    ensures LogInv(Checked(s, conditions, nacosVersion, verdict), events)
  {
    SameLog(s, Checked(s, conditions, nacosVersion, verdict), events);
  }

  lemma RunningLogs(c: Config, s: State, fault: WriteFault, events: seq<Event>)
    requires LogInv(s, events) && At(s, AtUpdateStatus)
    ensures var t := RunningWritten(s, fault);
      LogInv(t, if t.versions == s.versions then events else Logged(events, Report(CODE_NORMAL, "", true, s.clock)))
  {
    var inst := s.worker.inst;
    var after := inst.(status := RunningStatus(inst.status, s.clock));
    WriteShape(s, after, fault);
    WriteEndsLog(s, after, fault, Some(Report(CODE_NORMAL, "", true, s.clock)), RunningWritten(s, fault), events);
  }

  lemma HandledLogs(c: Config, s: State, fault: WriteFault, events: seq<Event>)
    requires LogInv(s, events) && s.worker.Busy? && s.worker.control.AtHandle?
    ensures var t := Handled(c, s, fault);
      LogInv(t, if t.versions == s.versions then events else WithReport(events, HandledReport(s)))
  {
    var inst, t := s.worker.inst, Handled(c, s, fault);
    var report := StatusToReport(c, s, inst, s.worker.control.failure);
    if report.Some? {
      WriteEndsLog(s, inst.(status := report.value), fault, HandledReport(s), t, events);
    } else {
      SameLog(s, t, events);
    }
  }

  lemma VerdictLogs(c: Config, s: State, step: Step, events: seq<Event>)
    requires LogInv(s, events) && Enabled(c, s, step) && IsVerdict(step)
    ensures LogInv(Apply(c, s, step), WithReport(events, StoredReport(c, s, step)))
  {
    if step.Check? {
      CheckKeepsLog(s, step.conditions, step.nacosVersion, step.verdict, events);
    } else if step.WriteRunning? {
      RunningLogs(c, s, step.fault, events);
    } else {
      HandledLogs(c, s, step.fault, events);
    }
  }

  lemma StepLogs(c: Config, s: State, step: Step, events: seq<Event>)
    requires LogInv(s, events) && Enabled(c, s, step)
    ensures LogInv(Apply(c, s, step), WithReport(events, StoredReport(c, s, step)))
  {
    if IsOutside(step) {
      OutsideKeepsLog(c, s, step, events);
    } else if IsDatabase(step) {
      DatabaseKeepsLog(c, s, step, events);
    } else if IsConfig(step) {
      ConfigKeepsLog(c, s, step, events);
    } else if IsWorkload(step) {
      WorkloadKeepsLog(c, s, step, events);
    } else if IsEntry(step) {
      EntryKeepsLog(c, s, step, events);
    } else {
      VerdictLogs(c, s, step, events);
    }
  }

  lemma LogGrows(reports: seq<Report>, report: Option<Report>)
    ensures Log(reports + Listed(report)) == WithReport(Log(reports), report)
  {
    var more := reports + Listed(report);
    if report.Some? {
      assert more[..|reports|] == reports;
    } else {
      assert more == reports;
    }
  }

  lemma {:induction false} RunLogs(c: Config, s0: State, steps: seq<Step>)
    requires Init(c, s0) && Legal(c, s0, steps)
    ensures LogInv(After(c, s0, steps), Log(StoredReports(c, s0, steps)))
  {
    if steps != [] {
      var front, last := steps[..|steps| - 1], steps[|steps| - 1];
      RunLogs(c, s0, front);
      var s := After(c, s0, front);
      StepLogs(c, s, last, Log(StoredReports(c, s0, front)));
      LogGrows(StoredReports(c, s0, front), StoredReport(c, s, last));
    }
  }

  lemma {:induction false} ReportsHonest(c: Config, s: State, steps: seq<Step>)
    requires Legal(c, s, steps)
    ensures HonestReports(StoredReports(c, s, steps))
  {
    if steps != [] {
      ReportsHonest(c, s, steps[..|steps| - 1]);
    }
  }

  /** After every run the log of the stored status is the bounded log of the reports stored in the run. */
  lemma {:induction false} StoredLog(c: Config, s0: State, steps: seq<Step>, s: State)
    requires Init(c, s0) && Leads(c, s0, steps, s)
    ensures Formed(s) && Latest(s).status.events == Log(StoredReports(c, s0, steps))
  {
    RunLogs(c, s0, steps);
  }

  /**
   So its codes are the latest of the run-length compressed codes reported in the run, all of them up to ten and then
   ten or eleven; neighbours differ, and a true status means the normal code.
   */
  lemma {:induction false} StoredCodes(c: Config, s0: State, steps: seq<Step>, s: State)
    requires Init(c, s0) && Leads(c, s0, steps, s)
    ensures Formed(s)
    ensures var log, runs := Latest(s).status.events, Runs(ReportedCodes(StoredReports(c, s0, steps)));
      && |log| <= |runs| && Codes(log) == runs[|runs| - |log|..]
      && (|runs| <= 10 ==> |log| == |runs|)
      && (|runs| > 10 ==> |log| == 10 || |log| == 11)
    ensures NeighboursDiffer(Latest(s).status.events) && TrueMeansNormal(Latest(s).status.events)
  {
    StoredLog(c, s0, steps, s);
    ReportsHonest(c, s0, steps);
    LogIsRuns(StoredReports(c, s0, steps));
  }

  lemma LogIsRuns(reports: seq<Report>)
    requires HonestReports(reports)
    ensures var log, runs := Log(reports), Runs(ReportedCodes(reports));
      && |log| <= |runs| && Codes(log) == runs[|runs| - |log|..]
      && (|runs| <= 10 ==> |log| == |runs|)
      && (|runs| > 10 ==> |log| == 10 || |log| == 11)
    ensures NeighboursDiffer(Log(reports)) && TrueMeansNormal(Log(reports))
  {
    if reports != [] {
      LogCodes(reports);
      LogMeaning(reports);
    }
  }
}
