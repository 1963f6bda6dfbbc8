/**
 controllers/nacos_controller.go and pkg/service/operator/operaror.go: one Nacos resource under reconciliation,
 as a machine whose steps are single requests to the API store or the database, user edits, deliveries of watch
 events, and the passing of time. Any request may fail, with or without having taken effect.
 */
module Machine {
  import opened Strings
  import opened Api
  import opened StatefulSets
  import opened Kind
  import opened Status

  /** What the proofs need not know: the digest of a text and which StatefulSets a build may return. */
  datatype Config = Config(
    meta: Meta,
    digest: string -> string,
    builds: (NacosSpec, string, StatefulSet) -> bool)

  /**
   One stored state of the resource, its position in the history being its resource version; with the time it was
   stored and how many stages the reconcile that stored it had completed (0 for a user's edit).
   */
  datatype Version = Version(spec: NacosSpec, status: NacosStatus, storedAt: int, stages: nat)

  /** The object a reconcile works on: spec and status in memory, and the version last read or written. */
  datatype Instance = Instance(spec: NacosSpec, status: NacosStatus, rv: nat, stages: nat)

  /** What the reconcile does next. */
  datatype Control =
    | AtPreCheck
    | AtPGEnsure | AtInitCreate | AtInitDelete | AtInitInsert | AtInitWrite
    | AtRotate
    | AtReadInternal | AtReadUser(internalContent: string) | AtWriteFinal(content: string)
    | AtGetSts | AtActSts(observed: Option<StatefulSet>, desired: StatefulSet) | AtServices
    | AtCheck
    | AtUpdateStatus
    | AtHandle(failure: Failure)

  datatype Worker = Idle | Busy(control: Control, inst: Instance)

  datatype State = State(
    // the API store
    versions: seq<Version>, sources: ConfigMaps, finals: map<string, string>, sts: Option<StatefulSet>,
    // the database and the clock
    sentinel: Option<set<int>>, clock: int,
    // the informer cache (the version it has got to), undelivered events, and the work queue
    cache: nat, pendingMaps: set<string>, pendingSts: bool, queued: bool,
    // the event of a source the resource refers to was dropped, and no reconcile has started since
    missed: bool,
    // an initialisation was begun although the stored status already said initialised
    staleInit: bool,
    worker: Worker)

  function Latest(s: State): Version
    requires s.versions != []
  {
    s.versions[|s.versions| - 1]
  }

  ghost predicate Init(c: Config, s: State) {
    && |s.versions| == 1 && s.versions[0].status == EmptyStatus && s.versions[0].storedAt <= s.clock
    && s.versions[0].stages == 0
    && s.cache == 0 && s.pendingMaps == {} && !s.pendingSts && !s.missed && !s.staleInit
    && s.queued && s.worker == Idle
  }

  datatype Step =
    // users, the API server and the watches
    | EditSource(name: string, data: Option<map<string, string>>)
    | EditSpec(spec: NacosSpec)
    | EditSts(sts: Option<StatefulSet>)
    | Tick(seconds: nat)
    | DeliverMap(mapName: string, listOk: bool)
    | DeliverSts
    | DeliverResource(version: nat)
    | Restart
    // the reconcile
    | Load
    | PreCheck
    | PGEnsure
    | InitCreate(fault: WriteFault) | InitDelete(fault: WriteFault) | InitInsert(fault: WriteFault)
    | InitWrite(fault: WriteFault)
    | Rotate(rotated: Option<AdminStatus>, fault: WriteFault)
    | ReadInternalConfig | ReadUserConfig | WriteFinal(fault: WriteFault)
    | GetSts(desired: StatefulSet) | ActSts(fault: WriteFault) | EnsureServices
    | Check(conditions: seq<NacosCondition>, nacosVersion: string, verdict: Option<Failure>)
    | WriteRunning(fault: WriteFault)
    | Handle(fault: WriteFault)
    | Fail(failure: Failure)

  /** findNacosForConfigMap's test. */
  predicate References(spec: NacosSpec, name: string) {
    || (spec.userConfigRef.Some? && spec.userConfigRef.value.name == name)
    || (spec.internalConfigRef.Some? && spec.internalConfigRef.value.name == name)
  }

  /** Every stage but PreCheck panics with something other than the normal code. */
  predicate IsError(f: Failure) {
    f.Coded? ==> f.code != CODE_NORMAL
  }

  /** Where a request may fail without effect and the failure is not swallowed. */
  predicate MayFail(control: Control) {
    !control.AtPreCheck? && !control.AtInitWrite? && !control.AtUpdateStatus? && !control.AtHandle?
  }

  predicate At(s: State, control: Control) {
    s.worker.Busy? && s.worker.control == control
  }

  /** Well-formedness every step relies on: there is a version, and the cache holds one. */
  predicate Formed(s: State) {
    s.versions != [] && s.cache < |s.versions|
  }

  // ----- Writes of the status subresource -----

  datatype Written = Written(versions: seq<Version>, inst: Instance, ok: bool)

  /**
   A write from an outdated version is a conflict; one that changes nothing stores no new version; the instance
   learns its new version only when it hears of the success.
   */
  function WriteStatus(versions: seq<Version>, clock: int, inst: Instance, fault: WriteFault): Written
    requires versions != []
  {
    if inst.rv != |versions| - 1 || fault == Lost then Written(versions, inst, false)
    else
      var last := versions[|versions| - 1];
      var next :=
        if inst.status == last.status then versions
        else versions + [Version(last.spec, inst.status, clock, inst.stages)];
      if fault == Fine then Written(next, inst.(rv := |next| - 1), true) else Written(next, inst, false)
  }

  /** The version a write appends, if it appends one. */
  function Proposed(s: State, inst: Instance): Version
    requires s.versions != []
  {
    Version(Latest(s).spec, inst.status, s.clock, inst.stages)
  }

  /** A write either leaves the history alone or, from the latest version, appends one. */
  lemma WriteShape(s: State, inst: Instance, fault: WriteFault)
    requires Formed(s) && inst.rv < |s.versions|
    ensures var w := WriteStatus(s.versions, s.clock, inst, fault);
      && w.inst == inst.(rv := w.inst.rv) && w.inst.rv < |w.versions|
      && (w.versions == s.versions || (inst.rv == |s.versions| - 1 && w.versions == s.versions + [Proposed(s, inst)]))
      && (w.inst.rv == inst.rv || w.versions[w.inst.rv].status == inst.status)
  {
  }

  function Goto(s: State, control: Control, inst: Instance): State {
    s.(worker := Busy(control, inst))
  }

  /** The stage that was running has returned. */
  function StageDone(inst: Instance): Instance {
    inst.(stages := inst.stages + 1)
  }

  /** A statement on the sentinel table: on success the reconcile goes on with inst, otherwise it panics. */
  function SentinelStep(s: State, next: Option<set<int>>, onward: Control, inst: Instance, fault: WriteFault): State
    requires s.worker.Busy?
  {
    s.(sentinel := if fault == Lost then s.sentinel else next,
       worker := if fault == Fine then Busy(onward, inst)
                 else Busy(AtHandle(Coded(CODE_ERR_SYSTEM, "sentinel statement failed")), s.worker.inst))
  }

  // ----- Users, the API server and the watches -----

  function SourceEdited(s: State, name: string, data: Option<map<string, string>>): State {
    s.(sources := if data.Some? then s.sources[name := data.value] else s.sources - {name},
       pendingMaps := s.pendingMaps + {name})
  }

  function SpecEdited(s: State, spec: NacosSpec): State
    requires Formed(s)
  {
    s.(versions := s.versions + [Version(spec, Latest(s).status, s.clock, 0)])
  }

  /** The watch handler: a List that fails drops the event, a match in the cached spec enqueues the resource. */
  function MapDelivered(s: State, name: string, listOk: bool): State
    requires Formed(s)
  {
    s.(pendingMaps := s.pendingMaps - {name},
       missed := s.missed || (!listOk && References(Latest(s).spec, name)),
       queued := s.queued || (listOk && References(s.versions[s.cache].spec, name)))
  }

  /** A restarted operator lists everything anew and starts with every resource queued. */
  function Restarted(s: State): State
    requires Formed(s)
  {
    s.(cache := |s.versions| - 1, pendingMaps := {}, pendingSts := false, missed := false, queued := true,
       worker := Idle)
  }

  // ----- PreCheck, PGEnsure, RotateAdmin -----

  function DesiredVersion(spec: NacosSpec): int {
    if spec.pgSchemaVersion == 0 then 1 else spec.pgSchemaVersion
  }

  function Loaded(s: State): State
    requires Formed(s)
  {
    var v := s.versions[s.cache];
    s.(queued := false, missed := false, worker := Busy(AtPreCheck, Instance(v.spec, v.status, s.cache, 0)))
  }

  function PreChecked(s: State): State
    requires At(s, AtPreCheck)
  {
    var inst := s.worker.inst;
    s.(worker :=
         if inst.status.phase == PhaseNone
         then Busy(AtHandle(Coded(CODE_NORMAL, "")),
                   inst.(status := inst.status.(phase := PhaseCreating, healthy := false)))
         else Busy(AtPGEnsure, StageDone(inst)))
  }

  function PGEnsured(s: State): State
    requires Formed(s) && At(s, AtPGEnsure)
  {
    var inst := s.worker.inst;
    var skips := inst.spec.postgresHost == "" || !inst.spec.pgInitEnabled || inst.status.pg.initialized;
    s.(staleInit := s.staleInit || (!skips && Latest(s).status.pg.initialized),
       worker := if skips then Busy(AtRotate, StageDone(inst)) else Busy(AtInitCreate, inst))
  }

  function SentinelCreated(s: State, fault: WriteFault): State
    requires At(s, AtInitCreate)
  {
    SentinelStep(s, if s.sentinel.None? then Some({}) else s.sentinel, AtInitDelete, s.worker.inst, fault)
  }

  function SentinelCleared(s: State, fault: WriteFault): State
    requires At(s, AtInitDelete)
  {
    SentinelStep(s, Some({}), AtInitInsert, s.worker.inst, fault)
  }

  function SentinelInserted(s: State, fault: WriteFault): State
    requires At(s, AtInitInsert)
  {
    var inst := s.worker.inst;
    var version := DesiredVersion(inst.spec);
    SentinelStep(s, Some({version}), AtInitWrite,
                 inst.(status := inst.status.(pg := PGStatus(true, version, s.clock, "Success"))), fault)
  }

  function InitRecorded(s: State, fault: WriteFault): State
    requires Formed(s) && At(s, AtInitWrite)
  {
    var w := WriteStatus(s.versions, s.clock, s.worker.inst, fault);
    s.(versions := w.versions, worker := Busy(AtRotate, StageDone(w.inst)))
  }

  function AdminRotated(s: State, rotated: Option<AdminStatus>, fault: WriteFault): State
    requires Formed(s) && At(s, AtRotate)
  {
    var inst := s.worker.inst;
    var w := if rotated.None? then Written(s.versions, inst, true)
             else WriteStatus(s.versions, s.clock, inst.(status := inst.status.(admin := rotated.value)), fault);
    s.(versions := w.versions, worker := Busy(AtReadInternal, StageDone(w.inst)))
  }

  // ----- MakeEnsure -----

  /** MakeEnsure panics on an unknown type before it makes any request. */
  function AfterInternalRead(spec: NacosSpec, sources: ConfigMaps): Control {
    if !IsKnownType(spec.kind) then AtHandle(Coded(CODE_PARAMETER_ERROR, "parameter error nacos.Spec.Type"))
    else if !Managed(spec) then AtGetSts
    else
      match ReadInternal(spec, sources)
      case Ok(content) => AtReadUser(content)
      case Panic(failure) => AtHandle(failure)
  }

  function AfterUserRead(spec: NacosSpec, sources: ConfigMaps, internalContent: string): Control {
    match ReadUser(spec, sources)
    case Ok(content) => AtWriteFinal(MergedContent(internalContent, content))
    case Panic(failure) => AtHandle(failure)
  }

  function InternalRead(s: State): State
    requires At(s, AtReadInternal)
  {
    Goto(s, AfterInternalRead(s.worker.inst.spec, s.sources), s.worker.inst)
  }

  function UserRead(s: State): State
    requires s.worker.Busy? && s.worker.control.AtReadUser?
  {
    Goto(s, AfterUserRead(s.worker.inst.spec, s.sources, s.worker.control.internalContent), s.worker.inst)
  }

  function FinalWritten(c: Config, s: State, fault: WriteFault): State
    requires s.worker.Busy? && s.worker.control.AtWriteFinal?
  {
    var inst, content := s.worker.inst, s.worker.control.content;
    s.(finals := if fault == Lost then s.finals else s.finals[FinalName(c.meta, inst.spec) := content],
       worker := if fault != Fine then Busy(AtHandle(Plain), inst)
                 else Busy(AtGetSts, inst.(status := inst.status.(configDigest := c.digest(content)))))
  }

  /** The request CreateOrUpdateStatefulSet makes on what it observed: the new object, or None for no request. */
  datatype StsRequest = NoRequest | Put(sts: Option<StatefulSet>) | Refused

  /** An update or creation conflicts if the stored object is no longer the one observed. */
  function RequestFor(stored: Option<StatefulSet>, observed: Option<StatefulSet>, desired: StatefulSet): StsRequest {
    if observed.None? then
      if stored.Some? then Refused else Put(Some(desired))
    else
      match CheckSts(observed.value, desired)
      case Keep => NoRequest
      case Crash => Refused
      case Update => if stored != observed then Refused else Put(Some(desired))
      case Delete => if stored.None? then Refused else Put(None)
  }

  function StsActed(s: State, fault: WriteFault): State
    requires s.worker.Busy? && s.worker.control.AtActSts?
  {
    var request := RequestFor(s.sts, s.worker.control.observed, s.worker.control.desired);
    var written := request.Put? && fault != Lost;
    s.(sts := if written then request.sts else s.sts,
       pendingSts := s.pendingSts || written,
       worker := Busy(if request.NoRequest? || (request.Put? && fault == Fine) then AtServices else AtHandle(Plain),
                      s.worker.inst))
  }

  // ----- CheckAndMakeHeal, UpdateStatus, and the handling of panics -----

  function Checked(s: State, conditions: seq<NacosCondition>, nacosVersion: string, verdict: Option<Failure>): State
    requires At(s, AtCheck)
  {
    var inst := s.worker.inst;
    var seen := inst.(status := inst.status.(conditions := conditions, version := nacosVersion));
    s.(worker := if verdict.Some? then Busy(AtHandle(verdict.value), seen) else Busy(AtUpdateStatus, StageDone(seen)))
  }

  /** ReconcileWork returns true only here. */
  function RunningWritten(s: State, fault: WriteFault): State
    requires Formed(s) && At(s, AtUpdateStatus)
  {
    var inst := s.worker.inst;
    var w := WriteStatus(s.versions, s.clock, inst.(status := RunningStatus(inst.status, s.clock)), fault);
    s.(versions := w.versions, worker := if w.ok then Idle else Busy(AtHandle(Plain), w.inst))
  }

  /** Three minutes after creation, or once the phase has moved on, an error shows as Failed. */
  predicate ShowsFailure(c: Config, s: State, inst: Instance) {
    inst.status.phase != PhaseCreating || c.meta.creation + 180 < s.clock
  }

  /** The status globalExceptHandle writes, if any. */
  function StatusToReport(c: Config, s: State, inst: Instance, failure: Failure): Option<NacosStatus> {
    if failure.Plain? then None
    else if failure.code == CODE_NORMAL then Some(Synced(inst.status))
    else if ShowsFailure(c, s, inst)
    then Some(ExceptionStatus(inst.status, failure.code, failure.message, s.clock))
    else None
  }

  /** globalExceptHandle inside the outer recover; Reconcile then asks to be called again in five seconds. */
  function Handled(c: Config, s: State, fault: WriteFault): State
    requires Formed(s) && s.worker.Busy? && s.worker.control.AtHandle?
  {
    var inst := s.worker.inst;
    var report := StatusToReport(c, s, inst, s.worker.control.failure);
    s.(versions := if report.None? then s.versions
                   else WriteStatus(s.versions, s.clock, inst.(status := report.value), fault).versions,
       queued := true, worker := Idle)
  }

  // ----- One step -----

  predicate Enabled(c: Config, s: State, step: Step) {
    && Formed(s)
    && match step
       case EditSource(name, data) => data != (if name in s.sources then Some(s.sources[name]) else None)
       case EditSpec(spec) => spec != Latest(s).spec
       case EditSts(sts) => sts != s.sts
       case Tick(_) => true
       case DeliverMap(name, _) => name in s.pendingMaps
       case DeliverSts => s.pendingSts
       case DeliverResource(version) => s.cache < version < |s.versions|
       case Restart => true
       case Load => s.worker.Idle? && s.queued
       case PreCheck => At(s, AtPreCheck)
       case PGEnsure => At(s, AtPGEnsure)
       case InitCreate(_) => At(s, AtInitCreate)
       case InitDelete(_) => At(s, AtInitDelete)
       case InitInsert(_) => At(s, AtInitInsert)
       case InitWrite(_) => At(s, AtInitWrite)
       case Rotate(rotated, _) =>
         At(s, AtRotate) && (rotated.Some? ==>
           s.worker.inst.spec.postgresHost != "" && s.worker.inst.spec.adminSecretName != "")
       case ReadInternalConfig => At(s, AtReadInternal)
       case ReadUserConfig => s.worker.Busy? && s.worker.control.AtReadUser?
       case WriteFinal(_) => s.worker.Busy? && s.worker.control.AtWriteFinal?
       case GetSts(desired) =>
         At(s, AtGetSts) && c.builds(s.worker.inst.spec, s.worker.inst.status.configDigest, desired)
       case ActSts(_) => s.worker.Busy? && s.worker.control.AtActSts?
       case EnsureServices => At(s, AtServices)
       case Check(_, _, verdict) => At(s, AtCheck) && (verdict.Some? ==> IsError(verdict.value))
       case WriteRunning(_) => At(s, AtUpdateStatus)
       case Handle(_) => s.worker.Busy? && s.worker.control.AtHandle?
       case Fail(failure) => s.worker.Busy? && MayFail(s.worker.control) && IsError(failure)
  }

  function Apply(c: Config, s: State, step: Step): State
    requires Enabled(c, s, step)
  {
    match step
    case EditSource(name, data) => SourceEdited(s, name, data)
    case EditSpec(spec) => SpecEdited(s, spec)
    case EditSts(sts) => s.(sts := sts, pendingSts := true)
    case Tick(seconds) => s.(clock := s.clock + seconds)
    case DeliverMap(name, listOk) => MapDelivered(s, name, listOk)
    case DeliverSts => s.(pendingSts := false, queued := true)
    case DeliverResource(version) => s.(cache := version, queued := true)
    case Restart => Restarted(s)
    case Load => Loaded(s)
    case PreCheck => PreChecked(s)
    case PGEnsure => PGEnsured(s)
    case InitCreate(fault) => SentinelCreated(s, fault)
    case InitDelete(fault) => SentinelCleared(s, fault)
    case InitInsert(fault) => SentinelInserted(s, fault)
    case InitWrite(fault) => InitRecorded(s, fault)
    case Rotate(rotated, fault) => AdminRotated(s, rotated, fault)
    case ReadInternalConfig => InternalRead(s)
    case ReadUserConfig => UserRead(s)
    case WriteFinal(fault) => FinalWritten(c, s, fault)
    case GetSts(desired) => Goto(s, AtActSts(s.sts, desired), s.worker.inst)
    case ActSts(fault) => StsActed(s, fault)
    case EnsureServices => Goto(s, AtCheck, StageDone(s.worker.inst))
    case Check(conditions, nacosVersion, verdict) => Checked(s, conditions, nacosVersion, verdict)
    case WriteRunning(fault) => RunningWritten(s, fault)
    case Handle(fault) => Handled(c, s, fault)
    case Fail(failure) => Goto(s, AtHandle(failure), s.worker.inst)
  }

  // ----- Kinds of steps -----

  predicate IsOutside(step: Step) {
    step.EditSource? || step.EditSpec? || step.EditSts? || step.Tick? || step.DeliverMap? || step.DeliverSts?
    || step.DeliverResource? || step.Restart?
  }

  predicate IsDatabase(step: Step) {
    step.PGEnsure? || step.InitCreate? || step.InitDelete? || step.InitInsert? || step.InitWrite? || step.Rotate?
  }

  predicate IsConfig(step: Step) {
    step.ReadInternalConfig? || step.ReadUserConfig? || step.WriteFinal?
  }

  predicate IsWorkload(step: Step) {
    step.GetSts? || step.ActSts? || step.EnsureServices?
  }

  predicate IsEntry(step: Step) {
    step.Load? || step.PreCheck? || step.Fail?
  }

  predicate IsVerdict(step: Step) {
    step.Check? || step.WriteRunning? || step.Handle?
  }

  // ----- Runs -----

  predicate Legal(c: Config, s: State, steps: seq<Step>)
    decreases |steps|, 0
  {
    steps == [] ||
    var front := steps[..|steps| - 1];
    Legal(c, s, front) && Enabled(c, After(c, s, front), steps[|steps| - 1])
  }

  function After(c: Config, s: State, steps: seq<Step>): State
    requires Legal(c, s, steps)
    decreases |steps|, 1
  {
    if steps == [] then s else Apply(c, After(c, s, steps[..|steps| - 1]), steps[|steps| - 1])
  }

  predicate Leads(c: Config, s: State, steps: seq<Step>, t: State) {
    Legal(c, s, steps) && After(c, s, steps) == t
  }

  lemma LeadsOne(c: Config, s: State, step: Step)
    requires Enabled(c, s, step)
    ensures Leads(c, s, [step], Apply(c, s, step))
  {
    assert [step][..0] == [];
    assert Legal(c, s, []) && After(c, s, []) == s;
  }

  lemma {:induction false} LeadsOn(c: Config, s: State, a: seq<Step>, t: State, b: seq<Step>, u: State)
    requires Leads(c, s, a, t) && Leads(c, t, b, u)
    ensures Leads(c, s, a + b, u)
  {
    if b == [] {
      assert a + b == a;
    } else {
      var front := b[..|b| - 1];
      LeadsOn(c, s, a, t, front, After(c, t, front));
      assert (a + b)[..|a + b| - 1] == a + front;
    }
  }

  lemma LeadsTwo(c: Config, s: State, first: Step, t: State, second: Step, u: State)
    requires Enabled(c, s, first) && Apply(c, s, first) == t && Enabled(c, t, second) && Apply(c, t, second) == u
    ensures Leads(c, s, [first, second], u)
  {
    LeadsOne(c, s, first);
    LeadsStep(c, s, [first], t, second);
    assert [first] + [second] == [first, second];
  }

  lemma LeadsStep(c: Config, s: State, a: seq<Step>, t: State, step: Step)
    requires Leads(c, s, a, t) && Enabled(c, t, step)
    ensures Leads(c, s, a + [step], Apply(c, t, step))
  {
    LeadsOne(c, t, step);
    LeadsOn(c, s, a, t, [step], Apply(c, t, step));
  }
}
