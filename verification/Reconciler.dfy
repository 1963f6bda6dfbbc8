/**
 controllers/nacos_controller.go and pkg/service/operator/operaror.go as they run: the stage loop over one object in
 memory, panics caught by the two recovers, and the requeue. Every execution is a run of the machine.
 */
module Reconciler {
  import opened Strings
  import opened Api
  import opened StatefulSets
  import opened Kind
  import opened Machine
  import Builder
  import Health
  import MachineMarker
  import MachineRollout
  import MachineStatus
  import Postgres
  import Status

  /** A resource as the watch handler lists it. */
  datatype Listed = Listed(meta: Meta, spec: NacosSpec)

  /** All, and only, the listed resources of the namespace that refer to the ConfigMap, in order; none if List fails. */
  method FindNacosForConfigMap(name: string, namespace: string, listed: Option<seq<Listed>>)
    returns (requests: seq<string>)
    ensures listed.None? ==> requests == []
    ensures listed.Some? ==> requests == Requests(name, namespace, listed.value)
  {
    requests := [];
    if listed.None? {
      return;
    }
    for i := 0 to |listed.value|
      invariant requests == Requests(name, namespace, listed.value[..i])
    {
      assert listed.value[..i + 1][..i] == listed.value[..i];
      var nacos := listed.value[i];
      var user, inner := nacos.spec.userConfigRef, nacos.spec.internalConfigRef;
      if nacos.meta.namespace == namespace
         && ((user.Some? && user.value.name == name) || (inner.Some? && inner.value.name == name)) {
        requests := requests + [nacos.meta.name];
      }
    }
    assert listed.value[..|listed.value|] == listed.value;
  }

  function Requests(name: string, namespace: string, listed: seq<Listed>): seq<string> {
    if listed == [] then []
    else
      var last := listed[|listed| - 1];
      Requests(name, namespace, listed[..|listed| - 1])
      + if last.meta.namespace == namespace && References(last.spec, name) then [last.meta.name] else []
  }

  /** A resource is enqueued exactly when some listed resource of its name and namespace refers to the ConfigMap. */
  lemma {:induction false} RequestsExactly(name: string, namespace: string, listed: seq<Listed>, nacos: string)
    ensures nacos in Requests(name, namespace, listed) <==>
      exists l :: l in listed && l.meta.name == nacos && l.meta.namespace == namespace && References(l.spec, name)
  {
    if listed != [] {
      var front, last := listed[..|listed| - 1], listed[|listed| - 1];
      RequestsExactly(name, namespace, front, nacos);
      assert listed == front + [last];
    }
  }

  /** In the order of the list. */
  lemma {:induction false} RequestsInOrder(name: string, namespace: string, listed: seq<Listed>, more: seq<Listed>)
    ensures Requests(name, namespace, listed + more)
      == Requests(name, namespace, listed) + Requests(name, namespace, more)
  {
    if more == [] {
      assert listed + more == listed;
    } else {
      RequestsInOrder(name, namespace, listed, more[..|more| - 1]);
      assert (listed + more)[..|listed + more| - 1] == listed + more[..|more| - 1];
    }
  }

  /** How every request of one reconcile turns out, and what the pods report. */
  datatype Outcomes = Outcomes(
    connection: Option<Failure>, script: Option<Failure>,
    create: WriteFault, delete: WriteFault, insert: WriteFault, initWrite: WriteFault,
    secret: Result<Postgres.Secret>, rotateConnection: Option<Failure>,
    updateUser: WriteFault, insertUser: WriteFault, insertRole: WriteFault, rotationWrite: WriteFault,
    internalGetFails: bool, userGetFails: bool, finalGetFails: bool, finalWrite: WriteFault,
    stsGetFails: bool, stsWrite: WriteFault, services: Option<Failure>,
    checkGetFails: bool, pods: Option<seq<Health.Pod>>, reply: Health.Pod -> Option<seq<Health.Server>>,
    runningWrite: WriteFault, reportWrite: WriteFault)

  // ----- When each stage returns; otherwise it panics -----

  predicate InitReturns(spec: NacosSpec, status: NacosStatus, o: Outcomes) {
    || spec.postgresHost == "" || !spec.pgInitEnabled
    || (o.connection.None? && (status.pg.initialized || (o.script.None? && SentinelReturns(o))))
  }

  predicate SentinelReturns(o: Outcomes) {
    o.create == Fine && o.delete == Fine && o.insert == Fine
  }

  predicate RotateReturns(spec: NacosSpec, admin: AdminStatus, before: Postgres.Tables, o: Outcomes) {
    || spec.postgresHost == "" || Postgres.Skips(spec, admin, o.secret)
    || Postgres.GoesThrough(before, o.secret, o.rotateConnection, o.updateUser, o.insertUser, o.insertRole)
  }

  predicate ConfigReturns(spec: NacosSpec, maps: ConfigMaps, o: Outcomes) {
    Managed(spec) ==>
      && FinalContent(spec, maps).Ok?
      && !(o.internalGetFails && IsRead(spec.internalConfigRef)) && !(o.userGetFails && IsRead(spec.userConfigRef))
      && !o.finalGetFails && o.finalWrite == Fine
  }

  predicate ApplyReturns(stored: Option<StatefulSet>, desired: StatefulSet, o: Outcomes) {
    !Crashes(stored, desired) && (Settled(stored, desired) || o.stsWrite == Fine)
  }

  predicate CheckReturns(spec: NacosSpec, stored: Option<StatefulSet>, o: Outcomes) {
    var ready := if o.pods.Some? then Health.ReadyPods(o.pods.value) else [];
    && !o.checkGetFails && stored.Some? && stored.value.replicas == spec.replicas
    && |ready| >= Health.Halved(spec.replicas + 1)
    && Health.ClusterHealthy(Replies(ready, o), spec.replicas)
  }

  function Replies(pods: seq<Health.Pod>, o: Outcomes): (replies: seq<Option<seq<Health.Server>>>)
    ensures |replies| == |pods|
  {
    seq(|pods|, i requires 0 <= i < |pods| => o.reply(pods[i]))
  }

  predicate Plausible(o: Outcomes) {
    && (o.connection.Some? ==> IsError(o.connection.value))
    && (o.script.Some? ==> IsError(o.script.value))
    && (o.services.Some? ==> IsError(o.services.value))
    && (o.secret.Panic? ==> IsError(o.secret.failure))
    && (o.rotateConnection.Some? ==> IsError(o.rotateConnection.value))
  }

  // ----- What users and watches do between two stages -----

  /** Anything but a restart of the operator, which would end the call. */
  predicate Interferes(step: Step) {
    IsOutside(step) && !step.Restart?
  }

  /** What such a step makes of the world, if it can happen. */
  function AfterOutside(s: State, step: Step): Option<State>
    requires Formed(s)
  {
    match step
    case EditSource(name, data) =>
      var stored := if name in s.sources then Some(s.sources[name]) else None;
      if data == stored then None else Some(SourceEdited(s, name, data))
    case EditSpec(spec) => if spec == Latest(s).spec then None else Some(SpecEdited(s, spec))
    case EditSts(sts) => if sts == s.sts then None else Some(s.(sts := sts, pendingSts := true))
    case Tick(seconds) => Some(s.(clock := s.clock + seconds))
    case DeliverMap(name, listOk) => if name in s.pendingMaps then Some(MapDelivered(s, name, listOk)) else None
    case DeliverSts => if s.pendingSts then Some(s.(pendingSts := false, queued := true)) else None
    case DeliverResource(version) =>
      if s.cache < version < |s.versions| then Some(s.(cache := version, queued := true)) else None
    case _ => None
  }

  /** AfterOutside is right about this step, whatever the worker does. */
  predicate IsStepOf(c: Config, s: State, worker: Worker, step: Step)
    requires Formed(s)
  {
    var t := s.(worker := worker);
    match AfterOutside(s, step)
    case Some(next) =>
      Formed(next) && Interferes(step) && Enabled(c, t, step) && Apply(c, t, step) == next.(worker := worker)
    case None => !(Interferes(step) && Enabled(c, t, step))
  }

  lemma EditIsStep(c: Config, s: State, worker: Worker, step: Step)
    requires Formed(s) && (step.EditSource? || step.EditSpec? || step.EditSts?)
    ensures IsStepOf(c, s, worker, step)
  {
  }

  lemma EventIsStep(c: Config, s: State, worker: Worker, step: Step)
    requires Formed(s) && (step.Tick? || step.DeliverMap? || step.DeliverSts? || step.DeliverResource?)
    ensures IsStepOf(c, s, worker, step)
  {
  }

  lemma OutsideIsStep(c: Config, s: State, worker: Worker, step: Step)
    requires Formed(s)
    ensures IsStepOf(c, s, worker, step)
  {
    if step.EditSource? || step.EditSpec? || step.EditSts? {
      EditIsStep(c, s, worker, step);
    } else if Interferes(step) {
      EventIsStep(c, s, worker, step);
    }
  }

  /** Those of the steps that can happen when their turn comes. */
  function Happening(c: Config, s: State, meantime: seq<Step>): (steps: seq<Step>)
    ensures Legal(c, s, steps) && forall step :: step in steps ==> Interferes(step) && step in meantime
    decreases |meantime|
  {
    if meantime == [] then []
    else
      var front, last := meantime[..|meantime| - 1], meantime[|meantime| - 1];
      var before := Happening(c, s, front);
      if Interferes(last) && Enabled(c, After(c, s, before), last) then
        assert (before + [last])[..|before|] == before;
        before + [last]
      else before
  }

  // ----- Single steps, seen as runs -----

  lemma LoadLeads(c: Config, s: State)
    requires Formed(s) && s.worker.Idle? && s.queued
    ensures Leads(c, s, [Load], Loaded(s))
  {
    LeadsOne(c, s, Load);
  }

  lemma PreCheckLeads(c: Config, s: State)
    requires Formed(s) && At(s, AtPreCheck)
    ensures Leads(c, s, [PreCheck], PreChecked(s))
  {
    LeadsOne(c, s, PreCheck);
  }

  lemma FinalLeads(c: Config, s: State, fault: WriteFault)
    requires Formed(s) && s.worker.Busy? && s.worker.control.AtWriteFinal?
    ensures Leads(c, s, [WriteFinal(fault)], FinalWritten(c, s, fault))
  {
    LeadsOne(c, s, WriteFinal(fault));
  }

  lemma PGEnsureLeads(c: Config, s: State)
    requires Formed(s) && At(s, AtPGEnsure)
    ensures Leads(c, s, [PGEnsure], PGEnsured(s))
  {
    LeadsOne(c, s, PGEnsure);
  }

  lemma CreateLeads(c: Config, s: State, fault: WriteFault)
    requires Formed(s) && At(s, AtInitCreate)
    ensures Leads(c, s, [InitCreate(fault)], SentinelCreated(s, fault))
  {
    LeadsOne(c, s, InitCreate(fault));
  }

  lemma DeleteLeads(c: Config, s: State, fault: WriteFault)
    requires Formed(s) && At(s, AtInitDelete)
    ensures Leads(c, s, [InitDelete(fault)], SentinelCleared(s, fault))
  {
    LeadsOne(c, s, InitDelete(fault));
  }

  lemma InsertLeads(c: Config, s: State, fault: WriteFault)
    requires Formed(s) && At(s, AtInitInsert)
    ensures Leads(c, s, [InitInsert(fault)], SentinelInserted(s, fault))
  {
    LeadsOne(c, s, InitInsert(fault));
  }

  lemma RecordLeads(c: Config, s: State, fault: WriteFault)
    requires Formed(s) && At(s, AtInitWrite)
    ensures Leads(c, s, [InitWrite(fault)], InitRecorded(s, fault))
  {
    LeadsOne(c, s, InitWrite(fault));
  }

  lemma RotateLeads(c: Config, s: State, rotated: Option<AdminStatus>, fault: WriteFault)
    requires Formed(s) && At(s, AtRotate)
    requires rotated.Some? ==> s.worker.inst.spec.postgresHost != "" && s.worker.inst.spec.adminSecretName != ""
    ensures Leads(c, s, [Rotate(rotated, fault)], AdminRotated(s, rotated, fault))
  {
    LeadsOne(c, s, Rotate(rotated, fault));
  }

  lemma ReadsLead(c: Config, s: State)
    requires Formed(s) && At(s, AtReadInternal) && Managed(s.worker.inst.spec)
    requires IsKnownType(s.worker.inst.spec.kind)
    requires FinalContent(s.worker.inst.spec, s.sources).Ok?
    ensures Leads(c, s, [ReadInternalConfig, ReadUserConfig],
                  Goto(s, AtWriteFinal(FinalContent(s.worker.inst.spec, s.sources).value), s.worker.inst))
  {
    var t := InternalRead(s);
    LeadsTwo(c, s, ReadInternalConfig, t, ReadUserConfig, UserRead(t));
  }

  lemma ActLeads(c: Config, s: State, fault: WriteFault)
    requires Formed(s) && s.worker.Busy? && s.worker.control.AtActSts?
    ensures Leads(c, s, [ActSts(fault)], StsActed(s, fault))
  {
    LeadsOne(c, s, ActSts(fault));
  }

  /** What the request is when nothing intervened since the object was read. */
  lemma RequestOnObserved(stored: Option<StatefulSet>, desired: StatefulSet)
    ensures RequestFor(stored, stored, desired)
      == if Settled(stored, desired) then NoRequest
         else if Crashes(stored, desired) then Refused
         else Put(AfterCall(stored, desired))
  {
  }

  /**
   A request on an object that somebody has changed since it was read: it is never overwritten, and deleted at most
   where the claims of what was read could not stay.
   */
  lemma RequestOnChanged(stored: Option<StatefulSet>, observed: Option<StatefulSet>, desired: StatefulSet)
    requires stored != observed && RequestFor(stored, observed, desired).Put?
    ensures RequestFor(stored, observed, desired).sts.None? && stored.Some? && observed.Some?
    ensures ClaimsConflict(observed.value.claims, desired.claims)
  {
    VerdictExactly(observed.value, desired);
  }

  lemma CheckLeads(c: Config, s: State, conditions: seq<NacosCondition>, nacosVersion: string, verdict: Option<Failure>)
    requires Formed(s) && At(s, AtCheck) && (verdict.Some? ==> IsError(verdict.value))
    ensures Leads(c, s, [Check(conditions, nacosVersion, verdict)], Checked(s, conditions, nacosVersion, verdict))
  {
    LeadsOne(c, s, Check(conditions, nacosVersion, verdict));
  }

  lemma RunningLeads(c: Config, s: State, fault: WriteFault)
    requires Formed(s) && At(s, AtUpdateStatus)
    ensures Leads(c, s, [WriteRunning(fault)], RunningWritten(s, fault))
  {
    LeadsOne(c, s, WriteRunning(fault));
  }

  lemma HandleLeads(c: Config, s: State, fault: WriteFault)
    requires Formed(s) && s.worker.Busy? && s.worker.control.AtHandle?
    ensures Leads(c, s, [Handle(fault)], Handled(c, s, fault))
  {
    LeadsOne(c, s, Handle(fault));
  }

  class NacosReconciler {
    const meta: Meta
    const digest: string -> string
    ghost const c: Config
    /**
     The API store except for the StatefulSet, the sentinel table, the clock, the cache and the queue; its `sts` and
     `worker` are not used.
     */
    var world: State
    const service: StatefulSetService
    const database: Postgres.Database
    /** The object in memory, the version it was last known as, and how many stages have returned. */
    var nacos: Nacos
    var rv: nat
    var stages: nat

    constructor (meta: Meta, digest: string -> string, world: State, database: Postgres.Database, nacos: Nacos)
      ensures this.meta == meta && this.digest == digest && this.database == database && this.nacos == nacos
      ensures fresh(service) && this.world == world && World() == world.(worker := Idle) && IsOperators()
    {
      this.meta, this.digest, this.world, this.database, this.nacos := meta, digest, world, database, nacos;
      c := MachineRollout.Concrete(meta, digest);
      service := new StatefulSetService(world.sts);
      rv, stages := 0, 0;
    }

    /** The machine this is a run of has the operator's own builder. */
    ghost predicate IsOperators() {
      c == MachineRollout.Concrete(meta, digest)
    }

    /** The machine's view between two reconciles. */
    function World(): State
      reads this, service
    {
      world.(sts := service.stored, worker := Idle)
    }

    /** The machine's view with the reconcile about to do `control`. */
    function Snapshot(control: Control): State
      reads this, nacos, service
    {
      World().(worker := Busy(control, Instance(nacos.spec, nacos.status, rv, stages)))
    }

    /** Status().Update on the object in memory. */
    method StatusUpdate(fault: WriteFault) returns (ok: bool)
      requires Formed(world)
      modifies this`world, this`rv
      ensures
        var inst := Instance(nacos.spec, nacos.status, old(rv), stages);
        var w := WriteStatus(old(world.versions), old(world.clock), inst, fault);
        world == old(world).(versions := w.versions) && rv == w.inst.rv && ok == w.ok
      ensures ok <==> fault == Fine && old(IsCurrent())
      ensures ok ==> Latest(world).status == nacos.status
      ensures Formed(world)
    {
      if rv != |world.versions| - 1 || fault == Lost {
        return false;
      }
      var last := Latest(world);
      if nacos.status != last.status {
        world := world.(versions := world.versions + [Version(last.spec, nacos.status, world.clock, stages)]);
      }
      if fault == Fine {
        rv := |world.versions| - 1;
      }
      ok := fault == Fine;
    }

    method PreCheck() returns (r: Result<()>, ghost steps: seq<Step>)
      requires Formed(world)
      modifies this`stages, nacos`status
      ensures Leads(c, old(Snapshot(AtPreCheck)), steps, Snapshot(if r.Ok? then AtPGEnsure else AtHandle(r.failure)))
      ensures r.Ok? <==> old(nacos.status.phase) != PhaseNone
    {
      ghost var s := Snapshot(AtPreCheck);
      r := CheckPhase();
      PreCheckLeads(c, s);
      steps := [Step.PreCheck];
    }

    method CheckPhase() returns (r: Result<()>)
      modifies this`stages, nacos`status
      ensures if old(nacos.status.phase) == PhaseNone
        then r == Panic(Coded(CODE_NORMAL, "")) && stages == old(stages)
             && nacos.status == old(nacos.status).(phase := PhaseCreating, healthy := false)
        else r == Ok(()) && stages == old(stages) + 1 && nacos.status == old(nacos.status)
    {
      match nacos.status.phase {
        case PhaseNone =>
          nacos.status := nacos.status.(phase := PhaseCreating, healthy := false);
          return Panic(Coded(CODE_NORMAL, ""));
        case _ =>
      }
      stages := stages + 1;
      r := Ok(());
    }

    ghost method FailsAt(control: Control, failure: Failure) returns (steps: seq<Step>)
      requires Formed(world) && MayFail(control) && IsError(failure)
      ensures Leads(c, Snapshot(control), steps, Snapshot(AtHandle(failure)))
    {
      LeadsOne(c, Snapshot(control), Fail(failure));
      steps := [Fail(failure)];
    }

    /** One statement on the sentinel table. */
    method Sentinel(next: Option<set<int>>, fault: WriteFault) returns (r: Result<()>)
      modifies this`world
      ensures world == old(world).(sentinel := if fault == Lost then old(world).sentinel else next)
      ensures r == if fault == Fine then Ok(()) else Panic(Coded(CODE_ERR_SYSTEM, "sentinel statement failed"))
    {
      if fault != Lost {
        world := world.(sentinel := next);
      }
      r := if fault == Fine then Ok(()) else Panic(Coded(CODE_ERR_SYSTEM, "sentinel statement failed"));
    }

    method CreateSentinel(fault: WriteFault) returns (r: Result<()>)
      requires Formed(world)
      modifies this`world
      ensures Leads(c, old(Snapshot(AtInitCreate)), [InitCreate(fault)],
                    Snapshot(if r.Ok? then AtInitDelete else AtHandle(r.failure)))
      ensures Formed(world)
      ensures r.Ok? <==> fault == Fine
    {
      ghost var s := Snapshot(AtInitCreate);
      r := Sentinel(if world.sentinel.None? then Some({}) else world.sentinel, fault);
      CreateLeads(c, s, fault);
    }

    method ClearSentinel(fault: WriteFault) returns (r: Result<()>)
      requires Formed(world)
      modifies this`world
      ensures Leads(c, old(Snapshot(AtInitDelete)), [InitDelete(fault)],
                    Snapshot(if r.Ok? then AtInitInsert else AtHandle(r.failure)))
      ensures Formed(world)
      ensures r.Ok? <==> fault == Fine
    {
      DeleteLeads(c, Snapshot(AtInitDelete), fault);
      r := Sentinel(Some({}), fault);
    }

    method FillSentinel(fault: WriteFault) returns (r: Result<()>)
      requires Formed(world)
      modifies this`world, nacos`status
      ensures Leads(c, old(Snapshot(AtInitInsert)), [InitInsert(fault)],
                    Snapshot(if r.Ok? then AtInitWrite else AtHandle(r.failure)))
      ensures Formed(world)
      ensures r.Ok? <==> fault == Fine
    {
      InsertLeads(c, Snapshot(AtInitInsert), fault);
      var version := DesiredVersion(nacos.spec);
      r := Sentinel(Some({version}), fault);
      if r.Ok? {
        nacos.status := nacos.status.(pg := PGStatus(true, version, world.clock, "Success"));
      }
    }

    method RecordInit(fault: WriteFault)
      requires Formed(world)
      modifies this`world, this`rv, this`stages
      ensures Leads(c, old(Snapshot(AtInitWrite)), [InitWrite(fault)], Snapshot(AtRotate))
      ensures Formed(world)
    {
      ghost var s := Snapshot(AtInitWrite);
      var ignored := StatusUpdate(fault);
      stages := stages + 1;
      RecordLeads(c, s, fault);
    }

    /** PingAndInit after the script: three statements, then the status. */
    method WriteSentinel(o: Outcomes) returns (r: Result<()>, ghost steps: seq<Step>)
      requires Formed(world)
      modifies this`world, this`rv, this`stages, nacos`status
      ensures Leads(c, old(Snapshot(AtInitCreate)), steps, Snapshot(if r.Ok? then AtRotate else AtHandle(r.failure)))
      ensures Formed(world)
      ensures r.Ok? <==> SentinelReturns(o)
    {
      ghost var s0 := Snapshot(AtInitCreate);
      r := CreateSentinel(o.create);
      steps := [InitCreate(o.create)];
      if r.Panic? {
        return;
      }
      ghost var s1 := Snapshot(AtInitDelete);
      r := ClearSentinel(o.delete);
      LeadsOn(c, s0, steps, s1, [InitDelete(o.delete)],
              Snapshot(if r.Ok? then AtInitInsert else AtHandle(r.failure)));
      steps := steps + [InitDelete(o.delete)];
      if r.Panic? {
        return;
      }
      ghost var s2 := Snapshot(AtInitInsert);
      r := FillSentinel(o.insert);
      LeadsOn(c, s0, steps, s2, [InitInsert(o.insert)], Snapshot(if r.Ok? then AtInitWrite else AtHandle(r.failure)));
      steps := steps + [InitInsert(o.insert)];
      if r.Panic? {
        return;
      }
      ghost var s3 := Snapshot(AtInitWrite);
      RecordInit(o.initWrite);
      LeadsOn(c, s0, steps, s3, [InitWrite(o.initWrite)], Snapshot(AtRotate));
      steps := steps + [InitWrite(o.initWrite)];
    }

    /** PGEnsure up to the first write; afresh says that the table is to be written. */
    method CheckPG(o: Outcomes) returns (r: Result<()>, afresh: bool, ghost steps: seq<Step>)
      requires Formed(world) && Plausible(o)
      modifies this`world, this`stages
      ensures Leads(c, old(Snapshot(AtPGEnsure)), steps,
                    Snapshot(if r.Panic? then AtHandle(r.failure) else if afresh then AtInitCreate else AtRotate))
      ensures Formed(world)
      ensures r.Ok? && !afresh ==> InitReturns(nacos.spec, nacos.status, o)
      ensures r.Ok? && afresh ==> (SentinelReturns(o) <==> InitReturns(nacos.spec, nacos.status, o))
      ensures r.Panic? ==> !InitReturns(nacos.spec, nacos.status, o)
    {
      afresh := false;
      if nacos.spec.postgresHost != "" && nacos.spec.pgInitEnabled {
        if o.connection.Some? {
          steps := FailsAt(AtPGEnsure, o.connection.value);
          return Panic(o.connection.value), false, steps;
        }
        if !nacos.status.pg.initialized {
          r, steps := BeginInit(o);
          return r, true, steps;
        }
      }
      PGEnsureLeads(c, Snapshot(AtPGEnsure));
      steps := [Step.PGEnsure];
      stages := stages + 1;
      r := Ok(());
    }

    method BeginInit(o: Outcomes) returns (r: Result<()>, ghost steps: seq<Step>)
      requires Formed(world) && Plausible(o)
      requires nacos.spec.postgresHost != "" && nacos.spec.pgInitEnabled && !nacos.status.pg.initialized
      modifies this`world
      ensures Leads(c, old(Snapshot(AtPGEnsure)), steps,
                    Snapshot(if r.Panic? then AtHandle(r.failure) else AtInitCreate))
      ensures Formed(world)
      ensures r.Ok? <==> o.script.None?
    {
      if o.script.Some? {
        steps := FailsAt(AtPGEnsure, o.script.value);
        return Panic(o.script.value), steps;
      }
      PGEnsureLeads(c, Snapshot(AtPGEnsure));
      steps := [Step.PGEnsure];
      world := world.(staleInit := world.staleInit || Latest(world).status.pg.initialized);
      r := Ok(());
    }

    method PGEnsure(o: Outcomes) returns (r: Result<()>, ghost steps: seq<Step>)
      requires Formed(world) && Plausible(o)
      modifies this`world, this`rv, this`stages, nacos`status
      ensures Leads(c, old(Snapshot(AtPGEnsure)), steps, Snapshot(if r.Ok? then AtRotate else AtHandle(r.failure)))
      ensures Formed(world)
      ensures r.Ok? <==> InitReturns(nacos.spec, old(nacos.status), o)
    {
      ghost var s0 := Snapshot(AtPGEnsure);
      var afresh;
      r, afresh, steps := CheckPG(o);
      if r.Ok? && afresh {
        ghost var s1 := Snapshot(AtInitCreate);
        ghost var more;
        r, more := WriteSentinel(o);
        LeadsOn(c, s0, steps, s1, more, Snapshot(if r.Ok? then AtRotate else AtHandle(r.failure)));
        steps := steps + more;
      }
    }

    method RotateAdmin(o: Outcomes) returns (r: Result<()>, ghost steps: seq<Step>)
      requires Plausible(o)
      requires Formed(world)
      modifies this`world, this`rv, this`stages, nacos`status, database
      ensures Leads(c, old(Snapshot(AtRotate)), steps,
                    Snapshot(if r.Ok? then AtReadInternal else AtHandle(r.failure)))
      ensures Formed(world)
      ensures r.Ok? <==> RotateReturns(nacos.spec, old(nacos.status.admin), old(database.tables), o)
    {
      if nacos.spec.postgresHost != "" && nacos.spec.adminSecretName != "" {
        r, steps := Rotate(o);
      } else {
        steps := NoRotation();
        r := Ok(());
      }
    }

    method NoRotation() returns (ghost steps: seq<Step>)
      requires Formed(world)
      modifies this`stages
      ensures Leads(c, old(Snapshot(AtRotate)), steps, Snapshot(AtReadInternal))
    {
      RotateLeads(c, Snapshot(AtRotate), None, Fine);
      steps := [Step.Rotate(None, Fine)];
      stages := stages + 1;
    }

    /** RotateAdminPassword with its status write. */
    method Rotate(o: Outcomes) returns (r: Result<()>, ghost steps: seq<Step>)
      requires Plausible(o)
      requires Formed(world) && nacos.spec.postgresHost != "" && nacos.spec.adminSecretName != ""
      modifies this`world, this`rv, this`stages, nacos`status, database
      ensures Leads(c, old(Snapshot(AtRotate)), steps,
                    Snapshot(if r.Ok? then AtReadInternal else AtHandle(r.failure)))
      ensures Formed(world)
      ensures r.Ok? <==> RotateReturns(nacos.spec, old(nacos.status.admin), old(database.tables), o)
    {
      var rotated := database.RotateAdminPassword(
        nacos, o.secret, o.rotateConnection, o.updateUser, o.insertUser, o.insertRole, world.clock);
      match rotated {
        case Panic(failure) =>
          steps := FailsAt(AtRotate, failure);
          r := Panic(failure);
        case Ok(false) =>
          steps := NoRotation();
          r := Ok(());
        case Ok(true) =>
          steps := RecordRotation(old(nacos.status), o.rotationWrite);
          r := Ok(());
      }
    }

    /** The status write at the end of a rotation; its error is ignored. */
    method RecordRotation(ghost loaded: NacosStatus, fault: WriteFault) returns (ghost steps: seq<Step>)
      requires Formed(world) && nacos.spec.postgresHost != "" && nacos.spec.adminSecretName != ""
      requires nacos.status == loaded.(admin := nacos.status.admin)
      modifies this`world, this`rv, this`stages
      ensures Leads(c, old(World()).(worker := Busy(AtRotate, Instance(nacos.spec, loaded, old(rv), old(stages)))),
                    steps, Snapshot(AtReadInternal))
      ensures Formed(world)
    {
      ghost var before := World().(worker := Busy(AtRotate, Instance(nacos.spec, loaded, rv, stages)));
      var ignored := StatusUpdate(fault);
      stages := stages + 1;
      RotateLeads(c, before, Some(nacos.status.admin), fault);
      steps := [Step.Rotate(Some(nacos.status.admin), fault)];
    }

    /** The text is in final-config, and its digest in the status in memory. */
    predicate IsStored(content: string)
      reads this, nacos
    {
      && FinalName(meta, nacos.spec) in world.finals && world.finals[FinalName(meta, nacos.spec)] == content
      && nacos.status.configDigest == digest(content)
    }

    method EnsureConfigmap(o: Outcomes) returns (r: Result<()>, ghost steps: seq<Step>)
      requires c.meta == meta && c.digest == digest
      requires IsKnownType(nacos.spec.kind)
      requires Formed(world)
      modifies this`world, nacos`status
      ensures Leads(c, old(Snapshot(AtReadInternal)), steps,
                    Snapshot(if r.Ok? then AtGetSts else AtHandle(r.failure)))
      ensures Formed(world)
      ensures r.Ok? <==> ConfigReturns(nacos.spec, old(world.sources), o)
      ensures r.Ok? && (nacos.spec.userConfigRef.Some? || nacos.spec.internalConfigRef.Some?) ==>
        FinalContent(nacos.spec, old(world.sources)).Ok? && IsStored(FinalContent(nacos.spec, old(world.sources)).value)
      ensures nacos.spec.userConfigRef.None? && nacos.spec.internalConfigRef.None? ==>
        world == old(world) && nacos.status == old(nacos.status)
    {
      if !Managed(nacos.spec) {
        LeadsOne(c, Snapshot(AtReadInternal), ReadInternalConfig);
        return Ok(()), [ReadInternalConfig];
      }
      var content := BuildMergedConfigMap(nacos.spec, world.sources, o.internalGetFails, o.userGetFails);
      if content.Panic? {
        steps := FailsAt(AtReadInternal, content.failure);
        return Panic(content.failure), steps;
      }
      r, steps := MergeAndStore(o, content.value);
    }

    method MergeAndStore(o: Outcomes, content: string) returns (r: Result<()>, ghost steps: seq<Step>)
      requires c.meta == meta && c.digest == digest
      requires IsKnownType(nacos.spec.kind)
      requires Formed(world) && Managed(nacos.spec) && FinalContent(nacos.spec, world.sources) == Ok(content)
      modifies this`world, nacos`status
      ensures Leads(c, old(Snapshot(AtReadInternal)), steps,
                    Snapshot(if r.Ok? then AtGetSts else AtHandle(r.failure)))
      ensures Formed(world)
      ensures r.Ok? <==> !o.finalGetFails && o.finalWrite == Fine
      ensures r.Ok? ==> IsStored(content)
    {
      ghost var s0, s1 := Snapshot(AtReadInternal), Snapshot(AtWriteFinal(content));
      ReadsLead(c, s0);
      ghost var more;
      r, more := StoreFinal(o, content);
      LeadsOn(c, s0, [ReadInternalConfig, ReadUserConfig], s1, more,
              Snapshot(if r.Ok? then AtGetSts else AtHandle(r.failure)));
      steps := [ReadInternalConfig, ReadUserConfig] + more;
    }

    method StoreFinal(o: Outcomes, content: string) returns (r: Result<()>, ghost steps: seq<Step>)
      requires c.meta == meta && c.digest == digest
      requires Formed(world)
      modifies this`world, nacos`status
      ensures Leads(c, old(Snapshot(AtWriteFinal(content))), steps,
                    Snapshot(if r.Ok? then AtGetSts else AtHandle(r.failure)))
      ensures Formed(world)
      ensures r.Ok? <==> !o.finalGetFails && o.finalWrite == Fine
      ensures r.Ok? ==> IsStored(content)
    {
      if o.finalGetFails {
        steps := FailsAt(AtWriteFinal(content), Plain);
        return Panic(Plain), steps;
      }
      ghost var s := Snapshot(AtWriteFinal(content));
      r := WriteConfigMap(content, o.finalWrite);
      FinalLeads(c, s, o.finalWrite);
      steps := [WriteFinal(o.finalWrite)];
    }

    /** CreateOrUpdateConfigMap once the object was looked up, and the digest of what was written. */
    method WriteConfigMap(content: string, fault: WriteFault) returns (r: Result<()>)
      modifies this`world, nacos`status
      ensures world == old(world).(finals :=
        if fault == Lost then old(world.finals) else old(world.finals)[FinalName(meta, nacos.spec) := content])
      ensures nacos.status ==
        (if fault == Fine then old(nacos.status).(configDigest := digest(content)) else old(nacos.status))
      ensures r == if fault == Fine then Ok(()) else Panic(Plain)
    {
      if fault != Lost {
        world := world.(finals := world.finals[FinalName(meta, nacos.spec) := content]);
      }
      if fault != Fine {
        return Panic(Plain);
      }
      nacos.status := nacos.status.(configDigest := digest(content));
      r := Ok(());
    }

    /** desired is what was built, if the build and the read that follows it went through. */
    method EnsureStatefulset(o: Outcomes)
      returns (r: Result<()>, ghost desired: Option<StatefulSet>, ghost steps: seq<Step>)
      requires IsOperators()
      requires IsKnownType(nacos.spec.kind)
      requires Formed(world)
      modifies this`world, service
      ensures Leads(c, old(Snapshot(AtGetSts)), steps, Snapshot(if r.Ok? then AtServices else AtHandle(r.failure)))
      ensures Formed(world)
      ensures desired.Some? <==> !o.stsGetFails && Builder.Buildable(Builder.WithDefaults(nacos.spec))
      ensures desired.Some? ==> c.builds(nacos.spec, nacos.status.configDigest, desired.value)
      ensures r.Ok? <==> desired.Some? && ApplyReturns(old(service.stored), desired.value, o)
      ensures r.Ok? ==> service.stored == AfterCall(old(service.stored), desired.value)
    {
      var built := Build(o.stsGetFails);
      match built {
        case Panic(failure) =>
          desired, r := None, Panic(failure);
          steps := FailsAt(AtGetSts, failure);
        case Ok(ss) =>
          desired := Some(ss);
          r, steps := ApplySts(ss, o);
      }
    }

    method Build(getFails: bool) returns (r: Result<StatefulSet>)
      requires IsOperators()
      requires IsKnownType(nacos.spec.kind)
      ensures r.Ok? <==> !getFails && Builder.Buildable(Builder.WithDefaults(nacos.spec))
      ensures r.Ok? ==> c.builds(nacos.spec, nacos.status.configDigest, r.value)
      ensures r.Panic? ==> IsError(r.failure)
    {
      r := Builder.BuildDesired(meta, Builder.WithDefaults(nacos.spec), nacos.status.configDigest);
      if r.Ok? && getFails {
        r := Panic(Plain);
      }
    }

    method ApplySts(desired: StatefulSet, o: Outcomes) returns (r: Result<()>, ghost steps: seq<Step>)
      requires Formed(world) && c.builds(nacos.spec, nacos.status.configDigest, desired)
      modifies this`world, service
      ensures Leads(c, old(Snapshot(AtGetSts)), steps, Snapshot(if r.Ok? then AtServices else AtHandle(r.failure)))
      ensures Formed(world)
      ensures r.Ok? <==> ApplyReturns(old(service.stored), desired, o)
      ensures r.Ok? ==> service.stored == AfterCall(old(service.stored), desired)
    {
      ghost var s0, s1 := Snapshot(AtGetSts), Snapshot(AtActSts(service.stored, desired));
      LeadsOne(c, s0, GetSts(desired));
      ghost var more;
      r, more := ActOnSts(desired, o.stsWrite);
      LeadsOn(c, s0, [GetSts(desired)], s1, more, Snapshot(if r.Ok? then AtServices else AtHandle(r.failure)));
      steps := [GetSts(desired)] + more;
    }

    /** CreateOrUpdateStatefulSet; what it writes is announced by the watch. */
    method ActOnSts(desired: StatefulSet, fault: WriteFault) returns (r: Result<()>, ghost steps: seq<Step>)
      requires Formed(world)
      modifies this`world, service
      ensures Leads(c, old(Snapshot(AtActSts(service.stored, desired))), steps,
                    Snapshot(if r.Ok? then AtServices else AtHandle(r.failure)))
      ensures Formed(world)
      ensures r.Ok? <==>
        !Crashes(old(service.stored), desired) && (Settled(old(service.stored), desired) || fault == Fine)
      ensures r.Ok? ==> service.stored == AfterCall(old(service.stored), desired)
    {
      ghost var s0 := Snapshot(AtActSts(service.stored, desired));
      ActLeads(c, s0, fault);
      steps := [ActSts(fault)];
      RequestOnObserved(service.stored, desired);
      var sent := service.writes;
      var called := service.CreateOrUpdateStatefulSet(desired, false, fault);
      if service.writes != sent {
        world := world.(pendingSts := true);
      }
      r := if called == Returned then Ok(()) else Panic(Plain);
    }

    /** An unknown type is refused before any request is made. */
    method MakeEnsure(o: Outcomes) returns (r: Result<()>, ghost steps: seq<Step>)
      requires IsOperators()
      requires Formed(world) && Plausible(o)
      modifies this`world, this`stages, nacos`status, service
      ensures Leads(c, old(Snapshot(AtReadInternal)), steps, Snapshot(if r.Ok? then AtCheck else AtHandle(r.failure)))
      ensures Formed(world)
      ensures r.Ok? ==>
        IsKnownType(nacos.spec.kind) && ConfigReturns(nacos.spec, old(world.sources), o) && o.services.None?
      ensures !IsKnownType(nacos.spec.kind) ==> world == old(world) && service.stored == old(service.stored)
    {
      if !IsKnownType(nacos.spec.kind) {
        r, steps := RefuseType();
      } else {
        r, steps := EnsureAll(o);
      }
    }

    method RefuseType() returns (r: Result<()>, ghost steps: seq<Step>)
      requires Formed(world) && !IsKnownType(nacos.spec.kind)
      ensures r.Panic? && Leads(c, Snapshot(AtReadInternal), steps, Snapshot(AtHandle(r.failure)))
    {
      LeadsOne(c, Snapshot(AtReadInternal), ReadInternalConfig);
      steps := [ReadInternalConfig];
      r := Panic(Coded(CODE_PARAMETER_ERROR, "parameter error nacos.Spec.Type"));
    }

    method EnsureAll(o: Outcomes) returns (r: Result<()>, ghost steps: seq<Step>)
      requires IsOperators() && IsKnownType(nacos.spec.kind)
      requires Formed(world) && Plausible(o)
      modifies this`world, this`stages, nacos`status, service
      ensures Leads(c, old(Snapshot(AtReadInternal)), steps, Snapshot(if r.Ok? then AtCheck else AtHandle(r.failure)))
      ensures Formed(world)
      ensures r.Ok? ==> ConfigReturns(nacos.spec, old(world.sources), o) && o.services.None?
    {
      r, steps := EnsureConfigmap(o);
      if r.Ok? {
        ghost var s0, s1 := old(Snapshot(AtReadInternal)), Snapshot(AtGetSts);
        ghost var more;
        r, more := EnsureWorkload(o);
        LeadsOn(c, s0, steps, s1, more, Snapshot(if r.Ok? then AtCheck else AtHandle(r.failure)));
        steps := steps + more;
      }
    }

    /** The StatefulSet, then the services. */
    method EnsureWorkload(o: Outcomes) returns (r: Result<()>, ghost steps: seq<Step>)
      requires IsOperators()
      requires IsKnownType(nacos.spec.kind)
      requires Formed(world) && Plausible(o)
      modifies this`world, this`stages, service
      ensures Leads(c, old(Snapshot(AtGetSts)), steps, Snapshot(if r.Ok? then AtCheck else AtHandle(r.failure)))
      ensures Formed(world)
      ensures r.Ok? ==> o.services.None?
    {
      ghost var desired;
      r, desired, steps := EnsureStatefulset(o);
      if r.Ok? {
        ghost var s0, s1 := old(Snapshot(AtGetSts)), Snapshot(AtServices);
        ghost var more;
        r, more := EnsureServices(o);
        LeadsOn(c, s0, steps, s1, more, Snapshot(if r.Ok? then AtCheck else AtHandle(r.failure)));
        steps := steps + more;
      }
    }

    method EnsureServices(o: Outcomes) returns (r: Result<()>, ghost steps: seq<Step>)
      requires Formed(world) && Plausible(o)
      modifies this`stages
      ensures Leads(c, old(Snapshot(AtServices)), steps, Snapshot(if r.Ok? then AtCheck else AtHandle(r.failure)))
      ensures r.Ok? <==> o.services.None?
    {
      if o.services.Some? {
        steps := FailsAt(AtServices, o.services.value);
        return Panic(o.services.value), steps;
      }
      LeadsOne(c, Snapshot(AtServices), Step.EnsureServices);
      steps := [Step.EnsureServices];
      stages := stages + 1;
      r := Ok(());
    }

    method QueryNacos(pods: seq<Health.Pod>, replies: seq<Option<seq<Health.Server>>>)
      returns (r: Result<()>, ghost steps: seq<Step>)
      requires Formed(world) && |pods| == |replies|
      modifies this`stages, nacos`status
      ensures Leads(c, old(Snapshot(AtCheck)), steps, Snapshot(if r.Ok? then AtUpdateStatus else AtHandle(r.failure)))
      ensures r.Ok? <==> Health.ClusterHealthy(replies, nacos.spec.replicas)
    {
      ghost var s := Snapshot(AtCheck);
      r := AskPods(pods, replies);
      ghost var verdict := if r.Ok? then None else Some(r.failure);
      CheckLeads(c, s, nacos.status.conditions, nacos.status.version, verdict);
      steps := [Check(nacos.status.conditions, nacos.status.version, verdict)];
    }

    method AskPods(pods: seq<Health.Pod>, replies: seq<Option<seq<Health.Server>>>) returns (r: Result<()>)
      requires |pods| == |replies|
      modifies this`stages, nacos`status
      ensures r.Ok? <==> Health.ClusterHealthy(replies, nacos.spec.replicas)
      ensures r.Panic? ==> IsError(r.failure)
      ensures nacos.status ==
        old(nacos.status).(conditions := nacos.status.conditions, version := nacos.status.version)
      ensures stages == old(stages) + if r.Ok? then 1 else 0
    {
      ghost var passed;
      r, passed := Health.CheckNacos(nacos, pods, replies, nacos.spec.replicas);
      if r.Ok? {
        stages := stages + 1;
      }
    }

    method CheckAndMakeHeal(o: Outcomes) returns (r: Result<()>, ghost steps: seq<Step>)
      requires Formed(world)
      modifies this`stages, nacos`status
      ensures Leads(c, old(Snapshot(AtCheck)), steps, Snapshot(if r.Ok? then AtUpdateStatus else AtHandle(r.failure)))
      ensures r.Ok? <==> CheckReturns(nacos.spec, service.stored, o)
    {
      var ready := Health.CheckKind(if o.checkGetFails then None else service.stored, nacos.spec.replicas, o.pods);
      if ready.Panic? {
        steps := FailsAt(AtCheck, ready.failure);
        return Panic(ready.failure), steps;
      }
      var pods := ready.value;
      r, steps := QueryNacos(pods, Replies(pods, o));
    }

    method UpdateStatusRunning(fault: WriteFault) returns (ok: bool)
      requires Formed(world)
      modifies this`world, this`rv, nacos`status
      ensures nacos.status == Status.RunningStatus(old(nacos.status), world.clock)
      ensures nacos.status.phase == PhaseRunning
      ensures
        var inst := Instance(nacos.spec, nacos.status, old(rv), stages);
        var w := WriteStatus(old(world.versions), old(world.clock), inst, fault);
        world == old(world).(versions := w.versions) && rv == w.inst.rv && ok == w.ok
      ensures ok <==> fault == Fine && old(IsCurrent())
      ensures ok ==> Latest(world).status == nacos.status
      ensures Formed(world)
    {
      Status.UpdateLastEvent(nacos, CODE_NORMAL, "", true, world.clock);
      nacos.status := nacos.status.(phase := PhaseRunning);
      Status.SyncHealthy(nacos);
      ok := StatusUpdate(fault);
    }

    method UpdateExceptionStatus(code: int, message: string, fault: WriteFault)
      requires Formed(world)
      modifies this`world, this`rv, nacos`status
      ensures nacos.status == Status.ExceptionStatus(old(nacos.status), code, message, world.clock)
      ensures
        var inst := Instance(nacos.spec, nacos.status, old(rv), stages);
        var w := WriteStatus(old(world.versions), old(world.clock), inst, fault);
        world == old(world).(versions := w.versions) && rv == w.inst.rv
      ensures Formed(world)
    {
      Status.UpdateLastEvent(nacos, code, message, false, world.clock);
      nacos.status := nacos.status.(phase := PhaseFailed);
      Status.SyncHealthy(nacos);
      var ignored := StatusUpdate(fault);
    }

    /** The last stage; only if its write is heard to succeed does the reconcile return true. */
    method UpdateStatus(o: Outcomes) returns (r: Result<()>, ghost steps: seq<Step>)
      requires Formed(world)
      modifies this`world, this`rv, nacos`status
      ensures Leads(c, old(Snapshot(AtUpdateStatus)), steps, if r.Ok? then World() else Snapshot(AtHandle(r.failure)))
      ensures steps == [WriteRunning(o.runningWrite)] && (r.Ok? <==> o.runningWrite == Fine && old(IsCurrent()))
      ensures Formed(world)
      ensures r.Ok? ==> nacos.status.phase == PhaseRunning && Latest(world).status == nacos.status
    {
      var ok;
      ok, steps := StoreRunning(o.runningWrite);
      r := if ok then Ok(()) else Panic(Plain);
    }

    method StoreRunning(fault: WriteFault) returns (ok: bool, ghost steps: seq<Step>)
      requires Formed(world)
      modifies this`world, this`rv, nacos`status
      ensures Leads(c, old(Snapshot(AtUpdateStatus)), steps, if ok then World() else Snapshot(AtHandle(Plain)))
      ensures Formed(world) && steps == [WriteRunning(fault)] && (ok <==> fault == Fine && old(IsCurrent()))
      ensures ok ==> nacos.status.phase == PhaseRunning && Latest(world).status == nacos.status
    {
      ghost var s := Snapshot(AtUpdateStatus);
      ok := UpdateStatusRunning(fault);
      RunningLeads(c, s, fault);
      steps := [WriteRunning(fault)];
    }

    /** The object in memory is of the version last stored. */
    predicate IsCurrent()
      reads this
    {
      rv == |world.versions| - 1
    }

    /** The inner recover; what a failing write panics with again ends in the outer one. */
    method GlobalExceptHandle(failure: Failure, o: Outcomes) returns (ghost steps: seq<Step>)
      requires c.meta == meta
      requires Formed(world)
      modifies this`world, this`rv, nacos`status
      ensures Leads(c, old(Snapshot(AtHandle(failure))), steps, World().(queued := true))
      ensures Formed(world)
    {
      ghost var s := Snapshot(AtHandle(failure));
      Report(failure, o.reportWrite);
      HandleLeads(c, s, o.reportWrite);
      steps := [Handle(o.reportWrite)];
    }

    method Report(failure: Failure, fault: WriteFault)
      requires c.meta == meta
      requires Formed(world)
      modifies this`world, this`rv, nacos`status
      ensures Formed(world) && world == old(world).(versions := world.versions)
      ensures
        var inst := Instance(nacos.spec, old(nacos.status), old(rv), stages);
        world.versions == MachineStatus.Reported(c, old(World()), inst, failure, fault)
      ensures failure.Coded? && failure.code != CODE_NORMAL && fault != Lost && old(IsCurrent()) ==>
        if old(nacos.status.phase) != PhaseCreating || old(world.clock) > meta.creation + 180
        then MachineStatus.TellsFailure(Latest(world).status, failure.code, failure.message, world.clock)
        else world.versions == old(world.versions)
    {
      if failure.Coded? && failure.code != CODE_NORMAL && fault != Lost && IsCurrent()
         && (nacos.status.phase != PhaseCreating || world.clock > meta.creation + 180)
      {
        var inst := Instance(nacos.spec, nacos.status, rv, stages);
        MachineStatus.FailureStored(c, World(), inst, failure.code, failure.message, fault);
      }
      WriteReport(failure, fault);
    }

    /** The cases of globalExceptHandle. */
    method WriteReport(failure: Failure, fault: WriteFault)
      requires c.meta == meta
      requires Formed(world)
      modifies this`world, this`rv, nacos`status
      ensures Formed(world) && world == old(world).(versions := world.versions)
      ensures
        var inst := Instance(nacos.spec, old(nacos.status), old(rv), stages);
        world.versions == MachineStatus.Reported(c, old(World()), inst, failure, fault)
    {
      match failure {
        case Plain =>
        case Coded(code, message) =>
          if code == CODE_NORMAL {
            Status.SyncHealthy(nacos);
            var ignored := StatusUpdate(fault);
          } else if nacos.status.phase != PhaseCreating || meta.creation + 180 < world.clock {
            UpdateExceptionStatus(code, message, fault);
          }
      }
    }

    /** An edit or the delivery of an event, if it can happen now. */
    method Interfere(step: Step, ghost control: Control) returns (happens: bool)
      requires Formed(world)
      modifies this`world, service
      ensures happens <==> Interferes(step) && Enabled(c, old(Snapshot(control)), step)
      ensures Snapshot(control) ==
        if happens then Apply(c, old(Snapshot(control)), step) else old(Snapshot(control))
      ensures Formed(world)
    {
      OutsideIsStep(c, World(), Snapshot(control).worker, step);
      var next := AfterOutside(World(), step);
      if next.Some? {
        world, service.stored := next.value, next.value.sts;
      }
      happens := next.Some?;
    }

    /** Users and watches act between two stages. */
    method Meanwhile(meantime: seq<Step>, ghost control: Control) returns (ghost steps: seq<Step>)
      requires Formed(world)
      modifies this`world, service
      ensures Leads(c, old(Snapshot(control)), steps, Snapshot(control))
      ensures steps == Happening(c, old(Snapshot(control)), meantime)
      ensures Formed(world)
    {
      ghost var s := Snapshot(control);
      steps := [];
      var i := 0;
      while i < |meantime|
        invariant 0 <= i <= |meantime| && Formed(world)
        invariant steps == Happening(c, s, meantime[..i]) && Leads(c, s, steps, Snapshot(control))
      {
        assert meantime[..i + 1][..i] == meantime[..i];
        ghost var t := Snapshot(control);
        var happens := Interfere(meantime[i], control);
        if happens {
          LeadsStep(c, s, steps, t, meantime[i]);
          steps := steps + [meantime[i]];
        }
        i := i + 1;
      }
      assert meantime[..i] == meantime;
    }

    /**
     The six stages in order, with users and watches acting before each of them and before a panic is handled; a panic
     ends the loop, and the reconcile then returns false.
     */
    method ReconcileWork(o: Outcomes, meantime: nat -> seq<Step>) returns (done: bool, ghost steps: seq<Step>)
      requires IsOperators()
      requires Formed(world) && Plausible(o)
      modifies this`world, this`rv, this`stages, nacos`status, service, database
      ensures Leads(c, old(Snapshot(AtPreCheck)), steps, World().(queued := !done || world.queued))
      ensures Formed(world)
      ensures done ==> nacos.status.phase == PhaseRunning && Latest(world).status == nacos.status
    {
      ghost var s0 := Snapshot(AtPreCheck);
      steps := [];
      var i := 0;
      var r: Result<()> := Ok(());
      while i < 6 && r.Ok?
        invariant 0 <= i <= 6 && Formed(world)
        invariant r.Ok? && i < 6 ==> Leads(c, s0, steps, Snapshot(STAGES[i]))
        invariant r.Ok? && i == 6 ==> Leads(c, s0, steps, World())
        invariant r.Ok? && i == 6 ==> nacos.status.phase == PhaseRunning && Latest(world).status == nacos.status
        invariant r.Panic? ==> Leads(c, s0, steps, Snapshot(AtHandle(r.failure)))
        decreases 6 - i, r.Ok?
      {
        ghost var s1 := Snapshot(STAGES[i]);
        ghost var more;
        r, more := DisturbedStage(i, o, meantime(i));
        LeadsOn(c, s0, steps, s1, more,
                if r.Panic? then Snapshot(AtHandle(r.failure))
                else if i == 5 then World() else Snapshot(STAGES[i + 1]));
        steps := steps + more;
        i := i + 1;
      }
      done := r.Ok?;
      if r.Panic? {
        ghost var s1 := Snapshot(AtHandle(r.failure));
        ghost var more := Recover(r.failure, o, meantime(i));
        LeadsOn(c, s0, steps, s1, more, World().(queued := true));
        steps := steps + more;
      }
    }

    method DisturbedStage(i: nat, o: Outcomes, meantime: seq<Step>) returns (r: Result<()>, ghost steps: seq<Step>)
      requires IsOperators()
      requires Formed(world) && Plausible(o) && i < 6
      modifies this`world, this`rv, this`stages, nacos`status, service, database
      ensures Leads(c, old(Snapshot(STAGES[i])), steps,
                    if r.Panic? then Snapshot(AtHandle(r.failure))
                    else if i == 5 then World() else Snapshot(STAGES[i + 1]))
      ensures Formed(world) && Happening(c, old(Snapshot(STAGES[i])), meantime) <= steps
      ensures r.Ok? && i == 5 ==> nacos.status.phase == PhaseRunning && Latest(world).status == nacos.status
    {
      ghost var s := Snapshot(STAGES[i]);
      steps := Meanwhile(meantime, STAGES[i]);
      ghost var t := Snapshot(STAGES[i]);
      ghost var more;
      r, more := Stage(i, o);
      LeadsOn(c, s, steps, t, more,
              if r.Panic? then Snapshot(AtHandle(r.failure))
              else if i == 5 then World() else Snapshot(STAGES[i + 1]));
      steps := steps + more;
    }

    method Recover(failure: Failure, o: Outcomes, meantime: seq<Step>) returns (ghost steps: seq<Step>)
      requires c.meta == meta
      requires Formed(world)
      modifies this`world, this`rv, nacos`status, service
      ensures Leads(c, old(Snapshot(AtHandle(failure))), steps, World().(queued := true))
      ensures Formed(world) && Happening(c, old(Snapshot(AtHandle(failure))), meantime) <= steps
    {
      ghost var s := Snapshot(AtHandle(failure));
      steps := Meanwhile(meantime, AtHandle(failure));
      ghost var t := Snapshot(AtHandle(failure));
      ghost var more := GlobalExceptHandle(failure, o);
      LeadsOn(c, s, steps, t, more, World().(queued := true));
      steps := steps + more;
    }

    method Stage(i: nat, o: Outcomes) returns (r: Result<()>, ghost steps: seq<Step>)
      requires IsOperators()
      requires Formed(world) && Plausible(o) && i < 6
      modifies this`world, this`rv, this`stages, nacos`status, service, database
      ensures Leads(c, old(Snapshot(STAGES[i])), steps,
                    if r.Panic? then Snapshot(AtHandle(r.failure))
                    else if i == 5 then World() else Snapshot(STAGES[i + 1]))
      ensures Formed(world)
      ensures r.Ok? && i == 5 ==> nacos.status.phase == PhaseRunning && Latest(world).status == nacos.status
    {
      if i < 3 {
        r, steps := DatabaseStage(i, o);
      } else if i == 3 {
        r, steps := MakeEnsure(o);
      } else if i == 4 {
        r, steps := CheckAndMakeHeal(o);
      } else {
        r, steps := UpdateStatus(o);
      }
    }

    method DatabaseStage(i: nat, o: Outcomes) returns (r: Result<()>, ghost steps: seq<Step>)
      requires Formed(world) && Plausible(o) && i < 3
      modifies this`world, this`rv, this`stages, nacos`status, database
      ensures Leads(c, old(Snapshot(STAGES[i])), steps,
                    if r.Panic? then Snapshot(AtHandle(r.failure)) else Snapshot(STAGES[i + 1]))
      ensures Formed(world)
    {
      match i {
        case 0 => r, steps := PreCheck();
        case 1 => r, steps := PGEnsure(o);
        case _ => r, steps := RotateAdmin(o);
      }
    }

    /**
     One call of Reconcile on the queued resource, however its requests turn out and whatever users and watches do
     between its stages, is a run of the machine; so it keeps what every run keeps: the history of statuses, the init
     marker, and what is owed for the configuration.
     */
    method Reconcile(getFails: bool, o: Outcomes, meantime: nat -> seq<Step>) returns (ghost steps: seq<Step>)
      requires IsOperators()
      requires Formed(world) && world.queued && Plausible(o)
      modifies this, service, database
      ensures Leads(c, old(World()), steps, World())
      ensures if getFails then steps == [] else steps != [] && steps[0] == Load
      ensures MachineStatus.StatusInv(c, old(World())) ==> MachineStatus.StatusInv(c, World())
      ensures MachineMarker.MarkerInv(old(World())) ==> MachineMarker.MarkerInv(World())
      ensures MachineRollout.RolloutInv(c, old(World())) ==> MachineRollout.RolloutInv(c, World())
    {
      ghost var w := World();
      steps := [];
      if !getFails {
        steps := ReconcileLoaded(o, meantime);
      }
      RunKeeps(c, w, steps);
    }

    /** The resource is read from the cache and worked on, and the queue is told the result. */
    method ReconcileLoaded(o: Outcomes, meantime: nat -> seq<Step>) returns (ghost steps: seq<Step>)
      requires IsOperators()
      requires Formed(world) && world.queued && Plausible(o)
      modifies this, service, database
      ensures Leads(c, old(World()), steps, World()) && steps != [] && steps[0] == Load
    {
      ghost var w := World();
      Read();
      LoadLeads(c, w);
      ghost var s := Snapshot(AtPreCheck);
      var done;
      ghost var more;
      done, more := ReconcileWork(o, meantime);
      world := world.(queued := !done || world.queued);
      LeadsOn(c, w, [Load], s, more, World());
      steps := [Load] + more;
    }

    /** A new object in memory, copied from the cache. */
    method Read()
      requires Formed(world)
      modifies this
      ensures fresh(nacos) && nacos.spec == old(world.versions[world.cache].spec)
      ensures nacos.status == old(world.versions[world.cache].status)
      ensures rv == old(world.cache) && stages == 0 && world == old(world).(queued := false, missed := false)
    {
      var v := world.versions[world.cache];
      nacos := new Nacos(meta, v.spec, v.status);
      rv, stages, world := world.cache, 0, world.(queued := false, missed := false);
    }
  }

  const STAGES: seq<Control> := [AtPreCheck, AtPGEnsure, AtRotate, AtReadInternal, AtCheck, AtUpdateStatus]

  lemma {:induction false} RunKeeps(c: Config, s: State, steps: seq<Step>)
    requires Legal(c, s, steps)
    ensures MachineStatus.StatusInv(c, s) ==> MachineStatus.StatusInv(c, After(c, s, steps))
    ensures MachineMarker.MarkerInv(s) ==> MachineMarker.MarkerInv(After(c, s, steps))
    ensures MachineRollout.RolloutInv(c, s) ==> MachineRollout.RolloutInv(c, After(c, s, steps))
  {
    if MachineStatus.StatusInv(c, s) { MachineStatus.RunKeepsStatus(c, s, steps); }
    if MachineMarker.MarkerInv(s) { MachineMarker.RunKeepsMarker(c, s, steps); }
    if MachineRollout.RolloutInv(c, s) { MachineRollout.RunKeepsRollout(c, s, steps); }
  }
}
