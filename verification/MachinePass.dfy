/** One reconcile that nobody disturbs, in surroundings where every request succeeds: what it does is determined. */
module MachinePass {
  import opened Strings
  import opened Api
  import opened StatefulSets
  import opened Kind
  import opened Machine
  import opened MachineRollout
  import Health
  import Postgres
  import Status

  /** What the reconcile finds outside the API store: the admin secret, the pods and what each of them answers. */
  datatype Surroundings = Surroundings(
    secret: Postgres.Secret, pods: seq<Health.Pod>, reply: Health.Pod -> Option<seq<Health.Server>>)

  function ReadyPods(e: Surroundings): seq<Health.Pod> {
    Health.ReadyPods(e.pods)
  }

  function Replies(e: Surroundings): (replies: seq<Option<seq<Health.Server>>>)
    ensures |replies| == |ReadyPods(e)|
  {
    var ready := ReadyPods(e);
    seq(|ready|, i requires 0 <= i < |ready| => e.reply(ready[i]))
  }

  /** A quorum of this many replicas is ready, and all of them report a healthy cluster. */
  predicate IsHealthy(e: Surroundings, replicas: int) {
    |ReadyPods(e)| >= Health.Halved(replicas + 1) && Health.ClusterHealthy(Replies(e), replicas)
  }

  // ----- Steps without disturbance -----

  /** What the rotation stage does with the secret. */
  function Rotation(e: Surroundings, spec: NacosSpec, admin: AdminStatus, clock: int): Option<AdminStatus> {
    if spec.postgresHost == "" || Postgres.Skips(spec, admin, Ok(e.secret)) then None
    else Some(Postgres.Recorded(spec.adminSecretChecksum, e.secret, clock))
  }

  function SeenConditions(e: Surroundings): seq<NacosCondition> {
    Health.ConditionsOf(ReadyPods(e), Replies(e))
  }

  function SeenVersion(e: Surroundings, before: string): string {
    Health.LastVersion(Health.AllServers(Replies(e)), before)
  }

  /** CheckKind finds the StatefulSet with the replicas of the resource, and the pods are healthy. */
  predicate CheckPasses(e: Surroundings, s: State)
    requires s.worker.Busy?
  {
    var replicas := s.worker.inst.spec.replicas;
    s.sts.Some? && s.sts.value.replicas == replicas && IsHealthy(e, replicas)
  }

  /**
   A step of a reconcile in which every request goes through and is heard of: rotation is as the secret and the
   recorded status demand, the pods are asked, and the one panic is that of a check without a StatefulSet.
   */
  predicate IsCalm(e: Surroundings, s: State, step: Step) {
    match step
    case Load | PreCheck | PGEnsure | ReadInternalConfig | ReadUserConfig | GetSts(_) | EnsureServices => true
    case InitCreate(fault) => fault == Fine
    case InitDelete(fault) => fault == Fine
    case InitInsert(fault) => fault == Fine
    case InitWrite(fault) => fault == Fine
    case Rotate(rotated, fault) =>
      && fault == Fine && s.worker.Busy?
      && rotated == Rotation(e, s.worker.inst.spec, s.worker.inst.status.admin, s.clock)
    case WriteFinal(fault) => fault == Fine
    case ActSts(fault) => fault == Fine
    case Check(conditions, nacosVersion, verdict) =>
      && s.worker.Busy? && CheckPasses(e, s) && verdict == None
      && conditions == SeenConditions(e) && nacosVersion == SeenVersion(e, s.worker.inst.status.version)
    case WriteRunning(fault) => fault == Fine
    case Handle(fault) => fault == Fine
    case Fail(failure) => At(s, AtCheck) && s.sts.None? && failure == Plain
    case _ => false
  }

  predicate IsDelivery(step: Step) {
    step.DeliverSts? || step.DeliverResource? || (step.DeliverMap? && step.listOk)
  }

  /** Every step is an undisturbed one of a reconcile or the delivery of an event. */
  predicate CalmSteps(c: Config, e: Surroundings, s: State, steps: seq<Step>)
    requires Legal(c, s, steps)
  {
    steps == [] ||
    var front, last := steps[..|steps| - 1], steps[|steps| - 1];
    CalmSteps(c, e, s, front) && (IsDelivery(last) || IsCalm(e, After(c, s, front), last))
  }

  predicate Calmly(c: Config, e: Surroundings, s: State, steps: seq<Step>, t: State) {
    Leads(c, s, steps, t) && CalmSteps(c, e, s, steps)
  }

  lemma CalmNone(c: Config, e: Surroundings, s: State)
    ensures Calmly(c, e, s, [], s)
  {
  }

  lemma CalmOne(c: Config, e: Surroundings, s: State, step: Step)
    requires Enabled(c, s, step) && (IsDelivery(step) || IsCalm(e, s, step))
    ensures Calmly(c, e, s, [step], Apply(c, s, step))
  {
    LeadsOne(c, s, step);
    assert [step][..0] == [];
  }

  lemma {:induction false} CalmOn(c: Config, e: Surroundings, s: State, a: seq<Step>, t: State, b: seq<Step>, u: State)
    requires Calmly(c, e, s, a, t) && Calmly(c, e, t, b, u)
    ensures Calmly(c, e, s, a + b, u)
  {
    LeadsOn(c, s, a, t, b, u);
    if b == [] {
      assert a + b == a;
    } else {
      var front := b[..|b| - 1];
      CalmOn(c, e, s, a, t, front, After(c, t, front));
      assert (a + b)[..|a + b| - 1] == a + front;
    }
  }

  // ----- The statuses a reconcile goes through -----

  predicate InitDue(spec: NacosSpec, status: NacosStatus) {
    spec.postgresHost != "" && spec.pgInitEnabled && !status.pg.initialized
  }

  function WithInit(spec: NacosSpec, status: NacosStatus, clock: int): NacosStatus {
    if InitDue(spec, status) then status.(pg := PGStatus(true, DesiredVersion(spec), clock, "Success")) else status
  }

  /** After the two stages that talk to the database. */
  function WithDatabase(e: Surroundings, spec: NacosSpec, status: NacosStatus, clock: int): NacosStatus {
    var inited := WithInit(spec, status, clock);
    match Rotation(e, spec, inited.admin, clock)
    case None => inited
    case Some(admin) => inited.(admin := admin)
  }

  function WithChecks(e: Surroundings, status: NacosStatus): NacosStatus {
    status.(conditions := SeenConditions(e), version := SeenVersion(e, status.version))
  }

  /** What an undisturbed reconcile stores in the end, given the status it loaded. */
  function PassedStatus(e: Surroundings, spec: NacosSpec, configDigest: string, status: NacosStatus, clock: int)
    : NacosStatus
  {
    var ensured := WithDatabase(e, spec, status, clock).(configDigest := configDigest);
    Status.RunningStatus(WithChecks(e, ensured), clock)
  }

  function Named(status: NacosStatus): NacosStatus {
    status.(phase := PhaseCreating, healthy := false)
  }

  // ----- Where a reconcile is, given the state it began in -----

  /** The resource waits in the queue, the cache is up to date, and the version last stored has this spec. */
  predicate Waiting(s: State, spec: NacosSpec) {
    Formed(s) && s.worker.Idle? && s.queued && s.cache == |s.versions| - 1 && Latest(s).spec == spec
  }

  /** Every build has the replicas of the resource. */
  ghost predicate BuildsReplicas(c: Config) {
    forall spec, configDigest, d :: c.builds(spec, configDigest, d) ==> d.replicas == spec.replicas
  }

  /** The sources can be merged, and final-config is none of them. */
  predicate CanMerge(c: Config, spec: NacosSpec, sources: ConfigMaps) {
    && IsKnownType(spec.kind) && Managed(spec) && FinalContent(spec, sources).Ok?
    && !References(spec, FinalName(c.meta, spec))
  }

  ghost predicate Begins(c: Config, e: Surroundings, s: State, spec: NacosSpec) {
    Waiting(s, spec) && CanMerge(c, spec, s.sources) && IsHealthy(e, spec.replicas) && BuildsReplicas(c)
  }

  function Digest(c: Config, s: State, spec: NacosSpec): string
    requires FinalContent(spec, s.sources).Ok?
  {
    c.digest(FinalContent(spec, s.sources).value)
  }

  ghost predicate IsBuild(c: Config, s: State, spec: NacosSpec, d: StatefulSet)
    requires FinalContent(spec, s.sources).Ok?
  {
    c.builds(spec, Digest(c, s, spec), d)
  }

  /** What no undisturbed reconcile changes. */
  predicate SameAround(s0: State, s: State) {
    s.sources == s0.sources && s.cache == s0.cache && s.clock == s0.clock && s.pendingMaps == s0.pendingMaps
  }

  /** The history has grown to this status, by nothing if it was this before. */
  predicate Grown(s0: State, s: State, spec: NacosSpec, status: NacosStatus) {
    && Formed(s0) && Formed(s) && s0.versions <= s.versions
    && Latest(s).spec == spec && Latest(s).status == status
    && (status == Latest(s0).status ==> s.versions == s0.versions)
  }

  /** The instance is of the latest version, with this stored and this in memory. */
  predicate Holds(s0: State, s: State, spec: NacosSpec, inst: Instance, stored: NacosStatus, held: NacosStatus) {
    Grown(s0, s, spec, stored) && inst.spec == spec && inst.status == held && inst.rv == |s.versions| - 1
  }

  predicate StsAsBefore(s0: State, s: State) {
    s.sts == s0.sts && s.pendingSts == s0.pendingSts
  }

  /** One call of CreateOrUpdateStatefulSet has gone through, on some build. */
  ghost predicate Applied(c: Config, s0: State, spec: NacosSpec, sts: Option<StatefulSet>, pendingSts: bool)
    requires FinalContent(spec, s0.sources).Ok?
  {
    exists d :: IsBuild(c, s0, spec, d) && !Crashes(s0.sts, d) && sts == AfterCall(s0.sts, d)
      && (Settled(s0.sts, d) ==> pendingSts == s0.pendingSts)
  }

  /** On some build it panics. */
  ghost predicate Crashing(c: Config, s0: State, spec: NacosSpec)
    requires FinalContent(spec, s0.sources).Ok?
  {
    exists d :: IsBuild(c, s0, spec, d) && Crashes(s0.sts, d)
  }

  ghost predicate AtStage(c: Config, e: Surroundings, s0: State, spec: NacosSpec, s: State, control: Control,
                          inst: Instance)
    requires Formed(s0) && FinalContent(spec, s0.sources).Ok?
  {
    var loaded := Latest(s0).status;
    var inited := WithInit(spec, loaded, s0.clock);
    var based := WithDatabase(e, spec, loaded, s0.clock);
    var ensured := based.(configDigest := Digest(c, s0, spec));
    match control
    case AtPreCheck => StsAsBefore(s0, s) && s.finals == s0.finals && Holds(s0, s, spec, inst, loaded, loaded)
    case AtPGEnsure =>
      StsAsBefore(s0, s) && Holds(s0, s, spec, inst, loaded, loaded) && loaded.phase != PhaseNone
    case AtInitCreate =>
      StsAsBefore(s0, s) && Holds(s0, s, spec, inst, loaded, loaded) && loaded.phase != PhaseNone
      && InitDue(spec, loaded)
    case AtInitDelete =>
      StsAsBefore(s0, s) && Holds(s0, s, spec, inst, loaded, loaded) && loaded.phase != PhaseNone
      && InitDue(spec, loaded)
    case AtInitInsert =>
      StsAsBefore(s0, s) && Holds(s0, s, spec, inst, loaded, loaded) && loaded.phase != PhaseNone
      && InitDue(spec, loaded)
    case AtInitWrite =>
      StsAsBefore(s0, s) && Holds(s0, s, spec, inst, loaded, inited) && loaded.phase != PhaseNone
    case AtRotate => StsAsBefore(s0, s) && Holds(s0, s, spec, inst, inited, inited) && loaded.phase != PhaseNone
    case AtReadInternal => StsAsBefore(s0, s) && Holds(s0, s, spec, inst, based, based) && loaded.phase != PhaseNone
    case AtReadUser(content) =>
      && StsAsBefore(s0, s) && Holds(s0, s, spec, inst, based, based) && loaded.phase != PhaseNone
      && ReadInternal(spec, s0.sources) == Ok(content)
    case AtWriteFinal(content) =>
      && StsAsBefore(s0, s) && Holds(s0, s, spec, inst, based, based) && loaded.phase != PhaseNone
      && FinalContent(spec, s0.sources) == Ok(content)
    case AtGetSts =>
      && StsAsBefore(s0, s) && Holds(s0, s, spec, inst, based, ensured) && loaded.phase != PhaseNone
      && FinalStored(c, s.sources, s.finals, spec)
    case AtActSts(observed, desired) =>
      && StsAsBefore(s0, s) && Holds(s0, s, spec, inst, based, ensured) && loaded.phase != PhaseNone
      && FinalStored(c, s.sources, s.finals, spec) && observed == s.sts && IsBuild(c, s0, spec, desired)
    case AtServices =>
      && Applied(c, s0, spec, s.sts, s.pendingSts) && FinalStored(c, s.sources, s.finals, spec)
      && Holds(s0, s, spec, inst, based, ensured) && loaded.phase != PhaseNone
    case AtCheck =>
      && Applied(c, s0, spec, s.sts, s.pendingSts) && FinalStored(c, s.sources, s.finals, spec)
      && Holds(s0, s, spec, inst, based, ensured) && loaded.phase != PhaseNone
    case AtUpdateStatus =>
      && Applied(c, s0, spec, s.sts, s.pendingSts) && s.sts.Some? && loaded.phase != PhaseNone
      && Holds(s0, s, spec, inst, based, WithChecks(e, ensured))
      && FinalStored(c, s.sources, s.finals, spec)
    case AtHandle(failure) =>
      if loaded.phase == PhaseNone
      then failure == Coded(CODE_NORMAL, "") && StsAsBefore(s0, s) && s.finals == s0.finals
           && Holds(s0, s, spec, inst, loaded, Named(loaded))
      else failure == Plain && Grown(s0, s, spec, based) && FinalStored(c, s.sources, s.finals, spec)
           && ((StsAsBefore(s0, s) && Crashing(c, s0, spec))
               || (Applied(c, s0, spec, s.sts, s.pendingSts) && s.sts.None?))
  }

  /** A resource without a phase has got one, and is queued again. */
  predicate HasNamed(s0: State, spec: NacosSpec, s: State)
    requires Formed(s0)
  {
    StsAsBefore(s0, s) && s.finals == s0.finals && s.queued && Grown(s0, s, spec, Named(Latest(s0).status))
  }

  /** The reconcile has panicked behind the StatefulSet, which could not be compared or had to be deleted. */
  ghost predicate HasFailed(c: Config, e: Surroundings, s0: State, spec: NacosSpec, s: State)
    requires Formed(s0) && FinalContent(spec, s0.sources).Ok?
  {
    && FinalStored(c, s.sources, s.finals, spec) && s.queued
    && Grown(s0, s, spec, WithDatabase(e, spec, Latest(s0).status, s0.clock))
    && ((StsAsBefore(s0, s) && Crashing(c, s0, spec)) || (Applied(c, s0, spec, s.sts, s.pendingSts) && s.sts.None?))
  }

  /** All six stages have returned. */
  ghost predicate HasSucceeded(c: Config, e: Surroundings, s0: State, spec: NacosSpec, s: State)
    requires Formed(s0) && FinalContent(spec, s0.sources).Ok?
  {
    && FinalStored(c, s.sources, s.finals, spec) && !s.queued
    && Grown(s0, s, spec, PassedStatus(e, spec, Digest(c, s0, spec), Latest(s0).status, s0.clock))
    && Applied(c, s0, spec, s.sts, s.pendingSts) && s.sts.Some?
  }

  /** How a reconcile that began in s0 has left the store and the queue. */
  ghost predicate HasPassed(c: Config, e: Surroundings, s0: State, spec: NacosSpec, s: State)
    requires Formed(s0) && FinalContent(spec, s0.sources).Ok?
  {
    if Latest(s0).status.phase == PhaseNone then HasNamed(s0, spec, s)
    else HasFailed(c, e, s0, spec, s) || HasSucceeded(c, e, s0, spec, s)
  }

  ghost predicate OnPass(c: Config, e: Surroundings, s0: State, spec: NacosSpec, s: State)
    requires Begins(c, e, s0, spec)
  {
    && Formed(s) && SameAround(s0, s) && !s.missed
    && match s.worker
       case Idle => HasPassed(c, e, s0, spec, s)
       case Busy(control, inst) => !s.queued && AtStage(c, e, s0, spec, s.(worker := Idle), control, inst)
  }

  // ----- Each undisturbed step keeps to it -----

  lemma LoadOnPass(c: Config, e: Surroundings, s0: State, spec: NacosSpec)
    requires Begins(c, e, s0, spec)
    ensures OnPass(c, e, s0, spec, Loaded(s0))
  {
  }

  /** Moving on with nothing but the worker. */
  lemma GoesOn(c: Config, e: Surroundings, s0: State, spec: NacosSpec, s: State, control: Control, inst: Instance)
    requires Begins(c, e, s0, spec) && OnPass(c, e, s0, spec, s)
    requires s.worker.Busy? && AtStage(c, e, s0, spec, s.(worker := Idle), control, inst)
    ensures OnPass(c, e, s0, spec, Goto(s, control, inst))
  {
    assert Goto(s, control, inst).(worker := Idle) == s.(worker := Idle);
  }

  /** Moving on with something stored. */
  lemma GoesOnFrom(c: Config, e: Surroundings, s0: State, spec: NacosSpec, t: State)
    requires Begins(c, e, s0, spec) && Formed(t) && SameAround(s0, t) && !t.queued && !t.missed && t.worker.Busy?
    requires AtStage(c, e, s0, spec, t.(worker := Idle), t.worker.control, t.worker.inst)
    ensures OnPass(c, e, s0, spec, t)
  {
  }

  lemma PreCheckOnPass(c: Config, e: Surroundings, s0: State, spec: NacosSpec, s: State)
    requires Begins(c, e, s0, spec) && OnPass(c, e, s0, spec, s)
    requires At(s, AtPreCheck)
    ensures OnPass(c, e, s0, spec, PreChecked(s))
  {
  }

  lemma PGEnsureOnPass(c: Config, e: Surroundings, s0: State, spec: NacosSpec, s: State)
    requires Begins(c, e, s0, spec) && OnPass(c, e, s0, spec, s)
    requires At(s, AtPGEnsure)
    ensures OnPass(c, e, s0, spec, PGEnsured(s))
  {
  }

  /** A statement on the sentinel table, which no stage looks at. */
  lemma SentinelOnPass(c: Config, e: Surroundings, s0: State, spec: NacosSpec, s: State, next: Option<set<int>>,
                       onward: Control, inst: Instance)
    requires Begins(c, e, s0, spec) && OnPass(c, e, s0, spec, s)
    requires s.worker.Busy? && AtStage(c, e, s0, spec, s.(sentinel := next, worker := Idle), onward, inst)
    ensures OnPass(c, e, s0, spec, SentinelStep(s, next, onward, inst, Fine))
  {
    GoesOnFrom(c, e, s0, spec, SentinelStep(s, next, onward, inst, Fine));
  }

  lemma CreateOnPass(c: Config, e: Surroundings, s0: State, spec: NacosSpec, s: State)
    requires Begins(c, e, s0, spec) && OnPass(c, e, s0, spec, s)
    requires At(s, AtInitCreate)
    ensures OnPass(c, e, s0, spec, SentinelCreated(s, Fine))
  {
    var next := if s.sentinel.None? then Some({}) else s.sentinel;
    SentinelOnPass(c, e, s0, spec, s, next, AtInitDelete, s.worker.inst);
  }

  lemma DeleteOnPass(c: Config, e: Surroundings, s0: State, spec: NacosSpec, s: State)
    requires Begins(c, e, s0, spec) && OnPass(c, e, s0, spec, s)
    requires At(s, AtInitDelete)
    ensures OnPass(c, e, s0, spec, SentinelCleared(s, Fine))
  {
    SentinelOnPass(c, e, s0, spec, s, Some({}), AtInitInsert, s.worker.inst);
  }

  lemma InsertOnPass(c: Config, e: Surroundings, s0: State, spec: NacosSpec, s: State)
    requires Begins(c, e, s0, spec) && OnPass(c, e, s0, spec, s)
    requires At(s, AtInitInsert)
    ensures OnPass(c, e, s0, spec, SentinelInserted(s, Fine))
  {
    var inst, version := s.worker.inst, DesiredVersion(spec);
    SentinelOnPass(c, e, s0, spec, s, Some({version}), AtInitWrite,
                   inst.(status := inst.status.(pg := PGStatus(true, version, s.clock, "Success"))));
  }

  /** A status write that is heard of. */
  lemma WriteGrows(s0: State, s: State, spec: NacosSpec, inst: Instance, stored: NacosStatus, held: NacosStatus)
    requires Holds(s0, s, spec, inst, stored, held)
    requires held == Latest(s0).status ==> stored == held
    ensures var w := WriteStatus(s.versions, s.clock, inst, Fine);
      && w.ok && w.versions != [] && w.inst == inst.(rv := |w.versions| - 1) && s.cache < |w.versions|
      && Grown(s0, s.(versions := w.versions, worker := Idle), spec, held)
  {
    WriteShape(s, inst, Fine);
  }

  lemma InitWriteOnPass(c: Config, e: Surroundings, s0: State, spec: NacosSpec, s: State)
    requires Begins(c, e, s0, spec) && OnPass(c, e, s0, spec, s)
    requires At(s, AtInitWrite)
    ensures OnPass(c, e, s0, spec, InitRecorded(s, Fine))
  {
    var inst, loaded := s.worker.inst, Latest(s0).status;
    WriteGrows(s0, s, spec, inst, loaded, WithInit(spec, loaded, s0.clock));
    GoesOnFrom(c, e, s0, spec, InitRecorded(s, Fine));
  }

  lemma RotationGrows(e: Surroundings, s0: State, spec: NacosSpec, s: State, inited: NacosStatus, based: NacosStatus)
    requires At(s, AtRotate) && Holds(s0, s, spec, s.worker.inst, inited, inited)
    requires var rotated := Rotation(e, spec, inited.admin, s.clock);
      based == if rotated.Some? then inited.(admin := rotated.value) else inited
    requires based == Latest(s0).status ==> inited == based
    ensures
      var t := AdminRotated(s, Rotation(e, spec, inited.admin, s.clock), Fine);
      && At(t, AtReadInternal) && t == s.(versions := t.versions, worker := t.worker)
      && Holds(s0, t, spec, t.worker.inst, based, based)
  {
    if Rotation(e, spec, inited.admin, s.clock).Some? {
      WriteGrows(s0, s, spec, s.worker.inst.(status := based), inited, based);
    }
  }

  /** Initialising is not undone by rotating. */
  lemma BasedMeansInited(e: Surroundings, spec: NacosSpec, status: NacosStatus, clock: int)
    ensures WithDatabase(e, spec, status, clock) == status ==> WithInit(spec, status, clock) == status
  {
    assert WithDatabase(e, spec, status, clock).pg == WithInit(spec, status, clock).pg;
  }

  lemma RotateOnPass(c: Config, e: Surroundings, s0: State, spec: NacosSpec, s: State)
    requires Begins(c, e, s0, spec) && OnPass(c, e, s0, spec, s)
    requires At(s, AtRotate)
    ensures OnPass(c, e, s0, spec, AdminRotated(s, Rotation(e, spec, s.worker.inst.status.admin, s.clock), Fine))
  {
    var loaded := Latest(s0).status;
    BasedMeansInited(e, spec, loaded, s0.clock);
    RotationGrows(e, s0, spec, s, WithInit(spec, loaded, s0.clock), WithDatabase(e, spec, loaded, s0.clock));
    RotatedGoesOn(c, e, s0, spec, s, AdminRotated(s, Rotation(e, spec, s.worker.inst.status.admin, s.clock), Fine));
  }

  lemma RotatedGoesOn(c: Config, e: Surroundings, s0: State, spec: NacosSpec, s: State, t: State)
    requires Begins(c, e, s0, spec) && OnPass(c, e, s0, spec, s)
    requires At(s, AtRotate) && At(t, AtReadInternal) && t == s.(versions := t.versions, worker := t.worker)
    requires var based := WithDatabase(e, spec, Latest(s0).status, s0.clock);
      Holds(s0, t, spec, t.worker.inst, based, based)
    ensures OnPass(c, e, s0, spec, t)
  {
    GoesOnFrom(c, e, s0, spec, t);
  }

  lemma InternalOnPass(c: Config, e: Surroundings, s0: State, spec: NacosSpec, s: State)
    requires Begins(c, e, s0, spec) && OnPass(c, e, s0, spec, s)
    requires At(s, AtReadInternal)
    ensures OnPass(c, e, s0, spec, InternalRead(s))
  {
    GoesOn(c, e, s0, spec, s, AtReadUser(ReadInternal(spec, s.sources).value), s.worker.inst);
  }

  lemma UserOnPass(c: Config, e: Surroundings, s0: State, spec: NacosSpec, s: State)
    requires Begins(c, e, s0, spec) && OnPass(c, e, s0, spec, s)
    requires s.worker.Busy? && s.worker.control.AtReadUser?
    ensures OnPass(c, e, s0, spec, UserRead(s))
  {
    GoesOn(c, e, s0, spec, s, AtWriteFinal(FinalContent(spec, s.sources).value), s.worker.inst);
  }

  lemma FinalOnPass(c: Config, e: Surroundings, s0: State, spec: NacosSpec, s: State)
    requires Begins(c, e, s0, spec) && OnPass(c, e, s0, spec, s)
    requires s.worker.Busy? && s.worker.control.AtWriteFinal?
    ensures OnPass(c, e, s0, spec, FinalWritten(c, s, Fine))
  {
    GoesOnFrom(c, e, s0, spec, FinalWritten(c, s, Fine));
  }

  lemma GetOnPass(c: Config, e: Surroundings, s0: State, spec: NacosSpec, s: State, desired: StatefulSet)
    requires Begins(c, e, s0, spec) && OnPass(c, e, s0, spec, s)
    requires At(s, AtGetSts) && c.builds(spec, s.worker.inst.status.configDigest, desired)
    ensures OnPass(c, e, s0, spec, Goto(s, AtActSts(s.sts, desired), s.worker.inst))
  {
    GoesOn(c, e, s0, spec, s, AtActSts(s.sts, desired), s.worker.inst);
  }

  lemma ServicesOnPass(c: Config, e: Surroundings, s0: State, spec: NacosSpec, s: State)
    requires Begins(c, e, s0, spec) && OnPass(c, e, s0, spec, s)
    requires At(s, AtServices)
    ensures OnPass(c, e, s0, spec, Goto(s, AtCheck, StageDone(s.worker.inst)))
  {
    GoesOn(c, e, s0, spec, s, AtCheck, StageDone(s.worker.inst));
  }

  /** What the request does to the store when it is heard of. */
  lemma Acts(c: Config, s0: State, spec: NacosSpec, s: State)
    requires FinalContent(spec, s0.sources).Ok? && StsAsBefore(s0, s)
    requires s.worker.Busy? && s.worker.control.AtActSts? && s.worker.control.observed == s.sts
    requires IsBuild(c, s0, spec, s.worker.control.desired)
    ensures var t, desired := StsActed(s, Fine), s.worker.control.desired;
      if Crashes(s.sts, desired)
      then t == Goto(s, AtHandle(Plain), s.worker.inst) && Crashing(c, s0, spec)
      else t == Goto(s, AtServices, s.worker.inst).(sts := t.sts, pendingSts := t.pendingSts)
           && Applied(c, s0, spec, t.sts, t.pendingSts)
  {
    var t, desired := StsActed(s, Fine), s.worker.control.desired;
    if !Crashes(s.sts, desired) {
      assert t.sts == AfterCall(s0.sts, desired);
    }
  }

  lemma ActOnPass(c: Config, e: Surroundings, s0: State, spec: NacosSpec, s: State)
    requires Begins(c, e, s0, spec) && OnPass(c, e, s0, spec, s)
    requires s.worker.Busy? && s.worker.control.AtActSts?
    ensures OnPass(c, e, s0, spec, StsActed(s, Fine))
  {
    Acts(c, s0, spec, s);
    if Crashes(s.sts, s.worker.control.desired) {
      CrashOnPass(c, e, s0, spec, s);
    } else {
      ApplyOnPass(c, e, s0, spec, s, StsActed(s, Fine));
    }
  }

  lemma CrashOnPass(c: Config, e: Surroundings, s0: State, spec: NacosSpec, s: State)
    requires Begins(c, e, s0, spec) && OnPass(c, e, s0, spec, s)
    requires s.worker.Busy? && s.worker.control.AtActSts? && Crashes(s.sts, s.worker.control.desired)
    ensures OnPass(c, e, s0, spec, Goto(s, AtHandle(Plain), s.worker.inst))
  {
    assert IsBuild(c, s0, spec, s.worker.control.desired);
    GoesOn(c, e, s0, spec, s, AtHandle(Plain), s.worker.inst);
  }

  lemma ApplyOnPass(c: Config, e: Surroundings, s0: State, spec: NacosSpec, s: State, t: State)
    requires Begins(c, e, s0, spec) && OnPass(c, e, s0, spec, s)
    requires s.worker.Busy? && s.worker.control.AtActSts? && Applied(c, s0, spec, t.sts, t.pendingSts)
    requires t == Goto(s, AtServices, s.worker.inst).(sts := t.sts, pendingSts := t.pendingSts)
    ensures OnPass(c, e, s0, spec, t)
  {
    GoesOnFrom(c, e, s0, spec, t);
  }

  lemma CheckOnPass(c: Config, e: Surroundings, s0: State, spec: NacosSpec, s: State)
    requires Begins(c, e, s0, spec) && OnPass(c, e, s0, spec, s)
    requires At(s, AtCheck) && CheckPasses(e, s)
    ensures OnPass(c, e, s0, spec, Checked(s, SeenConditions(e), SeenVersion(e, s.worker.inst.status.version), None))
  {
  }

  /** The check does not find the StatefulSet that had to be deleted. */
  lemma RemovedOnPass(c: Config, e: Surroundings, s0: State, spec: NacosSpec, s: State)
    requires Begins(c, e, s0, spec) && OnPass(c, e, s0, spec, s)
    requires At(s, AtCheck) && s.sts.None?
    ensures OnPass(c, e, s0, spec, Goto(s, AtHandle(Plain), s.worker.inst))
  {
    GoesOn(c, e, s0, spec, s, AtHandle(Plain), s.worker.inst);
  }

  lemma RunningGrows(s0: State, s: State, spec: NacosSpec, stored: NacosStatus, held: NacosStatus)
    requires At(s, AtUpdateStatus) && Holds(s0, s, spec, s.worker.inst, stored, held)
    requires var passed := Status.RunningStatus(held, s.clock); passed == Latest(s0).status ==> stored == passed
    ensures var t := RunningWritten(s, Fine);
      t == s.(versions := t.versions, worker := Idle) && Grown(s0, t, spec, Status.RunningStatus(held, s.clock))
  {
    var passed := Status.RunningStatus(held, s.clock);
    WriteGrows(s0, s, spec, s.worker.inst.(status := passed), stored, passed);
  }

  lemma RunningOnPass(c: Config, e: Surroundings, s0: State, spec: NacosSpec, s: State)
    requires Begins(c, e, s0, spec) && OnPass(c, e, s0, spec, s)
    requires At(s, AtUpdateStatus)
    ensures OnPass(c, e, s0, spec, RunningWritten(s, Fine))
  {
    var loaded := Latest(s0).status;
    OnlyDatabase(e, spec, loaded, s0.clock, Digest(c, s0, spec));
    BeforeUpdate(c, e, s0, spec, s);
    RunningGrows(s0, s, spec, WithDatabase(e, spec, loaded, s0.clock), s.worker.inst.status);
    Ends(c, e, s0, spec, s, RunningWritten(s, Fine));
  }

  /** What the last stage finds. */
  lemma BeforeUpdate(c: Config, e: Surroundings, s0: State, spec: NacosSpec, s: State)
    requires Begins(c, e, s0, spec) && OnPass(c, e, s0, spec, s) && At(s, AtUpdateStatus)
    ensures var loaded, held := Latest(s0).status, s.worker.inst.status;
      && Holds(s0, s, spec, s.worker.inst, WithDatabase(e, spec, loaded, s0.clock), held)
      && Status.RunningStatus(held, s.clock) == PassedStatus(e, spec, Digest(c, s0, spec), loaded, s0.clock)
  {
  }

  lemma Ends(c: Config, e: Surroundings, s0: State, spec: NacosSpec, s: State, t: State)
    requires Begins(c, e, s0, spec) && OnPass(c, e, s0, spec, s)
    requires At(s, AtUpdateStatus) && t == s.(versions := t.versions, worker := Idle)
    requires Grown(s0, t, spec, PassedStatus(e, spec, Digest(c, s0, spec), Latest(s0).status, s0.clock))
    ensures OnPass(c, e, s0, spec, t)
  {
  }

  /** A reconcile that ends with the status it began with has left the database part of it alone. */
  lemma OnlyDatabase(e: Surroundings, spec: NacosSpec, status: NacosStatus, clock: int, configDigest: string)
    ensures PassedStatus(e, spec, configDigest, status, clock) == status ==>
      WithDatabase(e, spec, status, clock) == status
  {
    var based := WithDatabase(e, spec, status, clock);
    assert based == status.(pg := based.pg, admin := based.admin);
  }

  lemma NamingGrows(c: Config, s0: State, spec: NacosSpec, s: State)
    requires At(s, AtHandle(Coded(CODE_NORMAL, ""))) && Formed(s0) && Latest(s0).status.phase == PhaseNone
    requires Holds(s0, s, spec, s.worker.inst, Latest(s0).status, Named(Latest(s0).status))
    ensures var t := Handled(c, s, Fine);
      && t == s.(versions := t.versions, queued := true, worker := Idle)
      && Grown(s0, t, spec, Named(Latest(s0).status))
  {
    var named := Named(Latest(s0).status);
    assert Status.Synced(named) == named;
    WriteGrows(s0, s, spec, s.worker.inst, Latest(s0).status, named);
  }

  lemma NameOnPass(c: Config, e: Surroundings, s0: State, spec: NacosSpec, s: State)
    requires Begins(c, e, s0, spec) && OnPass(c, e, s0, spec, s)
    requires s.worker.Busy? && s.worker.control.AtHandle? && Latest(s0).status.phase == PhaseNone
    ensures OnPass(c, e, s0, spec, Handled(c, s, Fine))
  {
    NamingGrows(c, s0, spec, s);
  }

  lemma PanicOnPass(c: Config, e: Surroundings, s0: State, spec: NacosSpec, s: State)
    requires Begins(c, e, s0, spec) && OnPass(c, e, s0, spec, s)
    requires s.worker.Busy? && s.worker.control.AtHandle? && Latest(s0).status.phase != PhaseNone
    ensures OnPass(c, e, s0, spec, s.(queued := true, worker := Idle))
  {
  }

  lemma HandleOnPass(c: Config, e: Surroundings, s0: State, spec: NacosSpec, s: State)
    requires Begins(c, e, s0, spec) && OnPass(c, e, s0, spec, s)
    requires s.worker.Busy? && s.worker.control.AtHandle?
    ensures OnPass(c, e, s0, spec, Handled(c, s, Fine))
  {
    if Latest(s0).status.phase == PhaseNone {
      NameOnPass(c, e, s0, spec, s);
    } else {
      PanicOnPass(c, e, s0, spec, s);
      assert s.worker.control.failure == Plain;
    }
  }
}
