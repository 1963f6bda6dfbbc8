/** From every state a restart and undisturbed reconciles settle a resource whose StatefulSet can settle. */
module MachineRecovery {
  import opened Strings
  import opened Api
  import opened StatefulSets
  import opened Kind
  import opened Machine
  import opened MachineRollout
  import opened MachineSteady
  import opened MachinePass
  import opened MachineSettles
  import Builder
  import MachineLog
  import Postgres
  import Status

  // ----- What two builds for one spec have in common -----

  /** Whether a stored object can settle does not depend on which build is wanted, nor on the digest. */
  ghost predicate SettlesAlike(c: Config) {
    forall spec, x, y, d, b, stored ::
      c.builds(spec, x, d) && c.builds(spec, y, b) ==> (CanSettle(stored, d) <==> CanSettle(stored, b))
  }

  ghost predicate IsUniform(c: Config) {
    BuildsAlike(c) && BuildsReplicas(c) && SettlesAlike(c)
  }

  lemma OperatorIsUniform(meta: Meta, digest: string -> string)
    ensures IsUniform(Concrete(meta, digest))
  {
    var c := Concrete(meta, digest);
    OperatorBuildsAlike(meta, digest);
    forall spec, x, y, d, b, stored | c.builds(spec, x, d) && c.builds(spec, y, b)
      ensures CanSettle(stored, d) <==> CanSettle(stored, b)
    {
      SameSettling(meta, Builder.WithDefaults(spec), x, y, d, b, stored);
    }
  }

  lemma SameSettling(meta: Meta, spec: NacosSpec, x: string, y: string, d: StatefulSet, b: StatefulSet,
                     stored: Option<StatefulSet>)
    requires Builder.IsDesired(d, meta, spec, x) && Builder.IsDesired(b, meta, spec, y)
    ensures CanSettle(stored, d) <==> CanSettle(stored, b)
  {
    Builder.DesiredHasContainer(d, meta, spec, x);
    Builder.DesiredHasContainer(b, meta, spec, y);
    assert d.claims == b.claims;
  }

  /** A call on what can settle returns, and leaves agreement or nothing to compare. */
  lemma OneCall(stored: Option<StatefulSet>, d: StatefulSet)
    requires CanSettle(stored, d)
    ensures !Crashes(stored, d) && CanSettle(AfterCall(stored, d), d)
    ensures AfterCall(stored, d).Some? ==> Settled(AfterCall(stored, d), d)
  {
    SelfAgreement(d);
    KeepIsAgreement(d, d);
    if stored.Some? && CheckSts(stored.value, d) == Update {
      UpdateKeepsComparable(stored.value, d);
    }
  }

  // ----- One round: a reconcile, and what it announces -----

  /** The events of the StatefulSet and of the resource reach the operator. */
  function Delivered(s: State): State
    requires Formed(s)
  {
    s.(pendingSts := false, cache := |s.versions| - 1,
       queued := s.queued || s.pendingSts || s.cache != |s.versions| - 1)
  }

  lemma Delivers(c: Config, e: Surroundings, s: State) returns (steps: seq<Step>)
    requires Formed(s)
    ensures Calmly(c, e, s, steps, Delivered(s))
  {
    var t := s;
    steps := [];
    CalmNone(c, e, s);
    if s.pendingSts {
      t := s.(pendingSts := false, queued := true);
      CalmOne(c, e, s, DeliverSts);
      steps := [DeliverSts];
    }
    if s.cache != |s.versions| - 1 {
      CalmOne(c, e, t, DeliverResource(|s.versions| - 1));
      CalmOn(c, e, s, steps, t, [DeliverResource(|s.versions| - 1)], Delivered(s));
      steps := steps + [DeliverResource(|s.versions| - 1)];
    }
  }

  lemma Round(c: Config, e: Surroundings, s: State, spec: NacosSpec, desired: StatefulSet)
    returns (steps: seq<Step>, t: State)
    requires Begins(c, e, s, spec) && IsBuild(c, s, spec, desired)
    ensures t.worker.Idle? && OnPass(c, e, s, spec, t) && Calmly(c, e, s, steps, Delivered(t))
  {
    var a;
    a, t := PassHappens(c, e, s, spec, desired);
    var b := Delivers(c, e, t);
    CalmOn(c, e, s, a, t, b, Delivered(t));
    steps := a + b;
  }

  /** After the reconcile either nothing is announced or the next one can begin. */
  lemma RoundEnds(c: Config, e: Surroundings, s: State, spec: NacosSpec, t: State)
    requires Begins(c, e, s, spec) && t.worker.Idle? && OnPass(c, e, s, spec, t) && s.pendingMaps == {}
    ensures var u := Delivered(t);
      && u.sources == s.sources && u.pendingMaps == {} && !u.pendingSts && u.clock == s.clock
      && Formed(u) && Latest(u).spec == spec
      && if u.queued then Begins(c, e, u, spec) else Rests(u)
  {
  }

  /** After the reconcile of a resource without a phase the next one can begin. */
  lemma NamedEnds(c: Config, e: Surroundings, s: State, spec: NacosSpec, t: State)
    requires Begins(c, e, s, spec) && t.worker.Idle? && OnPass(c, e, s, spec, t) && s.pendingMaps == {}
    requires Latest(s).status.phase == PhaseNone
    ensures var u := Delivered(t);
      && u.sources == s.sources && u.sts == s.sts && u.pendingMaps == {} && u.clock == s.clock
      && Begins(c, e, u, spec) && Latest(u).status == Named(Latest(s).status)
  {
    RoundEnds(c, e, s, spec, t);
  }

  lemma GetsPhase(c: Config, e: Surroundings, s: State, spec: NacosSpec, desired: StatefulSet)
    returns (steps: seq<Step>, t: State)
    requires Begins(c, e, s, spec) && IsBuild(c, s, spec, desired) && s.pendingMaps == {}
    ensures Calmly(c, e, s, steps, t) && Begins(c, e, t, spec) && Latest(t).status.phase != PhaseNone
    ensures t.sources == s.sources && t.sts == s.sts && t.pendingMaps == {} && t.clock == s.clock
    ensures Latest(t).status.events == Latest(s).status.events
  {
    if Latest(s).status.phase != PhaseNone {
      steps, t := [], s;
      CalmNone(c, e, s);
    } else {
      var u;
      steps, u := Round(c, e, s, spec, desired);
      NamedEnds(c, e, s, spec, u);
      t := Delivered(u);
    }
  }

  /** The next reconcile can begin, on a StatefulSet that can settle, with a log as long as it may get. */
  ghost predicate Settling(c: Config, e: Surroundings, s: State, spec: NacosSpec, desired: StatefulSet) {
    && Begins(c, e, s, spec) && IsBuild(c, s, spec, desired) && CanSettle(s.sts, desired)
    && Latest(s).status.phase != PhaseNone && s.pendingMaps == {} && |Latest(s).status.events| <= 11
  }

  /** What a call leaves of an object that can settle, whichever build it applies. */
  lemma CallAdvances(c: Config, s: State, spec: NacosSpec, desired: StatefulSet, d: StatefulSet)
    requires IsUniform(c) && FinalContent(spec, s.sources).Ok?
    requires IsBuild(c, s, spec, desired) && CanSettle(s.sts, desired) && IsBuild(c, s, spec, d)
    ensures !Crashes(s.sts, d) && CanSettle(AfterCall(s.sts, d), desired)
    ensures AfterCall(s.sts, d).Some? ==> Settled(AfterCall(s.sts, d), d)
    ensures AfterCall(s.sts, d).None? ==> s.sts.Some?
  {
    assert CanSettle(s.sts, d);
    OneCall(s.sts, d);
  }

  /** What a round leaves of a StatefulSet that can settle. */
  lemma StsAdvances(c: Config, e: Surroundings, s: State, spec: NacosSpec, desired: StatefulSet, t: State)
    requires IsUniform(c) && Settling(c, e, s, spec, desired) && t.worker.Idle? && OnPass(c, e, s, spec, t)
    ensures FinalStored(c, t.sources, t.finals, spec) && CanSettle(t.sts, desired)
    ensures t.sts.Some? ==> StsCurrent(c, t.sources, t.sts, spec)
    ensures t.sts.None? ==> t.queued && s.sts.Some?
  {
    forall d | IsBuild(c, s, spec, d)
      ensures !Crashes(s.sts, d) && CanSettle(AfterCall(s.sts, d), desired)
      ensures AfterCall(s.sts, d).Some? ==> Settled(AfterCall(s.sts, d), d)
      ensures AfterCall(s.sts, d).None? ==> s.sts.Some?
    {
      CallAdvances(c, s, spec, desired, d);
    }
    var d :| IsBuild(c, s, spec, d) && t.sts == AfterCall(s.sts, d);
  }

  /** Rolled out and at rest; rolled out and about to be reconciled, with nothing else on its way; or neither. */
  datatype Standing = AtRest | NearRest | Elsewhere

  ghost function StandingOf(c: Config, e: Surroundings, s: State, spec: NacosSpec): Standing {
    if s.versions == [] || Latest(s).spec != spec || !RolledOut(c, s, spec) then Elsewhere
    else if Rests(s) then AtRest
    else if Near(c, e, s, spec) then NearRest
    else Elsewhere
  }

  lemma CurrentStands(c: Config, e: Surroundings, v: State, spec: NacosSpec)
    requires Formed(v) && Latest(v).spec == spec && v.pendingMaps == {} && !v.pendingSts
    requires FinalStored(c, v.sources, v.finals, spec) && StsCurrent(c, v.sources, v.sts, spec)
    requires Latest(v).status.phase != PhaseNone && if v.queued then Begins(c, e, v, spec) else Rests(v)
    ensures StandingOf(c, e, v, spec) != Elsewhere
  {
  }

  /** What is current when the reconcile is over still is when its events are delivered. */
  lemma CurrentEnds(c: Config, e: Surroundings, s: State, spec: NacosSpec, u: State)
    requires Begins(c, e, s, spec) && u.worker.Idle? && OnPass(c, e, s, spec, u) && s.pendingMaps == {}
    requires Latest(s).status.phase != PhaseNone && FinalStored(c, u.sources, u.finals, spec)
    requires StsCurrent(c, u.sources, u.sts, spec)
    ensures StandingOf(c, e, Delivered(u), spec) != Elsewhere
    ensures |Latest(s).status.events| <= 11 ==> |Latest(Delivered(u)).status.events| <= 11
  {
    RoundEnds(c, e, s, spec, u);
    PhaseStays(c, e, s, spec, u);
    DeliveredStands(c, e, spec, u);
  }

  lemma DeliveredStands(c: Config, e: Surroundings, spec: NacosSpec, u: State)
    requires Formed(u) && var v := Delivered(u);
      && Formed(v) && Latest(v).spec == spec && v.pendingMaps == {} && !v.pendingSts
      && Latest(v).status.phase != PhaseNone && if v.queued then Begins(c, e, v, spec) else Rests(v)
    requires FinalStored(c, u.sources, u.finals, spec) && StsCurrent(c, u.sources, u.sts, spec)
    ensures StandingOf(c, e, Delivered(u), spec) != Elsewhere
  {
    CurrentStands(c, e, Delivered(u), spec);
  }

  lemma RemovedEnds(c: Config, e: Surroundings, s: State, spec: NacosSpec, desired: StatefulSet, u: State)
    requires Settling(c, e, s, spec, desired) && u.worker.Idle? && OnPass(c, e, s, spec, u)
    requires u.queued && CanSettle(u.sts, desired)
    ensures Settling(c, e, Delivered(u), spec, desired)
  {
    RoundEnds(c, e, s, spec, u);
    PhaseStays(c, e, s, spec, u);
  }

  lemma PhaseStays(c: Config, e: Surroundings, s: State, spec: NacosSpec, u: State)
    requires Begins(c, e, s, spec) && u.worker.Idle? && OnPass(c, e, s, spec, u)
    requires Latest(s).status.phase != PhaseNone
    ensures Latest(u).status.phase != PhaseNone
    ensures |Latest(s).status.events| <= 11 ==> |Latest(u).status.events| <= 11
  {
    var status := Latest(s).status;
    DatabaseKeepsPhase(e, spec, status, s.clock);
    PassedEvents(e, spec, Digest(c, s, spec), status, s.clock);
    if |status.events| <= 11 {
      LoggedOnce(status.events, RunningReport(s.clock));
    }
  }

  lemma DatabaseKeepsPhase(e: Surroundings, spec: NacosSpec, status: NacosStatus, clock: int)
    ensures var based := WithDatabase(e, spec, status, clock);
      based.phase == status.phase && based.events == status.events
  {
  }

  /** One round, after which only a StatefulSet that had to be deleted is not current. */
  lemma OneRound(c: Config, e: Surroundings, s: State, spec: NacosSpec, desired: StatefulSet)
    returns (steps: seq<Step>, t: State)
    requires IsUniform(c) && Settling(c, e, s, spec, desired)
    ensures Calmly(c, e, s, steps, t) && t.sources == s.sources
    ensures if t.sts.Some? then StandingOf(c, e, t, spec) != Elsewhere && |Latest(t).status.events| <= 11
            else s.sts.Some? && Settling(c, e, t, spec, desired)
  {
    var u;
    steps, u := Round(c, e, s, spec, desired);
    StsAdvances(c, e, s, spec, desired, u);
    t := Delivered(u);
    if u.sts.Some? {
      CurrentEnds(c, e, s, spec, u);
    } else {
      RemovedEnds(c, e, s, spec, desired, u);
    }
  }

  /** One round, or two where the StatefulSet has to be deleted first. */
  lemma ReachesNear(c: Config, e: Surroundings, s: State, spec: NacosSpec, desired: StatefulSet)
    returns (steps: seq<Step>, t: State)
    requires IsUniform(c) && Settling(c, e, s, spec, desired)
    ensures Calmly(c, e, s, steps, t) && t.sources == s.sources
    ensures StandingOf(c, e, t, spec) != Elsewhere && |Latest(t).status.events| <= 11
    decreases s.sts.Some?
  {
    steps, t := OneRound(c, e, s, spec, desired);
    if t.sts.None? {
      var more, v := ReachesNear(c, e, t, spec, desired);
      CalmOn(c, e, s, steps, t, more, v);
      steps, t := steps + more, v;
    }
  }

  // ----- Coming to rest -----

  lemma PassedOnce(e: Surroundings, spec: NacosSpec, configDigest: string, status: NacosStatus, clock: int)
    ensures var once := PassedStatus(e, spec, configDigest, status, clock);
      && once.phase == PhaseRunning && once.healthy
      && once.conditions == SeenConditions(e) && once.version == SeenVersion(e, once.version)
      && once.configDigest == configDigest
      && !InitDue(spec, once) && Rotation(e, spec, once.admin, clock).None?
  {
    Postgres.RecordedIsSkipped(spec.adminSecretChecksum, e.secret, clock);
  }

  lemma PassedLog(e: Surroundings, spec: NacosSpec, configDigest: string, status: NacosStatus, clock: int)
    requires |status.events| <= 11
    ensures var once := PassedStatus(e, spec, configDigest, status, clock);
      && EndsWith(once.events, RunningReport(clock)) && |once.events| <= 11
      && (EndsWith(status.events, RunningReport(clock)) ==> |once.events| <= 10)
  {
    PassedEvents(e, spec, configDigest, status, clock);
    LoggedOnce(status.events, RunningReport(clock));
  }

  lemma PassedEvents(e: Surroundings, spec: NacosSpec, configDigest: string, status: NacosStatus, clock: int)
    ensures PassedStatus(e, spec, configDigest, status, clock).events
      == Status.Logged(status.events, RunningReport(clock))
  {
  }

  lemma LoggedOnce(events: seq<Event>, r: Status.Report)
    requires |events| <= 11
    ensures var once := Status.Logged(events, r);
      EndsWith(once, r) && |once| <= 11 && (EndsWith(events, r) ==> |once| <= 10)
  {
    var kept := if |events| > Status.EVENT_MAX_SIZE then events[1..] else events;
    ExtendEndsWith(kept, r);
    if EndsWith(events, r) {
      assert kept[|kept| - 1] == events[|events| - 1];
      RefreshesLast(kept, r);
    }
  }

  /** In one second an undisturbed reconcile has nothing more to tell after the second. */
  lemma TwicePassedTellsAll(e: Surroundings, spec: NacosSpec, configDigest: string, status: NacosStatus, clock: int)
    requires |status.events| <= 11
    ensures var once := PassedStatus(e, spec, configDigest, status, clock);
      TellsAll(e, spec, configDigest, PassedStatus(e, spec, configDigest, once, clock), clock)
  {
    var once := PassedStatus(e, spec, configDigest, status, clock);
    PassedLog(e, spec, configDigest, status, clock);
    PassedLog(e, spec, configDigest, once, clock);
    PassedOnce(e, spec, configDigest, once, clock);
  }

  /** What a round near rest leaves. */
  lemma NearAgain(c: Config, e: Surroundings, s: State, spec: NacosSpec, u: State, passed: NacosStatus)
    requires BuildsAlike(c) && Near(c, e, s, spec) && u.worker.Idle? && OnPass(c, e, s, spec, u)
    requires passed == PassedStatus(e, spec, Digest(c, s, spec), Latest(s).status, s.clock)
    ensures var t := Delivered(u);
      && t.sources == s.sources && t.clock == s.clock && Formed(t)
      && StandingOf(c, e, t, spec) != Elsewhere && Latest(t).status == passed
      && (passed == Latest(s).status ==> Rests(t))
  {
    NearSucceeds(c, e, s, spec, u);
    CurrentEnds(c, e, s, spec, u);
    RestsIfSame(c, e, s, spec, u);
  }

  /** A round near rest. */
  lemma NearRound(c: Config, e: Surroundings, s: State, spec: NacosSpec, desired: StatefulSet, passed: NacosStatus)
    returns (steps: seq<Step>, t: State)
    requires BuildsAlike(c) && Near(c, e, s, spec) && IsBuild(c, s, spec, desired)
    requires passed == PassedStatus(e, spec, Digest(c, s, spec), Latest(s).status, s.clock)
    ensures Calmly(c, e, s, steps, t) && t.sources == s.sources && t.clock == s.clock
    ensures StandingOf(c, e, t, spec) != Elsewhere && Latest(t).status == passed
    ensures passed == Latest(s).status ==> Rests(t)
  {
    var u;
    steps, u := Round(c, e, s, spec, desired);
    t := Delivered(u);
    NearAgain(c, e, s, spec, u, passed);
  }

  lemma RestsAtOnce(c: Config, e: Surroundings, s: State, spec: NacosSpec, desired: StatefulSet, configDigest: string,
                    clock: int)
    returns (steps: seq<Step>, t: State)
    requires BuildsAlike(c) && FinalContent(spec, s.sources).Ok? && IsBuild(c, s, spec, desired)
    requires StandingOf(c, e, s, spec) != Elsewhere && configDigest == Digest(c, s, spec) && clock == s.clock
    requires Rests(s) || TellsAll(e, spec, configDigest, Latest(s).status, clock)
    ensures Calmly(c, e, s, steps, t) && t.sources == s.sources && StandingOf(c, e, t, spec) == AtRest
  {
    if Rests(s) {
      steps, t := [], s;
      CalmNone(c, e, s);
    } else {
      SameExactly(e, spec, configDigest, Latest(s).status, clock);
      steps, t := NearRound(c, e, s, spec, desired, Latest(s).status);
    }
  }

  lemma RestsInTwo(c: Config, e: Surroundings, s: State, spec: NacosSpec, desired: StatefulSet, configDigest: string,
                   clock: int, passed: NacosStatus)
    returns (steps: seq<Step>, t: State)
    requires BuildsAlike(c) && FinalContent(spec, s.sources).Ok? && IsBuild(c, s, spec, desired)
    requires StandingOf(c, e, s, spec) != Elsewhere && configDigest == Digest(c, s, spec) && clock == s.clock
    requires Rests(s) || passed == PassedStatus(e, spec, configDigest, Latest(s).status, clock)
    requires TellsAll(e, spec, configDigest, passed, clock)
    ensures Calmly(c, e, s, steps, t) && t.sources == s.sources && StandingOf(c, e, t, spec) == AtRest
  {
    if Rests(s) {
      steps, t := [], s;
      CalmNone(c, e, s);
    } else {
      var u;
      steps, u := NearRound(c, e, s, spec, desired, passed);
      var more;
      more, t := RestsAtOnce(c, e, u, spec, desired, configDigest, clock);
      CalmOn(c, e, s, steps, u, more, t);
      steps := steps + more;
    }
  }

  lemma ComesToRest(c: Config, e: Surroundings, s: State, spec: NacosSpec, desired: StatefulSet)
    returns (steps: seq<Step>, t: State)
    requires BuildsAlike(c) && FinalContent(spec, s.sources).Ok? && IsBuild(c, s, spec, desired)
    requires StandingOf(c, e, s, spec) != Elsewhere && |Latest(s).status.events| <= 11
    ensures Calmly(c, e, s, steps, t) && t.sources == s.sources && StandingOf(c, e, t, spec) == AtRest
  {
    if Rests(s) {
      steps, t := [], s;
      CalmNone(c, e, s);
    } else {
      var configDigest := Digest(c, s, spec);
      var once := PassedStatus(e, spec, configDigest, Latest(s).status, s.clock);
      var twice := PassedStatus(e, spec, configDigest, once, s.clock);
      TwicePassedTellsAll(e, spec, configDigest, Latest(s).status, s.clock);
      var u;
      steps, u := NearRound(c, e, s, spec, desired, once);
      var more;
      more, t := RestsInTwo(c, e, u, spec, desired, configDigest, s.clock, twice);
      CalmOn(c, e, s, steps, u, more, t);
      steps := steps + more;
    }
  }

  lemma FewEvents(c: Config, s0: State, steps: seq<Step>, s: State)
    requires Init(c, s0) && Leads(c, s0, steps, s) && Formed(s)
    ensures |Latest(s).status.events| <= 11
  {
    MachineLog.StoredCodes(c, s0, steps, s);
  }

  /**
   From every reachable state in which the sources can be merged, the pods are healthy and the StatefulSet can settle,
   a restart followed by nothing but undisturbed reconciles and deliveries of what they announce ends with the
   resource rolled out and at rest: nothing queued, nothing on its way, nothing dropped. The clock stands still.
   */
  lemma {:induction false} EveryStateSettles(c: Config, e: Surroundings, s0: State, before: seq<Step>, s: State,
                                             desired: StatefulSet)
    returns (steps: seq<Step>, t: State)
    requires IsUniform(c) && Init(c, s0) && Leads(c, s0, before, s) && Formed(s)
    requires CanMerge(c, Latest(s).spec, s.sources) && IsHealthy(e, Latest(s).spec.replicas)
    requires IsBuild(c, s, Latest(s).spec, desired) && CanSettle(s.sts, desired)
    ensures Calmly(c, e, Restarted(s), steps, t) && t.sources == s.sources && Rests(t)
    ensures Latest(t).spec == Latest(s).spec && RolledOut(c, t, Latest(s).spec)
  {
    var spec, r := Latest(s).spec, Restarted(s);
    FewEvents(c, s0, before, s);
    var u, v;
    steps, u := GetsPhase(c, e, r, spec, desired);
    var a, b;
    a, v := ReachesNear(c, e, u, spec, desired);
    CalmOn(c, e, r, steps, u, a, v);
    b, t := ComesToRest(c, e, v, spec, desired);
    CalmOn(c, e, r, steps + a, v, b, t);
    steps := steps + a + b;
  }
}
