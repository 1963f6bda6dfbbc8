/**
 pkg/util/merge/merge.go, field by field: a field that the override sets has the override's value, and one that it
 leaves zero has the original's.
 */
module ContainerFields {
  import opened Strings
  import opened KeyedLists
  import opened ContainerMerge

  // ----- One field -----

  predicate TextFrom(merged: string, original: string, override: string) {
    (override != "" ==> merged == override) && (override == "" ==> merged == original)
  }

  predicate NumberFrom(merged: int, original: int, override: int) {
    (override != 0 ==> merged == override) && (override == 0 ==> merged == original)
  }

  predicate PointerFrom<T(==)>(merged: Option<T>, original: Option<T>, override: Option<T>) {
    (override.Some? ==> merged == override) && (override.None? ==> merged == original)
  }

  predicate FlagFrom(merged: bool, original: bool, override: bool) {
    (override ==> merged) && (!override ==> merged == original)
  }

  // ----- One element -----

  predicate PortFrom(merged: ContainerPort, original: ContainerPort, override: ContainerPort) {
    && TextFrom(merged.name, original.name, override.name)
    && NumberFrom(merged.hostPort, original.hostPort, override.hostPort)
    && NumberFrom(merged.containerPort, original.containerPort, override.containerPort)
    && TextFrom(merged.protocol, original.protocol, override.protocol)
    && TextFrom(merged.hostIP, original.hostIP, override.hostIP)
  }

  predicate MountFrom(merged: VolumeMount, original: VolumeMount, override: VolumeMount) {
    && TextFrom(merged.name, original.name, override.name)
    && FlagFrom(merged.readOnly, original.readOnly, override.readOnly)
    && TextFrom(merged.mountPath, original.mountPath, override.mountPath)
    && TextFrom(merged.subPath, original.subPath, override.subPath)
    && PointerFrom(merged.mountPropagation, original.mountPropagation, override.mountPropagation)
    && TextFrom(merged.subPathExpr, original.subPathExpr, override.subPathExpr)
  }

  predicate DeviceFrom(merged: VolumeDevice, original: VolumeDevice, override: VolumeDevice) {
    && TextFrom(merged.name, original.name, override.name)
    && TextFrom(merged.devicePath, original.devicePath, override.devicePath)
  }

  /** A source displaces a value and a value a source. */
  predicate EnvFrom(merged: EnvVar, original: EnvVar, override: EnvVar) {
    && merged.name == original.name
    && (override.valueFrom.Some? ==> merged.valueFrom == override.valueFrom && merged.value == "")
    && (override.valueFrom.None? && override.value != "" ==>
          merged.value == override.value && merged.valueFrom.None?)
    && (override.valueFrom.None? && override.value == "" ==> merged == original)
  }

  predicate ResourcesFrom(merged: ResourceRequirements, original: ResourceRequirements,
                          override: ResourceRequirements) {
    && PointerFrom(merged.limits, original.limits, override.limits)
    && PointerFrom(merged.requests, original.requests, override.requests)
  }

  /** The grace period is never taken from the override. */
  predicate ProbeFrom(merged: Option<Probe>, original: Option<Probe>, override: Option<Probe>) {
    && (override.None? ==> merged == original) && (override.Some? && original.None? ==> merged == override)
    && (override.Some? && original.Some? ==>
          && merged.Some?
          && var m, o, v := merged.value, original.value, override.value;
             && PointerFrom(m.exec, o.exec, v.exec) && PointerFrom(m.httpGet, o.httpGet, v.httpGet)
             && PointerFrom(m.tcpSocket, o.tcpSocket, v.tcpSocket)
             && NumberFrom(m.initialDelaySeconds, o.initialDelaySeconds, v.initialDelaySeconds)
             && NumberFrom(m.timeoutSeconds, o.timeoutSeconds, v.timeoutSeconds)
             && NumberFrom(m.periodSeconds, o.periodSeconds, v.periodSeconds)
             && NumberFrom(m.successThreshold, o.successThreshold, v.successThreshold)
             && NumberFrom(m.failureThreshold, o.failureThreshold, v.failureThreshold)
             && m.terminationGrace == o.terminationGrace)
  }

  predicate LifecycleFrom(merged: Option<Lifecycle>, original: Option<Lifecycle>, override: Option<Lifecycle>) {
    && (override.None? ==> merged == original) && (override.Some? && original.None? ==> merged == override)
    && (override.Some? && original.Some? ==>
          && merged.Some?
          && PointerFrom(merged.value.postStart, original.value.postStart, override.value.postStart)
          && PointerFrom(merged.value.preStop, original.value.preStop, override.value.preStop))
  }

  /** The seccomp profile is never taken from the override. */
  predicate SecurityFrom(merged: Option<SecurityContext>, original: Option<SecurityContext>,
                         override: Option<SecurityContext>) {
    && (override.None? ==> merged == original) && (override.Some? && original.None? ==> merged == override)
    && (override.Some? && original.Some? ==>
          && merged.Some?
          && var m, o, v := merged.value, original.value, override.value;
             && PointerFrom(m.capabilities, o.capabilities, v.capabilities)
             && PointerFrom(m.privileged, o.privileged, v.privileged)
             && PointerFrom(m.seLinuxOptions, o.seLinuxOptions, v.seLinuxOptions)
             && PointerFrom(m.windowsOptions, o.windowsOptions, v.windowsOptions)
             && PointerFrom(m.runAsUser, o.runAsUser, v.runAsUser)
             && PointerFrom(m.runAsGroup, o.runAsGroup, v.runAsGroup)
             && PointerFrom(m.runAsNonRoot, o.runAsNonRoot, v.runAsNonRoot)
             && PointerFrom(m.readOnlyRootFilesystem, o.readOnlyRootFilesystem, v.readOnlyRootFilesystem)
             && PointerFrom(m.allowPrivilegeEscalation, o.allowPrivilegeEscalation, v.allowPrivilegeEscalation)
             && PointerFrom(m.procMount, o.procMount, v.procMount)
             && m.seccompProfile == o.seccompProfile)
  }

  lemma ResourcesMerged(o: ResourceRequirements, v: ResourceRequirements)
    ensures ResourcesFrom(MergeResources(o, v), o, v)
  {
  }

  lemma ProbeMerged(o: Option<Probe>, v: Option<Probe>)
    ensures ProbeFrom(MergeProbe(o, v), o, v)
  {
  }

  lemma LifecycleMerged(o: Option<Lifecycle>, v: Option<Lifecycle>)
    ensures LifecycleFrom(MergeLifecycle(o, v), o, v)
  {
  }

  lemma SecurityMerged(o: Option<SecurityContext>, v: Option<SecurityContext>)
    ensures SecurityFrom(MergeSecurityContext(o, v), o, v)
  {
  }

  // ----- Lists: each name once, in order; the last entries of a name merged, those of one side as they are -----

  /** Nothing behind place i has its key. */
  predicate IsLast<T>(xs: seq<T>, key: T -> string, i: nat) {
    i < |xs| && forall j :: i < j < |xs| ==> key(xs[j]) != key(xs[i])
  }

  lemma {:induction false} LastIsKept<T>(xs: seq<T>, key: T -> string, i: nat)
    requires IsLast(xs, key, i)
    ensures key(xs[i]) in LastWins(xs, key) && LastWins(xs, key)[key(xs[i])] == xs[i]
  {
    if i < |xs| - 1 {
      LastIsKept(xs[..|xs| - 1], key, i);
      assert key(xs[|xs| - 1]) != key(xs[i]);
    }
  }

  /** What stands under a key of a merged list. */
  lemma EntryIsThere<T>(a: seq<T>, b: seq<T>, key: T -> string, combine: (T, T) -> T, k: string)
    requires KeepsKeys(a, b, key, combine) && k in Overlay(LastWins(a, key), LastWins(b, key), combine)
    ensures Overlay(LastWins(a, key), LastWins(b, key), combine)[k] in Merged(a, b, key, combine)
  {
    MergedMeaning(a, b, key, combine);
    ValueInList(Merged(a, b, key, combine), key, k);
  }

  lemma ValueInList<T>(xs: seq<T>, key: T -> string, k: string)
    requires k in LastWins(xs, key)
    ensures LastWins(xs, key)[k] in xs
  {
    LastWinsFromList(xs, key, k);
  }

  lemma PortsMerged(a: seq<ContainerPort>, b: seq<ContainerPort>, i: nat, j: nat)
    requires IsLast(a, PortKey, i) && IsLast(b, PortKey, j) && a[i].name == b[j].name
    ensures exists p :: p in MergedPorts(a, b) && p.name == a[i].name && PortFrom(p, a[i], b[j])
    ensures forall x, y :: 0 <= x < y < |MergedPorts(a, b)| ==>
      Less(MergedPorts(a, b)[x].name, MergedPorts(a, b)[y].name)
  {
    PortNamesKeep(a, b);
    LastIsKept(a, PortKey, i);
    LastIsKept(b, PortKey, j);
    EntryIsThere(a, b, PortKey, MergePort, a[i].name);
    MergedMeaning(a, b, PortKey, MergePort);
    assert PortFrom(MergePort(a[i], b[j]), a[i], b[j]);
  }

  lemma DevicesMerged(a: seq<VolumeDevice>, b: seq<VolumeDevice>, i: nat, j: nat)
    requires IsLast(a, DeviceKey, i) && IsLast(b, DeviceKey, j) && a[i].name == b[j].name
    ensures exists d :: d in MergedDevices(a, b) && d.name == a[i].name && DeviceFrom(d, a[i], b[j])
    ensures forall x, y :: 0 <= x < y < |MergedDevices(a, b)| ==>
      Less(MergedDevices(a, b)[x].name, MergedDevices(a, b)[y].name)
  {
    DeviceNamesKeep(a, b);
    LastIsKept(a, DeviceKey, i);
    LastIsKept(b, DeviceKey, j);
    EntryIsThere(a, b, DeviceKey, MergeDevice, a[i].name);
    MergedMeaning(a, b, DeviceKey, MergeDevice);
    assert DeviceFrom(MergeDevice(a[i], b[j]), a[i], b[j]);
  }

  lemma EnvsMerged(a: seq<EnvVar>, b: seq<EnvVar>, i: nat, j: nat)
    requires IsLast(a, EnvKey, i) && IsLast(b, EnvKey, j) && a[i].name == b[j].name
    ensures exists e :: e in MergedEnvs(a, b) && e.name == a[i].name && EnvFrom(e, a[i], b[j])
    ensures forall x, y :: 0 <= x < y < |MergedEnvs(a, b)| ==>
      Less(MergedEnvs(a, b)[x].name, MergedEnvs(a, b)[y].name)
  {
    NamesKeep(a, b);
    LastIsKept(a, EnvKey, i);
    LastIsKept(b, EnvKey, j);
    EntryIsThere(a, b, EnvKey, MergeSingleEnv, a[i].name);
    MergedMeaning(a, b, EnvKey, MergeSingleEnv);
    assert EnvFrom(MergeSingleEnv(a[i], b[j]), a[i], b[j]);
  }

  /** Mounts of one name, path and sub-path, where keys identify. */
  lemma MountsMerged(a: seq<VolumeMount>, b: seq<VolumeMount>, i: nat, j: nat)
    requires MountKeysIdentify(a, b)
    requires IsLast(a, VolumeMountToString, i) && IsLast(b, VolumeMountToString, j) && SameMount(a[i], b[j])
    ensures exists m :: m in MergedMounts(a, b) && SameMount(m, a[i]) && MountFrom(m, a[i], b[j])
  {
    MountKeysKeep(a, b);
    LastIsKept(a, VolumeMountToString, i);
    LastIsKept(b, VolumeMountToString, j);
    EntryIsThere(a, b, VolumeMountToString, MergeMount, VolumeMountToString(a[i]));
    assert MountFrom(MergeMount(a[i], b[j]), a[i], b[j]);
  }

  // ----- A whole container -----

  ghost predicate StringsFrom(merged: seq<string>, original: seq<string>, override: seq<string>) {
    original <= merged && forall s :: s in merged <==> s in original || s in override
  }

  /** Every field of a merged container but its mounts; the lists of elements are merged each from its own. */
  ghost predicate FieldsFrom(m: Container, o: Container, v: Container) {
    && TextFrom(m.name, o.name, v.name) && TextFrom(m.image, o.image, v.image)
    && StringsFrom(m.command, o.command, v.command) && StringsFrom(m.args, o.args, v.args)
    && TextFrom(m.workingDir, o.workingDir, v.workingDir) && m.envFrom == o.envFrom
    && ResourcesFrom(m.resources, o.resources, v.resources)
    && ProbeFrom(m.livenessProbe, o.livenessProbe, v.livenessProbe)
    && ProbeFrom(m.readinessProbe, o.readinessProbe, v.readinessProbe)
    && ProbeFrom(m.startupProbe, o.startupProbe, v.startupProbe)
    && LifecycleFrom(m.lifecycle, o.lifecycle, v.lifecycle)
    && TextFrom(m.terminationMessagePath, o.terminationMessagePath, v.terminationMessagePath)
    && TextFrom(m.terminationMessagePolicy, o.terminationMessagePolicy, v.terminationMessagePolicy)
    && TextFrom(m.imagePullPolicy, o.imagePullPolicy, v.imagePullPolicy)
    && SecurityFrom(m.securityContext, o.securityContext, v.securityContext)
    && FlagFrom(m.stdin, o.stdin, v.stdin) && FlagFrom(m.stdinOnce, o.stdinOnce, v.stdinOnce)
    && FlagFrom(m.tty, o.tty, v.tty)
    && m.ports == MergedPorts(o.ports, v.ports) && m.env == MergedEnvs(o.env, v.env)
    && m.volumeDevices == MergedDevices(o.volumeDevices, v.volumeDevices)
  }

  lemma ContainerMerged(m: Container, o: Container, v: Container)
    requires IsMergeOf(m, o, v)
    ensures FieldsFrom(m, o, v)
    ensures MountKeysIdentify(o.volumeMounts, v.volumeMounts) ==>
      m.volumeMounts == MergedMounts(o.volumeMounts, v.volumeMounts)
  {
    AppendNewHas(o.command, v.command);
    AppendNewHas(o.args, v.args);
    ProbeMerged(o.livenessProbe, v.livenessProbe);
    ProbeMerged(o.readinessProbe, v.readinessProbe);
    ProbeMerged(o.startupProbe, v.startupProbe);
    LifecycleMerged(o.lifecycle, v.lifecycle);
    SecurityMerged(o.securityContext, v.securityContext);
  }

  /**
   Every container of a merged list is the last of its name on one side, if the other has none of that name, or the
   last of the original list with the last of the override list merged onto it.
   */
  lemma ContainerOfList(r: seq<Container>, a: seq<Container>, b: seq<Container>, n: nat)
    requires IsMergeOfLists(r, a, b) && n < |r|
    ensures var x, y, k := LastWins(a, ContainerKey), LastWins(b, ContainerKey), r[n].name;
      && (k in x || k in y)
      && (k in x && k !in y ==> EqualButMounts(r[n], x[k]))
      && (k !in x && k in y ==> EqualButMounts(r[n], y[k]))
      && (k in x && k in y ==> FieldsFrom(r[n], x[k], y[k]))
  {
    var all := MergedContainers(a, b);
    assert EqualButMounts(r[n], all[n]);
    ContainerNamesKeep(a, b);
    MergedFrom(a, b, ContainerKey, MergedContainer, all[n]);
    var x, y, k := LastWins(a, ContainerKey), LastWins(b, ContainerKey), r[n].name;
    if k in x && k in y {
      ContainerMerged(MergedContainer(x[k], y[k]), x[k], y[k]);
    }
  }

  /** And there is one of each name of either list, in the order of the names. */
  lemma ContainersByName(r: seq<Container>, a: seq<Container>, b: seq<Container>, k: string)
    requires IsMergeOfLists(r, a, b)
    ensures (exists n :: 0 <= n < |r| && r[n].name == k) <==>
      (exists i :: 0 <= i < |a| && a[i].name == k) || exists i :: 0 <= i < |b| && b[i].name == k
    ensures forall m, n :: 0 <= m < n < |r| ==> Less(r[m].name, r[n].name)
  {
    var all := MergedContainers(a, b);
    ContainerNamesKeep(a, b);
    MergedMeaning(a, b, ContainerKey, MergedContainer);
    NameInList(a, k);
    NameInList(b, k);
    NameInList(all, k);
    assert forall n :: 0 <= n < |r| ==> EqualButMounts(r[n], all[n]) && r[n].name == all[n].name;
  }

  lemma {:induction false} NameInList(xs: seq<Container>, k: string)
    ensures k in LastWins(xs, ContainerKey) <==> exists i :: 0 <= i < |xs| && xs[i].name == k
  {
    if xs != [] {
      var front := xs[..|xs| - 1];
      NameInList(front, k);
      forall i | 0 <= i < |xs| - 1 && xs[i].name == k ensures k in LastWins(front, ContainerKey) {
        assert front[i].name == k;
      }
      if k in LastWins(front, ContainerKey) {
        var i :| 0 <= i < |front| && front[i].name == k;
        assert xs[i].name == k;
      }
      assert xs[|xs| - 1].name == k ==> k in LastWins(xs, ContainerKey);
    }
  }
}
