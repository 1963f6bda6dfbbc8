/** pkg/util/merge/merge.go: merging the containers of a pod template, element by element and list by list. */
module ContainerMerge {
  import opened Strings
  import opened KeyedLists

  // ----- The parts of the Kubernetes API the merge reads; None stands for a nil pointer or map -----

  datatype EnvSource =
    | ConfigMapKey(configMap: string, configKey: string)
    | SecretKey(secret: string, secretKey: string)
    | PodField(fieldPath: string)
    | ContainerResource(resource: string)

  datatype EnvVar = EnvVar(name: string, value: string, valueFrom: Option<EnvSource>)

  datatype ContainerPort =
    ContainerPort(name: string, hostPort: int, containerPort: int, protocol: string, hostIP: string)

  datatype VolumeMount = VolumeMount(
    name: string, readOnly: bool, mountPath: string, subPath: string,
    mountPropagation: Option<string>, subPathExpr: string)

  datatype VolumeDevice = VolumeDevice(name: string, devicePath: string)

  datatype ResourceRequirements = ResourceRequirements(
    limits: Option<map<string, string>>, requests: Option<map<string, string>>)

  /** terminationGrace stands for the fields Probe leaves as the original has them. */
  datatype Probe = Probe(
    exec: Option<seq<string>>, httpGet: Option<string>, tcpSocket: Option<string>,
    initialDelaySeconds: int, timeoutSeconds: int, periodSeconds: int,
    successThreshold: int, failureThreshold: int, terminationGrace: Option<int>)

  datatype Lifecycle = Lifecycle(postStart: Option<string>, preStop: Option<string>)

  /** seccompProfile is never taken from the override. */
  datatype SecurityContext = SecurityContext(
    capabilities: Option<string>, privileged: Option<bool>, seLinuxOptions: Option<string>,
    windowsOptions: Option<string>, runAsUser: Option<int>, runAsGroup: Option<int>, runAsNonRoot: Option<bool>,
    readOnlyRootFilesystem: Option<bool>, allowPrivilegeEscalation: Option<bool>, procMount: Option<string>,
    seccompProfile: Option<string>)

  /** envFrom is never taken from the override. */
  datatype Container = Container(
    name: string, image: string, command: seq<string>, args: seq<string>, workingDir: string,
    ports: seq<ContainerPort>, envFrom: seq<string>, env: seq<EnvVar>, resources: ResourceRequirements,
    volumeMounts: seq<VolumeMount>, volumeDevices: seq<VolumeDevice>,
    livenessProbe: Option<Probe>, readinessProbe: Option<Probe>, startupProbe: Option<Probe>,
    lifecycle: Option<Lifecycle>, terminationMessagePath: string, terminationMessagePolicy: string,
    imagePullPolicy: string, securityContext: Option<SecurityContext>, stdin: bool, stdinOnce: bool, tty: bool)

  // ----- Element merges: a copy of the original, overwritten where the override is not zero -----

  function Text(original: string, override: string): string {
    if override != "" then override else original
  }

  function Number(original: int, override: int): int {
    if override != 0 then override else original
  }

  function Pointer<T>(original: Option<T>, override: Option<T>): Option<T> {
    if override.Some? then override else original
  }

  function MergeSingleEnv(original: EnvVar, override: EnvVar): EnvVar {
    var merged := if override.value != "" then original.(value := override.value, valueFrom := None) else original;
    if override.valueFrom.Some? then merged.(valueFrom := override.valueFrom, value := "") else merged
  }

  function MergePort(original: ContainerPort, override: ContainerPort): ContainerPort {
    ContainerPort(Text(original.name, override.name), Number(original.hostPort, override.hostPort),
                  Number(original.containerPort, override.containerPort),
                  Text(original.protocol, override.protocol), Text(original.hostIP, override.hostIP))
  }

  function MergeMount(original: VolumeMount, override: VolumeMount): VolumeMount {
    VolumeMount(Text(original.name, override.name), original.readOnly || override.readOnly,
                Text(original.mountPath, override.mountPath), Text(original.subPath, override.subPath),
                Pointer(original.mountPropagation, override.mountPropagation),
                Text(original.subPathExpr, override.subPathExpr))
  }

  function MergeDevice(original: VolumeDevice, override: VolumeDevice): VolumeDevice {
    VolumeDevice(Text(original.name, override.name), Text(original.devicePath, override.devicePath))
  }

  function MergeResources(original: ResourceRequirements, override: ResourceRequirements): ResourceRequirements {
    ResourceRequirements(Pointer(original.limits, override.limits), Pointer(original.requests, override.requests))
  }

  function MergeProbe(original: Option<Probe>, override: Option<Probe>): Option<Probe> {
    if override.None? then original
    else if original.None? then override
    else
      var o, v := original.value, override.value;
      Some(o.(exec := Pointer(o.exec, v.exec), httpGet := Pointer(o.httpGet, v.httpGet),
              tcpSocket := Pointer(o.tcpSocket, v.tcpSocket),
              initialDelaySeconds := Number(o.initialDelaySeconds, v.initialDelaySeconds),
              timeoutSeconds := Number(o.timeoutSeconds, v.timeoutSeconds),
              periodSeconds := Number(o.periodSeconds, v.periodSeconds),
              successThreshold := Number(o.successThreshold, v.successThreshold),
              failureThreshold := Number(o.failureThreshold, v.failureThreshold)))
  }

  function MergeLifecycle(original: Option<Lifecycle>, override: Option<Lifecycle>): Option<Lifecycle> {
    if override.None? then original
    else if original.None? then override
    else Some(Lifecycle(Pointer(original.value.postStart, override.value.postStart),
                        Pointer(original.value.preStop, override.value.preStop)))
  }

  function MergeSecurityContext(original: Option<SecurityContext>, override: Option<SecurityContext>)
    : Option<SecurityContext>
  {
    if override.None? then original
    else if original.None? then override
    else
      var o, v := original.value, override.value;
      Some(SecurityContext(
        Pointer(o.capabilities, v.capabilities), Pointer(o.privileged, v.privileged),
        Pointer(o.seLinuxOptions, v.seLinuxOptions), Pointer(o.windowsOptions, v.windowsOptions),
        Pointer(o.runAsUser, v.runAsUser), Pointer(o.runAsGroup, v.runAsGroup),
        Pointer(o.runAsNonRoot, v.runAsNonRoot), Pointer(o.readOnlyRootFilesystem, v.readOnlyRootFilesystem),
        Pointer(o.allowPrivilegeEscalation, v.allowPrivilegeEscalation), Pointer(o.procMount, v.procMount),
        o.seccompProfile))
  }

  /** An override that sets nothing changes nothing. */
  lemma SilentOverrideKeeps(e: EnvVar, p: ContainerPort, m: VolumeMount, d: VolumeDevice, r: ResourceRequirements,
                            probe: Probe, l: Lifecycle, c: SecurityContext)
    ensures MergeSingleEnv(e, EnvVar(e.name, "", None)) == e
    ensures MergePort(p, ContainerPort("", 0, 0, "", "")) == p
    ensures MergeMount(m, VolumeMount("", false, "", "", None, "")) == m
    ensures MergeDevice(d, VolumeDevice("", "")) == d
    ensures MergeResources(r, ResourceRequirements(None, None)) == r
    ensures MergeProbe(Some(probe), Some(Probe(None, None, None, 0, 0, 0, 0, 0, None))) == Some(probe)
    ensures MergeLifecycle(Some(l), Some(Lifecycle(None, None))) == Some(l)
    ensures MergeSecurityContext(
      Some(c), Some(SecurityContext(None, None, None, None, None, None, None, None, None, None, None))) == Some(c)
  {
  }

  predicate IsFullPort(p: ContainerPort) {
    p.name != "" && p.hostPort != 0 && p.containerPort != 0 && p.protocol != "" && p.hostIP != ""
  }

  predicate IsFullMount(m: VolumeMount) {
    && m.name != "" && m.readOnly && m.mountPath != "" && m.subPath != ""
    && m.mountPropagation.Some? && m.subPathExpr != ""
  }

  predicate IsFullProbe(p: Probe) {
    && p.exec.Some? && p.httpGet.Some? && p.tcpSocket.Some? && p.initialDelaySeconds != 0 && p.timeoutSeconds != 0
    && p.periodSeconds != 0 && p.successThreshold != 0 && p.failureThreshold != 0
  }

  predicate IsFullSecurityContext(c: SecurityContext) {
    && c.capabilities.Some? && c.privileged.Some? && c.seLinuxOptions.Some? && c.windowsOptions.Some?
    && c.runAsUser.Some? && c.runAsGroup.Some? && c.runAsNonRoot.Some? && c.readOnlyRootFilesystem.Some?
    && c.allowPrivilegeEscalation.Some? && c.procMount.Some?
  }

  /** An override that sets everything leaves nothing of the original, but for what overrides never reach. */
  lemma FullOverrideWins(e: EnvVar, p: ContainerPort, m: VolumeMount, probe: Probe, c: SecurityContext,
                         e': EnvVar, p': ContainerPort, m': VolumeMount, probe': Probe, c': SecurityContext)
    requires e'.name == e.name && (e'.value == "" <==> e'.valueFrom.Some?)
    requires IsFullPort(p') && IsFullMount(m') && IsFullProbe(probe') && IsFullSecurityContext(c')
    ensures MergeSingleEnv(e, e') == e'
    ensures MergePort(p, p') == p'
    ensures MergeMount(m, m') == m'
    ensures MergeProbe(Some(probe), Some(probe')) == Some(probe'.(terminationGrace := probe.terminationGrace))
    ensures MergeSecurityContext(Some(c), Some(c')) == Some(c'.(seccompProfile := c.seccompProfile))
  {
  }

  // ----- StringSlices -----

  /** slice1, then the first occurrences in slice2 of strings not already there. */
  function AppendNew(slice1: seq<string>, slice2: seq<string>): seq<string> {
    if slice2 == [] then slice1
    else
      var merged := AppendNew(slice1, slice2[..|slice2| - 1]);
      var s := slice2[|slice2| - 1];
      if s in merged then merged else merged + [s]
  }

  lemma {:induction false} AppendNewHas(slice1: seq<string>, slice2: seq<string>)
    ensures forall s :: s in AppendNew(slice1, slice2) <==> s in slice1 || s in slice2
    ensures slice1 <= AppendNew(slice1, slice2)
    ensures forall i, j :: |slice1| <= i < |AppendNew(slice1, slice2)| && 0 <= j < i ==>
      AppendNew(slice1, slice2)[j] != AppendNew(slice1, slice2)[i]
  {
    if slice2 != [] {
      AppendNewHas(slice1, slice2[..|slice2| - 1]);
      assert slice2 == slice2[..|slice2| - 1] + [slice2[|slice2| - 1]];
    }
  }

  lemma {:induction false} AppendNewAssociative(a: seq<string>, b: seq<string>, c: seq<string>)
    ensures AppendNew(AppendNew(a, b), c) == AppendNew(a, AppendNew(b, c))
  {
    if c != [] {
      var front, s := c[..|c| - 1], c[|c| - 1];
      AppendNewAssociative(a, b, front);
      var bc := AppendNew(b, front);
      AppendNewHas(a, bc);
      if s !in bc {
        assert (bc + [s])[..|bc|] == bc;
      }
    }
  }

  method StringSlices(slice1: seq<string>, slice2: seq<string>) returns (mergedStrings: seq<string>)
    ensures mergedStrings == AppendNew(slice1, slice2)
  {
    mergedStrings := slice1;
    for i := 0 to |slice2|
      invariant mergedStrings == AppendNew(slice1, slice2[..i])
    {
      assert slice2[..i + 1][..i] == slice2[..i];
      if slice2[i] !in mergedStrings {
        mergedStrings := mergedStrings + [slice2[i]];
      }
    }
    assert slice2[..|slice2|] == slice2;
  }

  // ----- Keys -----

  function EnvKey(e: EnvVar): string { e.name }
  function PortKey(p: ContainerPort): string { p.name }
  function DeviceKey(d: VolumeDevice): string { d.name }
  function ContainerKey(c: Container): string { c.name }

  /** strings.Join([]string{v.Name, v.MountPath, v.SubPath}, "_") */
  function VolumeMountToString(v: VolumeMount): string {
    Join([v.name, v.mountPath, v.subPath], '_')
  }

  lemma NamesKeep(a: seq<EnvVar>, b: seq<EnvVar>)
    ensures KeepsKeys(a, b, EnvKey, MergeSingleEnv)
  {
    LastWinsConsistent(a, EnvKey);
    LastWinsConsistent(b, EnvKey);
  }

  lemma PortNamesKeep(a: seq<ContainerPort>, b: seq<ContainerPort>)
    ensures KeepsKeys(a, b, PortKey, MergePort)
  {
    LastWinsConsistent(a, PortKey);
    LastWinsConsistent(b, PortKey);
  }

  lemma DeviceNamesKeep(a: seq<VolumeDevice>, b: seq<VolumeDevice>)
    ensures KeepsKeys(a, b, DeviceKey, MergeDevice)
  {
    LastWinsConsistent(a, DeviceKey);
    LastWinsConsistent(b, DeviceKey);
  }

  // ----- Mount keys: the joined string need not identify the mount -----

  predicate SameMount(u: VolumeMount, v: VolumeMount) {
    u.name == v.name && u.mountPath == v.mountPath && u.subPath == v.subPath
  }

  predicate MountKeysIdentify(us: seq<VolumeMount>, vs: seq<VolumeMount>) {
    forall u, v :: u in us && v in vs && VolumeMountToString(u) == VolumeMountToString(v) ==> SameMount(u, v)
  }

  lemma {:induction false} LastWinsFromList<T>(xs: seq<T>, key: T -> string, k: string)
    ensures k in LastWins(xs, key) ==> LastWins(xs, key)[k] in xs
  {
    LastWinsIsLastWithKey(xs, key, k);
    WithKeyOnly(xs, key, k);
    var ws := WithKey(xs, key, k);
    assert ws != [] ==> ws[|ws| - 1] in ws;
  }

  lemma MountKeysKeep(a: seq<VolumeMount>, b: seq<VolumeMount>)
    requires MountKeysIdentify(a, b)
    ensures KeepsKeys(a, b, VolumeMountToString, MergeMount)
  {
    LastWinsConsistent(a, VolumeMountToString);
    LastWinsConsistent(b, VolumeMountToString);
    var x, y := LastWins(a, VolumeMountToString), LastWins(b, VolumeMountToString);
    forall k | k in x && k in y ensures VolumeMountToString(MergeMount(x[k], y[k])) == k {
      LastWinsFromList(a, VolumeMountToString, k);
      LastWinsFromList(b, VolumeMountToString, k);
      assert SameMount(x[k], y[k]);
    }
  }

  lemma MountKeyParts(w: VolumeMount)
    ensures VolumeMountToString(w) == w.name + ['_'] + (w.mountPath + ['_'] + w.subPath)
  {
    var parts := [w.name, w.mountPath, w.subPath];
    assert parts[1..] == [w.mountPath, w.subPath];
    assert parts[1..][1..] == [w.subPath];
    calc {
      Join(parts, '_');
      parts[0] + ['_'] + Join(parts[1..], '_');
      w.name + ['_'] + (w.mountPath + ['_'] + Join([w.subPath], '_'));
    }
  }

  /** Joining with "_" is injective when Name and MountPath hold no "_"; SubPath may hold any. */
  lemma MountKeyInjective(u: VolumeMount, v: VolumeMount)
    requires '_' !in u.name && '_' !in u.mountPath && '_' !in v.name && '_' !in v.mountPath
    requires VolumeMountToString(u) == VolumeMountToString(v)
    ensures SameMount(u, v)
  {
    MountKeyParts(u);
    MountKeyParts(v);
    FirstPart(u.name, v.name, u.mountPath + ['_'] + u.subPath, v.mountPath + ['_'] + v.subPath);
    FirstPart(u.mountPath, v.mountPath, u.subPath, v.subPath);
  }

  /** Mounts whose names and paths hold no "_", as those the operator builds itself. */
  predicate ArePlain(us: seq<VolumeMount>) {
    forall u :: u in us ==> '_' !in u.name && '_' !in u.mountPath
  }

  lemma PlainMountsIdentify(us: seq<VolumeMount>, vs: seq<VolumeMount>)
    requires ArePlain(us) && ArePlain(vs)
    ensures MountKeysIdentify(us, vs)
  {
    forall u, v | u in us && v in vs && VolumeMountToString(u) == VolumeMountToString(v) ensures SameMount(u, v) {
      MountKeyInjective(u, v);
    }
  }

  lemma FirstPart(p: string, q: string, s: string, t: string)
    requires '_' !in p && '_' !in q && p + ['_'] + s == q + ['_'] + t
    ensures p == q && s == t
  {
    SplitHead(p, '_', s);
    SplitHead(q, '_', t);
    var w := p + ['_'] + s;
    assert w[..|p|] == p && w[|p| + 1..] == s;
    assert (q + ['_'] + t)[..|q|] == q && (q + ['_'] + t)[|q| + 1..] == t;
  }

  // ----- List merges -----

  ghost function MergedEnvs(a: seq<EnvVar>, b: seq<EnvVar>): seq<EnvVar> {
    Merged(a, b, EnvKey, MergeSingleEnv)
  }

  ghost function MergedPorts(a: seq<ContainerPort>, b: seq<ContainerPort>): seq<ContainerPort> {
    Merged(a, b, PortKey, MergePort)
  }

  ghost function MergedMounts(a: seq<VolumeMount>, b: seq<VolumeMount>): seq<VolumeMount> {
    Merged(a, b, VolumeMountToString, MergeMount)
  }

  ghost function MergedDevices(a: seq<VolumeDevice>, b: seq<VolumeDevice>): seq<VolumeDevice> {
    Merged(a, b, DeviceKey, MergeDevice)
  }

  method Envs(original: seq<EnvVar>, override: seq<EnvVar>) returns (r: seq<EnvVar>)
    ensures r == MergedEnvs(original, override)
  {
    NamesKeep(original, override);
    ghost var order;
    r, order := MergeByKey(original, override, EnvKey, MergeSingleEnv);
  }

  method VolumeDevices(original: seq<VolumeDevice>, override: seq<VolumeDevice>) returns (r: seq<VolumeDevice>)
    ensures r == MergedDevices(original, override)
  {
    DeviceNamesKeep(original, override);
    ghost var order;
    r, order := MergeByKey(original, override, DeviceKey, MergeDevice);
  }

  /** What merging two lists of mounts may give; mounts with equal keys may come in any order. */
  ghost predicate IsMergeOfMounts(r: seq<VolumeMount>, original: seq<VolumeMount>, override: seq<VolumeMount>) {
    && Sorted(r, VolumeMountToString)
    && (MountKeysIdentify(original, override) ==> r == MergedMounts(original, override))
  }

  method VolumeMounts(original: seq<VolumeMount>, override: seq<VolumeMount>) returns (r: seq<VolumeMount>)
    ensures IsMergeOfMounts(r, original, override)
  {
    if MountKeysIdentify(original, override) {
      MountKeysKeep(original, override);
    }
    ghost var order;
    r, order := MergeByKey(original, override, VolumeMountToString, MergeMount);
    StableSortIsStable(
      ValuesIn(Overlay(LastWins(original, VolumeMountToString), LastWins(override, VolumeMountToString), MergeMount),
               order), VolumeMountToString);
  }

  /** Unlike the others this one appends straight from the two maps, each visited in its own order. */
  method ContainerPortSlicesByName(defaultPorts: seq<ContainerPort>, overridePorts: seq<ContainerPort>)
    returns (mergedPorts: seq<ContainerPort>)
    ensures mergedPorts == MergedPorts(defaultPorts, overridePorts)
  {
    var defaultPortMap := CreateMap(defaultPorts, PortKey);
    var overridePortsMap := CreateMap(overridePorts, PortKey);
    ghost var order;
    mergedPorts, order := CollectBoth(defaultPortMap, overridePortsMap, MergePort);
    mergedPorts := SliceStable(mergedPorts, PortKey);
    PortNamesKeep(defaultPorts, overridePorts);
    VisitOrderIrrelevant(Overlay(defaultPortMap, overridePortsMap, MergePort), order, PortKey);
  }

  // ----- Containers -----

  ghost function MergedContainer(d: Container, o: Container): Container {
    Container(
      Text(d.name, o.name), Text(d.image, o.image), AppendNew(d.command, o.command), AppendNew(d.args, o.args),
      Text(d.workingDir, o.workingDir), MergedPorts(d.ports, o.ports), d.envFrom, MergedEnvs(d.env, o.env),
      MergeResources(d.resources, o.resources), MergedMounts(d.volumeMounts, o.volumeMounts),
      MergedDevices(d.volumeDevices, o.volumeDevices), MergeProbe(d.livenessProbe, o.livenessProbe),
      MergeProbe(d.readinessProbe, o.readinessProbe), MergeProbe(d.startupProbe, o.startupProbe),
      MergeLifecycle(d.lifecycle, o.lifecycle), Text(d.terminationMessagePath, o.terminationMessagePath),
      Text(d.terminationMessagePolicy, o.terminationMessagePolicy), Text(d.imagePullPolicy, o.imagePullPolicy),
      MergeSecurityContext(d.securityContext, o.securityContext),
      d.stdin || o.stdin, d.stdinOnce || o.stdinOnce, d.tty || o.tty)
  }

  predicate EqualButMounts(c: Container, d: Container) {
    c == d.(volumeMounts := c.volumeMounts)
  }

  /** What merging override container v onto original container o may give. */
  ghost predicate IsMergeOf(merged: Container, o: Container, v: Container) {
    && EqualButMounts(merged, MergedContainer(o, v))
    && (MountKeysIdentify(o.volumeMounts, v.volumeMounts) ==> merged == MergedContainer(o, v))
  }

  method MergeContainer(defaultContainer: Container, overrideContainer: Container) returns (merged: Container)
    ensures IsMergeOf(merged, defaultContainer, overrideContainer)
  {
    var d, o := defaultContainer, overrideContainer;
    merged := d.(name := Text(d.name, o.name), image := Text(d.image, o.image));
    var command := StringSlices(d.command, o.command);
    var args := StringSlices(d.args, o.args);
    merged := merged.(command := command, args := args, workingDir := Text(d.workingDir, o.workingDir));
    var ports := ContainerPortSlicesByName(d.ports, o.ports);
    var env := Envs(d.env, o.env);
    var mounts := VolumeMounts(d.volumeMounts, o.volumeMounts);
    var devices := VolumeDevices(d.volumeDevices, o.volumeDevices);
    merged := merged.(
      ports := ports, env := env, resources := MergeResources(d.resources, o.resources),
      volumeMounts := mounts, volumeDevices := devices,
      livenessProbe := MergeProbe(d.livenessProbe, o.livenessProbe),
      readinessProbe := MergeProbe(d.readinessProbe, o.readinessProbe),
      startupProbe := MergeProbe(d.startupProbe, o.startupProbe),
      lifecycle := MergeLifecycle(d.lifecycle, o.lifecycle));
    merged := merged.(
      terminationMessagePath := Text(d.terminationMessagePath, o.terminationMessagePath),
      terminationMessagePolicy := Text(d.terminationMessagePolicy, o.terminationMessagePolicy),
      imagePullPolicy := Text(d.imagePullPolicy, o.imagePullPolicy),
      securityContext := MergeSecurityContext(d.securityContext, o.securityContext),
      stdin := d.stdin || o.stdin, stdinOnce := d.stdinOnce || o.stdinOnce, tty := d.tty || o.tty);
  }

  ghost function MergedContainers(a: seq<Container>, b: seq<Container>): seq<Container> {
    Merged(a, b, ContainerKey, MergedContainer)
  }

  /** Lists already sorted and without repeated keys. */
  predicate IsCanonical(c: Container) {
    && StrictlySorted(c.ports, PortKey) && StrictlySorted(c.env, EnvKey)
    && StrictlySorted(c.volumeMounts, VolumeMountToString) && StrictlySorted(c.volumeDevices, DeviceKey)
  }

  /** Merging in a container that sets nothing but its name changes nothing. */
  lemma SilentContainerKeeps(c: Container)
    requires IsCanonical(c)
    ensures MergedContainer(c, Container(
      c.name, "", [], [], "", [], [], [], ResourceRequirements(None, None), [], [], None, None, None, None,
      "", "", "", None, false, false, false)) == c
  {
    MergedWithNothing(c.ports, PortKey, MergePort);
    MergedWithNothing(c.env, EnvKey, MergeSingleEnv);
    MergedWithNothing(c.volumeMounts, VolumeMountToString, MergeMount);
    MergedWithNothing(c.volumeDevices, DeviceKey, MergeDevice);
  }

  lemma ContainerNamesKeep(a: seq<Container>, b: seq<Container>)
    ensures KeepsKeys(a, b, ContainerKey, MergedContainer)
  {
    LastWinsConsistent(a, ContainerKey);
    LastWinsConsistent(b, ContainerKey);
  }

  /** Mounts of same-named containers of the two lists are identified by their keys. */
  predicate ContainerMountsIdentify(a: seq<Container>, b: seq<Container>) {
    forall c, d :: c in a && d in b && c.name == d.name ==> MountKeysIdentify(c.volumeMounts, d.volumeMounts)
  }

  predicate ListsEqualButMounts(xs: seq<Container>, ys: seq<Container>) {
    |xs| == |ys| && forall i :: 0 <= i < |xs| ==> EqualButMounts(xs[i], ys[i])
  }

  /** What merging two lists of containers may give. */
  ghost predicate IsMergeOfLists(r: seq<Container>, originals: seq<Container>, overrides: seq<Container>) {
    && ListsEqualButMounts(r, MergedContainers(originals, overrides))
    && (ContainerMountsIdentify(originals, overrides) ==> r == MergedContainers(originals, overrides))
  }

  /** The two loops that fill the merged map. */
  method MergeContainerMaps(originalMap: map<string, Container>, overrideMap: map<string, Container>,
                            ghost merges: (Container, Container, Container) -> bool)
    returns (mergedContainerMap: map<string, Container>)
    requires forall c, o, v :: IsMergeOf(c, o, v) ==> merges(c, o, v)
    ensures Overlaid(mergedContainerMap, originalMap, overrideMap, overrideMap.Keys, merges)
  {
    mergedContainerMap := CopyMap(originalMap);
    var todo := overrideMap.Keys;
    while todo != {}
      invariant todo <= overrideMap.Keys
      invariant Overlaid(mergedContainerMap, originalMap, overrideMap, overrideMap.Keys - todo, merges)
      decreases todo
    {
      var k :| k in todo;
      var merged := overrideMap[k];
      if k in originalMap {
        merged := MergeContainer(originalMap[k], overrideMap[k]);
      }
      OverlaidStep(mergedContainerMap, originalMap, overrideMap, overrideMap.Keys - todo, merges, k, merged);
      assert overrideMap.Keys - (todo - {k}) == (overrideMap.Keys - todo) + {k};
      mergedContainerMap, todo := mergedContainerMap[k := merged], todo - {k};
    }
  }

  lemma OverlaidContainers(a: seq<Container>, b: seq<Container>, merged: map<string, Container>)
    requires var x, y := LastWins(a, ContainerKey), LastWins(b, ContainerKey);
      Overlaid(merged, x, y, y.Keys, IsMergeOf)
    ensures Consistent(merged, ContainerKey)
    ensures ListsEqualButMounts(Listing(merged), MergedContainers(a, b))
    ensures ContainerMountsIdentify(a, b) ==> Listing(merged) == MergedContainers(a, b)
  {
    var x, y := LastWins(a, ContainerKey), LastWins(b, ContainerKey);
    OverlaidRelated(merged, x, y, IsMergeOf, MergedContainer, EqualButMounts);
    ContainerNamesKeep(a, b);
    if ContainerMountsIdentify(a, b) {
      OverlaidExactly(a, b, merged);
    }
  }

  lemma OverlaidExactly(a: seq<Container>, b: seq<Container>, merged: map<string, Container>)
    requires var x, y := LastWins(a, ContainerKey), LastWins(b, ContainerKey);
      Overlaid(merged, x, y, y.Keys, IsMergeOf)
    requires ContainerMountsIdentify(a, b)
    ensures merged == Overlay(LastWins(a, ContainerKey), LastWins(b, ContainerKey), MergedContainer)
  {
    var x, y := LastWins(a, ContainerKey), LastWins(b, ContainerKey);
    forall k | k in x && k in y ensures merged[k] == MergedContainer(x[k], y[k]) {
      SameNamedMountsIdentify(a, b, k);
    }
  }

  /**
   Whatever orders the runtime visits the maps in, the result is the canonical list, up to the order
   of colliding mounts; exactly the canonical list when mount keys identify.
   */
  method Containers(defaultContainers: seq<Container>, overrideContainers: seq<Container>)
    returns (mergedContainers: seq<Container>)
    ensures IsMergeOfLists(mergedContainers, defaultContainers, overrideContainers)
  {
    var originalMap := CreateMap(defaultContainers, ContainerKey);
    var overrideMap := CreateMap(overrideContainers, ContainerKey);
    var mergedContainerMap := MergeContainerMaps(originalMap, overrideMap, IsMergeOf);
    OverlaidContainers(defaultContainers, overrideContainers, mergedContainerMap);
    ghost var order;
    mergedContainers, order := Collect(mergedContainerMap);
    mergedContainers := SliceStable(mergedContainers, ContainerKey);
    VisitOrderIrrelevant(mergedContainerMap, order, ContainerKey);
  }

  lemma SameNamedMountsIdentify(a: seq<Container>, b: seq<Container>, k: string)
    requires ContainerMountsIdentify(a, b)
    requires k in LastWins(a, ContainerKey) && k in LastWins(b, ContainerKey)
    ensures MountKeysIdentify(LastWins(a, ContainerKey)[k].volumeMounts, LastWins(b, ContainerKey)[k].volumeMounts)
  {
    LastWinsConsistent(a, ContainerKey);
    LastWinsConsistent(b, ContainerKey);
    LastWinsFromList(a, ContainerKey, k);
    LastWinsFromList(b, ContainerKey, k);
  }

  // ----- Associativity -----

  lemma MergedMountsAssociative(a: seq<VolumeMount>, b: seq<VolumeMount>, c: seq<VolumeMount>)
    requires MountKeysIdentify(a, b) && MountKeysIdentify(b, c)
    ensures MergedMounts(MergedMounts(a, b), c) == MergedMounts(a, MergedMounts(b, c))
  {
    MountKeysKeep(a, b);
    MountKeysKeep(b, c);
    MergedAssociative(a, b, c, VolumeMountToString, MergeMount);
  }

  /** A merged mount lies where some mount of the two lists does. */
  lemma MergedMountFrom(a: seq<VolumeMount>, b: seq<VolumeMount>, m: VolumeMount) returns (u: VolumeMount)
    requires MountKeysIdentify(a, b) && m in MergedMounts(a, b)
    ensures (u in a || u in b) && SameMount(u, m)
  {
    MountKeysKeep(a, b);
    MergedFrom(a, b, VolumeMountToString, MergeMount, m);
    var x, y, k := LastWins(a, VolumeMountToString), LastWins(b, VolumeMountToString), VolumeMountToString(m);
    LastWinsConsistent(a, VolumeMountToString);
    LastWinsConsistent(b, VolumeMountToString);
    LastWinsFromList(a, VolumeMountToString, k);
    LastWinsFromList(b, VolumeMountToString, k);
    u := if k in x then x[k] else y[k];
  }

  /** Where keys identify mounts across each pair of lists, they do across a merged list and the third. */
  lemma MergedMountsIdentify(a: seq<VolumeMount>, b: seq<VolumeMount>, c: seq<VolumeMount>)
    requires MountKeysIdentify(a, b) && MountKeysIdentify(a, c) && MountKeysIdentify(b, c)
    ensures MountKeysIdentify(MergedMounts(a, b), c) && MountKeysIdentify(a, MergedMounts(b, c))
  {
    forall m, v | m in MergedMounts(a, b) && v in c && VolumeMountToString(m) == VolumeMountToString(v)
      ensures SameMount(m, v)
    {
      var u := MergedMountFrom(a, b, m);
    }
    forall v, m | v in a && m in MergedMounts(b, c) && VolumeMountToString(v) == VolumeMountToString(m)
      ensures SameMount(v, m)
    {
      var u := MergedMountFrom(b, c, m);
    }
  }

  /** Three layers of mounts merge to one list in either grouping, whatever orders the four calls visit maps in. */
  lemma MountsAssociative(a: seq<VolumeMount>, b: seq<VolumeMount>, c: seq<VolumeMount>,
                          ab: seq<VolumeMount>, left: seq<VolumeMount>, bc: seq<VolumeMount>, right: seq<VolumeMount>)
    requires MountKeysIdentify(a, b) && MountKeysIdentify(a, c) && MountKeysIdentify(b, c)
    requires IsMergeOfMounts(ab, a, b) && IsMergeOfMounts(left, ab, c)
    requires IsMergeOfMounts(bc, b, c) && IsMergeOfMounts(right, a, bc)
    ensures left == right
  {
    MergedMountsIdentify(a, b, c);
    MergedMountsAssociative(a, b, c);
  }

  lemma EnvsAssociative(a: seq<EnvVar>, b: seq<EnvVar>, c: seq<EnvVar>)
    ensures MergedEnvs(MergedEnvs(a, b), c) == MergedEnvs(a, MergedEnvs(b, c))
  {
    NamesKeep(a, b);
    NamesKeep(b, c);
    LastWinsConsistent(a, EnvKey);
    LastWinsConsistent(b, EnvKey);
    LastWinsConsistent(c, EnvKey);
    MergedAssociative(a, b, c, EnvKey, MergeSingleEnv);
  }

  lemma PortsAssociative(a: seq<ContainerPort>, b: seq<ContainerPort>, c: seq<ContainerPort>)
    ensures MergedPorts(MergedPorts(a, b), c) == MergedPorts(a, MergedPorts(b, c))
  {
    PortNamesKeep(a, b);
    PortNamesKeep(b, c);
    MergedAssociative(a, b, c, PortKey, MergePort);
  }

  lemma DevicesAssociative(a: seq<VolumeDevice>, b: seq<VolumeDevice>, c: seq<VolumeDevice>)
    ensures MergedDevices(MergedDevices(a, b), c) == MergedDevices(a, MergedDevices(b, c))
  {
    DeviceNamesKeep(a, b);
    DeviceNamesKeep(b, c);
    MergedAssociative(a, b, c, DeviceKey, MergeDevice);
  }

  lemma TextAssociative(a: string, b: string, c: string)
    ensures Text(Text(a, b), c) == Text(a, Text(b, c))
  {
  }

  lemma ProbeAssociative(a: Option<Probe>, b: Option<Probe>, c: Option<Probe>)
    ensures MergeProbe(MergeProbe(a, b), c) == MergeProbe(a, MergeProbe(b, c))
  {
  }

  lemma SecurityContextAssociative(
    a: Option<SecurityContext>, b: Option<SecurityContext>, c: Option<SecurityContext>)
    ensures MergeSecurityContext(MergeSecurityContext(a, b), c) == MergeSecurityContext(a, MergeSecurityContext(b, c))
  {
  }

  lemma LifecycleAssociative(a: Option<Lifecycle>, b: Option<Lifecycle>, c: Option<Lifecycle>)
    ensures MergeLifecycle(MergeLifecycle(a, b), c) == MergeLifecycle(a, MergeLifecycle(b, c))
  {
  }

  lemma ResourcesAssociative(a: ResourceRequirements, b: ResourceRequirements, c: ResourceRequirements)
    ensures MergeResources(MergeResources(a, b), c) == MergeResources(a, MergeResources(b, c))
  {
  }

  lemma MergedContainerAssociative(x: Container, y: Container, z: Container)
    requires MountKeysIdentify(x.volumeMounts, y.volumeMounts) && MountKeysIdentify(y.volumeMounts, z.volumeMounts)
    ensures MergedContainer(MergedContainer(x, y), z) == MergedContainer(x, MergedContainer(y, z))
  {
    TextAssociative(x.name, y.name, z.name);
    TextAssociative(x.image, y.image, z.image);
    TextAssociative(x.workingDir, y.workingDir, z.workingDir);
    TextAssociative(x.terminationMessagePath, y.terminationMessagePath, z.terminationMessagePath);
    TextAssociative(x.terminationMessagePolicy, y.terminationMessagePolicy, z.terminationMessagePolicy);
    TextAssociative(x.imagePullPolicy, y.imagePullPolicy, z.imagePullPolicy);
    ProbeAssociative(x.livenessProbe, y.livenessProbe, z.livenessProbe);
    ProbeAssociative(x.readinessProbe, y.readinessProbe, z.readinessProbe);
    ProbeAssociative(x.startupProbe, y.startupProbe, z.startupProbe);
    SecurityContextAssociative(x.securityContext, y.securityContext, z.securityContext);
    LifecycleAssociative(x.lifecycle, y.lifecycle, z.lifecycle);
    ResourcesAssociative(x.resources, y.resources, z.resources);
    AppendNewAssociative(x.command, y.command, z.command);
    AppendNewAssociative(x.args, y.args, z.args);
    PortsAssociative(x.ports, y.ports, z.ports);
    EnvsAssociative(x.env, y.env, z.env);
    MergedMountsAssociative(x.volumeMounts, y.volumeMounts, z.volumeMounts);
    DevicesAssociative(x.volumeDevices, y.volumeDevices, z.volumeDevices);
  }

  /** Three layers of one container give the same in either grouping, whatever orders the calls visit maps in. */
  lemma ContainerAssociative(x: Container, y: Container, z: Container,
                             xy: Container, left: Container, yz: Container, right: Container)
    requires MountKeysIdentify(x.volumeMounts, y.volumeMounts)
    requires MountKeysIdentify(x.volumeMounts, z.volumeMounts)
    requires MountKeysIdentify(y.volumeMounts, z.volumeMounts)
    requires IsMergeOf(xy, x, y) && IsMergeOf(left, xy, z) && IsMergeOf(yz, y, z) && IsMergeOf(right, x, yz)
    ensures left == right
  {
    MergedMountsIdentify(x.volumeMounts, y.volumeMounts, z.volumeMounts);
    MergedContainerAssociative(x, y, z);
  }

  lemma MergedContainersAssociative(a: seq<Container>, b: seq<Container>, c: seq<Container>)
    requires ContainerMountsIdentify(a, b) && ContainerMountsIdentify(b, c)
    ensures MergedContainers(MergedContainers(a, b), c) == MergedContainers(a, MergedContainers(b, c))
  {
    ContainerNamesKeep(a, b);
    ContainerNamesKeep(b, c);
    var x, y, z := LastWins(a, ContainerKey), LastWins(b, ContainerKey), LastWins(c, ContainerKey);
    forall k | k in x && k in y && k in z
      ensures MergedContainer(MergedContainer(x[k], y[k]), z[k]) == MergedContainer(x[k], MergedContainer(y[k], z[k]))
    {
      SameNamedMountsIdentify(a, b, k);
      SameNamedMountsIdentify(b, c, k);
      MergedContainerAssociative(x[k], y[k], z[k]);
    }
    MergedAssociative(a, b, c, ContainerKey, MergedContainer);
  }

  /** The mounts of a merged container of this name, next to those of any container of the name in the third list. */
  lemma MergedContainerIdentifies(a: seq<Container>, b: seq<Container>, c: seq<Container>, m: Container, d: Container)
    requires ContainerMountsIdentify(a, b) && ContainerMountsIdentify(a, c) && ContainerMountsIdentify(b, c)
    requires m in MergedContainers(a, b) && d in c && m.name == d.name
    ensures MountKeysIdentify(m.volumeMounts, d.volumeMounts)
  {
    ContainerNamesKeep(a, b);
    MergedFrom(a, b, ContainerKey, MergedContainer, m);
    var x, y, k := LastWins(a, ContainerKey), LastWins(b, ContainerKey), m.name;
    LastWinsConsistent(a, ContainerKey);
    LastWinsConsistent(b, ContainerKey);
    LastWinsFromList(a, ContainerKey, k);
    LastWinsFromList(b, ContainerKey, k);
    if k in x && k in y {
      MergedMountsIdentify(x[k].volumeMounts, y[k].volumeMounts, d.volumeMounts);
    }
  }

  lemma MirroredContainerIdentifies(a: seq<Container>, b: seq<Container>, c: seq<Container>, d: Container, m: Container)
    requires ContainerMountsIdentify(a, b) && ContainerMountsIdentify(a, c) && ContainerMountsIdentify(b, c)
    requires d in a && m in MergedContainers(b, c) && m.name == d.name
    ensures MountKeysIdentify(d.volumeMounts, m.volumeMounts)
  {
    ContainerNamesKeep(b, c);
    MergedFrom(b, c, ContainerKey, MergedContainer, m);
    var x, y, k := LastWins(b, ContainerKey), LastWins(c, ContainerKey), m.name;
    LastWinsConsistent(b, ContainerKey);
    LastWinsConsistent(c, ContainerKey);
    LastWinsFromList(b, ContainerKey, k);
    LastWinsFromList(c, ContainerKey, k);
    if k in x && k in y {
      MergedMountsIdentify(d.volumeMounts, x[k].volumeMounts, y[k].volumeMounts);
    }
  }

  /**
   Three layers of containers merge to one list in either grouping, whatever orders the runtime visits any of the
   maps in, if mount keys identify mounts across each two layers.
   */
  lemma ContainersAssociative(a: seq<Container>, b: seq<Container>, c: seq<Container>,
                              ab: seq<Container>, left: seq<Container>, bc: seq<Container>, right: seq<Container>)
    requires ContainerMountsIdentify(a, b) && ContainerMountsIdentify(a, c) && ContainerMountsIdentify(b, c)
    requires IsMergeOfLists(ab, a, b) && IsMergeOfLists(left, ab, c)
    requires IsMergeOfLists(bc, b, c) && IsMergeOfLists(right, a, bc)
    ensures left == right
  {
    forall m, d | m in ab && d in c && m.name == d.name ensures MountKeysIdentify(m.volumeMounts, d.volumeMounts) {
      MergedContainerIdentifies(a, b, c, m, d);
    }
    forall d, m | d in a && m in bc && d.name == m.name ensures MountKeysIdentify(d.volumeMounts, m.volumeMounts) {
      MirroredContainerIdentifies(a, b, c, d, m);
    }
    MergedContainersAssociative(a, b, c);
  }

  /** It suffices that no name and no path of a mount holds a "_". */
  lemma PlainContainersIdentify(a: seq<Container>, b: seq<Container>)
    requires forall c :: c in a || c in b ==> ArePlain(c.volumeMounts)
    ensures ContainerMountsIdentify(a, b)
  {
    forall c, d | c in a && d in b && c.name == d.name ensures MountKeysIdentify(c.volumeMounts, d.volumeMounts) {
      PlainMountsIdentify(c.volumeMounts, d.volumeMounts);
    }
  }

  /**
   Without identifying keys it fails: both mounts below join to "a_b_c_", the merge of the first under
   the second gets a key of its own, and grouping to the left leaves two mounts instead of one.
   */
  lemma MountsNotAssociative()
    ensures var a := [VolumeMount("a", false, "b", "c_", None, "")];
      var b := [VolumeMount("a", false, "b_c", "", None, "")];
      |MergedMounts(MergedMounts(a, b), a)| == 2 && |MergedMounts(a, MergedMounts(b, a))| == 1
  {
    var u := VolumeMount("a", false, "b", "c_", None, "");
    var v := VolumeMount("a", false, "b_c", "", None, "");
    var w := VolumeMount("a", false, "b_c", "c_", None, "");
    MountKeyParts(u);
    MountKeyParts(v);
    MountKeyParts(w);
    var k := "a_b_c_";
    assert VolumeMountToString(u) == k && VolumeMountToString(v) == k && VolumeMountToString(w) == "a_b_c_c_";
    SingletonMerge(u, v, k, w);
    SingletonMerge(v, u, k, u);
    SingletonMerge(u, u, k, u);
    TwoMounts(w, u);
  }

  lemma TwoMounts(w: VolumeMount, u: VolumeMount)
    requires |VolumeMountToString(w)| != |VolumeMountToString(u)|
    ensures |MergedMounts([w], [u])| == 2
  {
    var x := LastWins([w], VolumeMountToString);
    var y := LastWins([u], VolumeMountToString);
    LastWinsSnoc([], w, VolumeMountToString);
    LastWinsSnoc([], u, VolumeMountToString);
    assert [] + [w] == [w] && [] + [u] == [u];
    var m := Overlay(x, y, MergeMount);
    assert m.Keys == {VolumeMountToString(w), VolumeMountToString(u)};
    ListingRelated(m, m, (p, q) => true);
  }

  lemma SingletonMerge(u: VolumeMount, v: VolumeMount, k: string, w: VolumeMount)
    requires VolumeMountToString(u) == k && VolumeMountToString(v) == k && MergeMount(u, v) == w
    ensures MergedMounts([u], [v]) == [w]
  {
    assert LastWins([u], VolumeMountToString) == map[k := u];
    assert LastWins([v], VolumeMountToString) == map[k := v];
    var m := Overlay(map[k := u], map[k := v], MergeMount);
    assert m == map[k := w];
    assert m.Keys == {k};
    assert Greatest(m.Keys) == k;
    calc {
      Listing(m);
      { assert m != map[]; }
      Listing(m - {k}) + [m[k]];
      { assert m - {k} == map[]; }
      [w];
    }
  }
}
