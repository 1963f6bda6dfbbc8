/** pkg/service/operator/Kind.go: building the desired StatefulSet and merging the pod override into it. */
module Builder {
  import opened Strings
  import opened KeyedLists
  import opened ContainerMerge
  import opened StatefulSets
  import opened Api
  import opened Kind
  import Servers

  const DIGEST_KEY := "nacos.io/config-digest"

  function Literal(name: string, value: string): EnvVar {
    EnvVar(name, value, None)
  }

  function FormatInt(n: int): string {
    if n >= 0 then Itoa(n) else "-" + Itoa(-n)
  }

  function FormatBool(b: bool): string {
    if b then "true" else "false"
  }

  // ----- ValidationField -----

  function DatabaseDefaults(db: Database): Database {
    if db.kind == "" then db.(kind := "embedded")
    else if db.kind != "mysql" then db
    else Database("mysql", Or(db.host, "127.0.0.1"), Or(db.port, "3306"), Or(db.db, "nacos"), Or(db.user, "root"),
                  Or(db.password, "123456"))
  }

  function CertificationDefaults(cert: Certification): Certification {
    if !cert.enabled then cert
    else cert.(token := Or(cert.token, "SecretKey012345678901234567890123456789012345678901234567890123456789"),
               tokenExpireSeconds := Or(cert.tokenExpireSeconds, "18000"))
  }

  function WithDefaults(spec: NacosSpec): NacosSpec {
    spec.(kind := Or(spec.kind, TYPE_STAND_ALONE), database := DatabaseDefaults(spec.database),
          certification := CertificationDefaults(spec.certification))
  }

  function Or(given: string, default: string): string {
    if given == "" then default else given
  }

  lemma DatabaseGaps(db: Database)
    ensures DatabaseDefaults(DatabaseDefaults(db)) == DatabaseDefaults(db)
    ensures var d := DatabaseDefaults(db);
      && d.kind != "" && db.kind in {"", d.kind}
      && (db.kind == "mysql" ==>
            && d.host != "" && d.port != "" && d.db != "" && d.user != "" && d.password != ""
            && db.host in {"", d.host} && db.port in {"", d.port} && db.db in {"", d.db}
            && db.user in {"", d.user} && db.password in {"", d.password})
  {
  }

  lemma CertificationGaps(cert: Certification)
    ensures CertificationDefaults(CertificationDefaults(cert)) == CertificationDefaults(cert)
    ensures var s := CertificationDefaults(cert);
      cert.enabled ==>
        && s.token != "" && cert.token in {"", s.token}
        && s.tokenExpireSeconds != "" && cert.tokenExpireSeconds in {"", s.tokenExpireSeconds}
  {
  }

  /** What the user gave is kept, and what an enabled feature needs is never empty; doing it again changes nothing. */
  lemma DefaultsFillGaps(spec: NacosSpec)
    ensures WithDefaults(WithDefaults(spec)) == WithDefaults(spec)
    ensures var s := WithDefaults(spec);
      && (spec.kind != "" ==> s.kind == spec.kind) && s.kind != ""
      && (spec.database.kind != "" ==> s.database.kind == spec.database.kind) && s.database.kind != ""
      && (spec.database.kind == "mysql" ==>
            var d, given := s.database, spec.database;
            && d.host != "" && d.port != "" && d.db != "" && d.user != "" && d.password != ""
            && given.host in {"", d.host} && given.port in {"", d.port} && given.db in {"", d.db}
            && given.user in {"", d.user} && given.password in {"", d.password})
      && (spec.certification.enabled ==>
            && s.certification.token != "" && spec.certification.token in {"", s.certification.token}
            && s.certification.tokenExpireSeconds != ""
            && spec.certification.tokenExpireSeconds in {"", s.certification.tokenExpireSeconds})
      && s == spec.(kind := s.kind, database := s.database, certification := s.certification)
  {
    DatabaseGaps(spec.database);
    CertificationGaps(spec.certification);
  }

  /** The types the operator takes are those for which it can build something. */
  lemma KnownTypes(spec: NacosSpec)
    ensures IsKnownType(spec.kind) <==> WithDefaults(spec).kind == "standalone" || WithDefaults(spec).kind == "cluster"
  {
  }

  /** What is filled in where nothing is given. */
  lemma DefaultValues(spec: NacosSpec)
    ensures var s := WithDefaults(spec);
      && (spec.kind == "" ==> s.kind == "standalone")
      && (spec.database.kind == "" ==> s.database == spec.database.(kind := "embedded"))
      && (spec.database.kind == "mysql" ==>
            var d, given := s.database, spec.database;
            && (given.host == "" ==> d.host == "127.0.0.1") && (given.port == "" ==> d.port == "3306")
            && (given.db == "" ==> d.db == "nacos") && (given.user == "" ==> d.user == "root")
            && (given.password == "" ==> d.password == "123456"))
      && (spec.certification.enabled ==>
            var cert, given := s.certification, spec.certification;
            && (given.tokenExpireSeconds == "" ==> cert.tokenExpireSeconds == "18000")
            && (given.token == "" ==>
                  cert.token == "SecretKey012345678901234567890123456789012345678901234567890123456789"))
      && (spec.database.kind != "" && spec.database.kind != "mysql" ==> s.database == spec.database)
      && s.certification.cacheEnabled == spec.certification.cacheEnabled
      && (!spec.certification.enabled ==> s.certification == spec.certification)
  {
  }

  // ----- The parts of the object -----

  /** A function mode starts again from the user's list, which loses PREFER_HOST_MODE. */
  function ModeVar(spec: NacosSpec): EnvVar {
    if spec.functionMode == "naming" || spec.functionMode == "config"
    then Literal("FUNCTION_MODE", spec.functionMode)
    else Literal("PREFER_HOST_MODE", "hostname")
  }

  function AuthEnv(cert: Certification): seq<EnvVar> {
    if !cert.enabled then []
    else [Literal("NACOS_AUTH_ENABLE", FormatBool(cert.enabled)),
          Literal("NACOS_AUTH_TOKEN_EXPIRE_SECONDS", cert.tokenExpireSeconds),
          Literal("NACOS_AUTH_TOKEN", cert.token),
          Literal("NACOS_AUTH_CACHE_ENABLE", FormatBool(cert.cacheEnabled))]
  }

  function DatabaseEnv(db: Database): seq<EnvVar> {
    if db.kind == "embedded" then [Literal("EMBEDDED_STORAGE", "embedded")]
    else if db.kind == "mysql" then
      [Literal("SPRING_DATASOURCE_PLATFORM", db.kind), Literal("MYSQL_SERVICE_HOST", db.host),
       Literal("MYSQL_SERVICE_PORT", db.port), Literal("MYSQL_SERVICE_DB_NAME", db.db),
       Literal("MYSQL_SERVICE_USER", db.user), Literal("MYSQL_SERVICE_PASSWORD", db.password)]
    else []
  }

  function KindVar(spec: NacosSpec): EnvVar {
    if spec.kind == TYPE_STAND_ALONE then Literal("MODE", "standalone")
    else Literal("NACOS_REPLICAS", FormatInt(spec.replicas))
  }

  /** The operator's own variables, which follow the user's. */
  function OwnEnv(spec: NacosSpec): seq<EnvVar> {
    [ModeVar(spec)] + AuthEnv(spec.certification) + DatabaseEnv(spec.database) + [KindVar(spec)]
  }

  /** The user's variables come first and as they are, then the operator's. */
  method BuildEnv(spec: NacosSpec) returns (env: seq<EnvVar>)
    ensures env == spec.env + OwnEnv(spec) && spec.env <= env
  {
    env := spec.env + [Literal("PREFER_HOST_MODE", "hostname")];
    match spec.functionMode {
      case "naming" => env := spec.env + [Literal("FUNCTION_MODE", "naming")];
      case "config" => env := spec.env + [Literal("FUNCTION_MODE", "config")];
      case _ =>
    }
    assert env == spec.env + [ModeVar(spec)];
    env := env + AuthEnv(spec.certification);
    env := env + DatabaseEnv(spec.database);
    if spec.kind == TYPE_STAND_ALONE {
      env := env + [Literal("MODE", "standalone")];
    } else {
      env := env + [Literal("NACOS_REPLICAS", FormatInt(spec.replicas))];
    }
    Regrouped(spec.env, [ModeVar(spec)], AuthEnv(spec.certification), DatabaseEnv(spec.database), [KindVar(spec)]);
  }

  lemma Regrouped(user: seq<EnvVar>, a: seq<EnvVar>, b: seq<EnvVar>, c: seq<EnvVar>, d: seq<EnvVar>)
    ensures user + a + b + c + d == user + (a + b + c + d)
  {
  }

  /** One claim template at most: host path first, then an empty directory, then the claim. */
  function Claims(volume: Storage): seq<Claim> {
    if volume.volumeClaimTemplate.None? || volume.hostPath || volume.emptyDir then []
    else
      var pvc := volume.volumeClaimTemplate.value;
      var named := pvc.(name := Or(pvc.name, "db"));
      if !volume.persistentVolumeSize.Size? then [named]
      else
        var requests := if named.resources.requests.None? then map[] else named.resources.requests.value;
        [named.(resources := named.resources.(
           requests := Some(requests["storage" := volume.persistentVolumeSize.quantity])))]
  }

  function DataMount(volume: Storage): seq<VolumeMount> {
    if volume.hostPath || volume.emptyDir then [VolumeMount("db", false, "/home/nacos/data", "", None, "")]
    else if volume.volumeClaimTemplate.Some?
    then [VolumeMount(Or(volume.volumeClaimTemplate.value.name, "db"), false, "/home/nacos/data", "", None, "")]
    else []
  }

  /**
   A claim is made exactly when a template is given and no other storage is; it asks for the size given, keeps the
   template's storage class, and is what the data directory mounts. Without any storage nothing is mounted.
   */
  lemma ClaimIsMounted(volume: Storage)
    ensures |Claims(volume)| <= 1
    ensures Claims(volume) != [] <==> volume.volumeClaimTemplate.Some? && !volume.hostPath && !volume.emptyDir
    ensures Claims(volume) != [] ==>
      var claim := Claims(volume)[0];
      var pvc := volume.volumeClaimTemplate.value;
      && claim.name != "" && (pvc.name != "" ==> claim.name == pvc.name) && DataMount(volume)[0].name == claim.name
      && claim.storageClass == pvc.storageClass && claim.resources.limits == pvc.resources.limits
      && (!volume.persistentVolumeSize.Size? ==> claim.resources == pvc.resources)
      && (volume.persistentVolumeSize.Size? ==>
            && claim.resources.requests.Some? && "storage" in claim.resources.requests.value
            && claim.resources.requests.value["storage"] == volume.persistentVolumeSize.quantity
            && var given := if pvc.resources.requests.Some? then pvc.resources.requests.value else map[];
               claim.resources.requests.value - {"storage"} == given - {"storage"})
    ensures DataMount(volume) != [] ==> |DataMount(volume)| == 1 && DataMount(volume)[0].mountPath == "/home/nacos/data"
    ensures DataMount(volume) == [] <==>
      !volume.hostPath && !volume.emptyDir && volume.volumeClaimTemplate.None?
  {
  }

  function ConfigMount(spec: NacosSpec): seq<VolumeMount> {
    if Managed(spec)
    then [VolumeMount("config", false, "/home/nacos/conf/application.properties", "application.properties", None, "")]
    else []
  }

  function Annotations(spec: NacosSpec, configDigest: string): map<string, string> {
    if Managed(spec) && configDigest != "" then map[DIGEST_KEY := configDigest] else map[]
  }

  function Domain(env: seq<EnvVar>): string {
    if env == [] then "cluster.local"
    else
      var last := env[|env| - 1];
      if last.name == "DOMAIN_NAME" && last.value != "" then last.value else Domain(env[..|env| - 1])
  }

  function ClusterEnv(meta: Meta, spec: NacosSpec): seq<EnvVar>
    requires spec.replicas >= 1
  {
    [Literal("NACOS_SERVERS",
           Join(Servers.Addresses(meta.name, meta.namespace, Domain(spec.env), spec.replicas), ' '))]
  }

  const SERVER_PORTS := [
    ContainerPort("client", 0, 8848, "TCP", ""),
    ContainerPort("rpc", 0, 7848, "TCP", ""),
    ContainerPort("new-rpc", 0, 9848, "TCP", "")]

  /** The size of the claim, where one is made, does not parse. */
  predicate HasBadSize(volume: Storage) {
    volume.volumeClaimTemplate.Some? && !volume.hostPath && !volume.emptyDir && volume.persistentVolumeSize.Unparsable?
  }

  /** Printing the server list of a cluster with no replicas panics, and so does a size that does not parse. */
  predicate Buildable(spec: NacosSpec) {
    && !HasBadSize(spec.volume)
    && (spec.kind == TYPE_STAND_ALONE || (spec.kind == TYPE_CLUSTER && spec.replicas >= 1))
  }

  /** The container named after the resource, before the pod override is merged in. */
  function MainContainer(meta: Meta, spec: NacosSpec): Container
    requires Buildable(spec)
  {
    var cluster := spec.kind == TYPE_CLUSTER;
    Container(
      meta.name, spec.image, if cluster then ["/bin/bash", "-c", "bin/docker-startup.sh"] else [], [], "",
      SERVER_PORTS, [],
      spec.env + OwnEnv(spec) + (if cluster then ClusterEnv(meta, spec) else []),
      spec.resources, DataMount(spec.volume) + ConfigMount(spec), [], spec.livenessProbe, spec.readinessProbe, None,
      None, "", "", "", None, false, false, false)
  }

  /** What a build may return: fully determined up to the order of mounts whose keys collide. */
  ghost predicate IsDesired(ss: StatefulSet, meta: Meta, spec: NacosSpec, configDigest: string) {
    && Buildable(spec)
    && ss.replicas == spec.replicas
    && ss.annotations == Annotations(spec, configDigest)
    && ss.claims == Claims(spec.volume)
    && IsMergeOfLists(ss.containers, [MainContainer(meta, spec)], spec.podContainers)
  }

  predicate NamesDomain(e: EnvVar) {
    e.name == "DOMAIN_NAME" && e.value != ""
  }

  /** The last non-empty DOMAIN_NAME is the domain. */
  lemma {:induction false} DomainGiven(env: seq<EnvVar>, i: nat)
    requires i < |env| && NamesDomain(env[i]) && forall j :: i < j < |env| ==> !NamesDomain(env[j])
    ensures Domain(env) == env[i].value
  {
    if i < |env| - 1 {
      assert !NamesDomain(env[|env| - 1]);
      DomainGiven(env[..|env| - 1], i);
    }
  }

  lemma {:induction false} DomainDefault(env: seq<EnvVar>)
    requires forall i :: 0 <= i < |env| ==> !NamesDomain(env[i])
    ensures Domain(env) == "cluster.local"
  {
    if env != [] {
      assert !NamesDomain(env[|env| - 1]);
      DomainDefault(env[..|env| - 1]);
    }
  }

  method DomainName(env: seq<EnvVar>) returns (domain: string)
    ensures domain == Domain(env)
  {
    domain := "cluster.local";
    for i := 0 to |env|
      invariant domain == Domain(env[..i])
    {
      assert env[..i + 1][..i] == env[..i];
      if env[i].name == "DOMAIN_NAME" && env[i].value != "" {
        domain := env[i].value;
      }
    }
    assert env[..|env|] == env;
  }

  /**
   EnsureStatefulset and EnsureStatefulsetCluster up to the store call, on a spec with its defaults; panics exactly
   where the size of the claim does not parse or the server list cannot be printed.
   */
  method BuildDesired(meta: Meta, spec: NacosSpec, configDigest: string) returns (r: Result<StatefulSet>)
    requires spec.kind == TYPE_STAND_ALONE || spec.kind == TYPE_CLUSTER
    ensures r == Panic(Failure.Plain) <==> !Buildable(spec)
    ensures r.Panic? <==>
      || (spec.kind == "cluster" && spec.replicas <= 0)
      || (spec.volume.volumeClaimTemplate.Some? && !spec.volume.hostPath && !spec.volume.emptyDir
          && spec.volume.persistentVolumeSize.Unparsable?)
    ensures r.Panic? ==> r == Panic(Failure.Plain)
    ensures r.Ok? ==> IsDesired(r.value, meta, spec, configDigest)
  {
    var env := BuildEnv(spec);
    if HasBadSize(spec.volume) {
      return Panic(Failure.Plain);
    }
    var command: seq<string> := [];
    if spec.kind == TYPE_CLUSTER {
      var domain := DomainName(spec.env);
      var servers := Servers.ServerList(meta.name, meta.namespace, domain, spec.replicas);
      if servers.None? {
        return Panic(Failure.Plain);
      }
      env := env + [Literal("NACOS_SERVERS", servers.value)];
      command := ["/bin/bash", "-c", "bin/docker-startup.sh"];
    }
    var main := Container(
      meta.name, spec.image, command, [], "", SERVER_PORTS, [], env, spec.resources,
      DataMount(spec.volume) + ConfigMount(spec), [], spec.livenessProbe, spec.readinessProbe, None, None,
      "", "", "", None, false, false, false);
    assert main.env == MainContainer(meta, spec).env;
    assert main == MainContainer(meta, spec);
    var containers := Containers([main], spec.podContainers);
    r := Ok(StatefulSet(spec.replicas, Annotations(spec, configDigest), containers, Claims(spec.volume)));
  }

  // ----- Quiescence -----

  lemma DesiredHasContainer(ss: StatefulSet, meta: Meta, spec: NacosSpec, configDigest: string)
    requires IsDesired(ss, meta, spec, configDigest)
    ensures ss.containers != []
  {
    var main := MainContainer(meta, spec);
    var x, y := LastWins([main], ContainerKey), LastWins(spec.podContainers, ContainerKey);
    assert main.name in x;
    var m := Overlay(x, y, MergedContainer);
    assert main.name in m.Keys;
    assert m != map[];
  }

  /**
   Two builds from the same spec and digest, under any two orders of visiting the merge maps, are not told
   apart by the comparison, so nothing is written and no pod is rolled; unless the claim template names no
   storage class, when the comparison panics.
   */
  lemma Quiescence(first: StatefulSet, second: StatefulSet, meta: Meta, spec: NacosSpec, configDigest: string)
    requires IsDesired(first, meta, spec, configDigest) && IsDesired(second, meta, spec, configDigest)
    ensures CheckSts(first, second) ==
      if Claims(spec.volume) == [] || Claims(spec.volume)[0].storageClass.Some? then Keep else Crash
  {
    DesiredHasContainer(first, meta, spec, configDigest);
    DesiredHasContainer(second, meta, spec, configDigest);
    var all := MergedContainers([MainContainer(meta, spec)], spec.podContainers);
    assert EqualButMounts(first.containers[0], all[0]) && EqualButMounts(second.containers[0], all[0]);
    if Claims(spec.volume) != [] && Claims(spec.volume)[0].storageClass.Some? {
      EqualFoldReflexive(Claims(spec.volume)[0].storageClass.value);
    }
  }

  /** The pods carry the digest, if configuration is managed and there is one, and nothing else. */
  lemma DigestIsAnnotated(ss: StatefulSet, meta: Meta, spec: NacosSpec, configDigest: string)
    requires IsDesired(ss, meta, spec, configDigest)
    ensures ss.annotations ==
      if (spec.userConfigRef.Some? || spec.internalConfigRef.Some?) && configDigest != ""
      then map["nacos.io/config-digest" := configDigest] else map[]
    ensures ss.replicas == spec.replicas
  {
  }

  /** A changed digest is never taken for agreement, whatever else changed. */
  lemma DigestChangeIsSeen(stored: StatefulSet, desired: StatefulSet, meta: Meta, spec: NacosSpec,
                           oldDigest: string, newDigest: string)
    requires Managed(spec) && stored.annotations == Annotations(spec, oldDigest)
    requires IsDesired(desired, meta, spec, newDigest) && oldDigest != newDigest
    ensures CheckSts(stored, desired) != Keep
  {
    KeepIsAgreement(stored, desired);
    assert oldDigest != "" <==> DIGEST_KEY in stored.annotations;
    assert newDigest != "" <==> DIGEST_KEY in desired.annotations;
    assert oldDigest != "" ==> stored.annotations[DIGEST_KEY] == oldDigest;
    assert newDigest != "" ==> desired.annotations[DIGEST_KEY] == newDigest;
  }

  /** Without a pod override the one container is the main one as built, up to the order of colliding mounts. */
  lemma NoOverrideKeepsMain(ss: StatefulSet, meta: Meta, spec: NacosSpec, configDigest: string)
    requires IsDesired(ss, meta, spec, configDigest) && spec.podContainers == []
    ensures |ss.containers| == 1 && EqualButMounts(ss.containers[0], MainContainer(meta, spec))
  {
    MergedWithNothing([MainContainer(meta, spec)], ContainerKey, MergedContainer);
  }

  // ----- Which container the comparison sees -----

  /**
   Containers are sorted by name before the first is compared, so the main container is the one compared
   exactly when no container of the pod override has a smaller name.
   */
  lemma ComparedContainer(ss: StatefulSet, meta: Meta, spec: NacosSpec, configDigest: string)
    requires IsDesired(ss, meta, spec, configDigest)
    ensures ss.containers != []
    ensures ss.containers[0].name == meta.name <==>
      forall i :: 0 <= i < |spec.podContainers| ==> !Less(spec.podContainers[i].name, meta.name)
  {
    DesiredHasContainer(ss, meta, spec, configDigest);
    var main := MainContainer(meta, spec);
    assert main.name == meta.name;
    FirstIsMain(main, spec.podContainers);
    assert EqualButMounts(ss.containers[0], MergedContainers([main], spec.podContainers)[0]);
  }

  lemma FirstIsMain(main: Container, overrides: seq<Container>)
    ensures MergedContainers([main], overrides) != []
    ensures MergedContainers([main], overrides)[0].name == main.name <==>
      forall i :: 0 <= i < |overrides| ==> !Less(overrides[i].name, main.name)
  {
    var m := OverlaidMain(main, overrides);
    ContainerNamesKeep([main], overrides);
    OverlaidNames(main, overrides, main.name);
    ListingFirst(m, ContainerKey);
    var first := Listing(m)[0].name;
    OverlaidNames(main, overrides, first);
    LessTrichotomy(first, main.name);
    forall i | 0 <= i < |overrides| ensures Less(overrides[i].name, main.name) ==> first != main.name {
      OverlaidNames(main, overrides, overrides[i].name);
      LessTrichotomy(overrides[i].name, main.name);
    }
  }

  ghost function OverlaidMain(main: Container, overrides: seq<Container>): map<string, Container> {
    Overlay(LastWins([main], ContainerKey), LastWins(overrides, ContainerKey), MergedContainer)
  }

  lemma OverlaidNames(main: Container, overrides: seq<Container>, k: string)
    ensures k in OverlaidMain(main, overrides) <==>
      k == main.name || exists i :: 0 <= i < |overrides| && overrides[i].name == k
    ensures k != main.name && k in OverlaidMain(main, overrides) ==>
      k in LastWins(overrides, ContainerKey) && OverlaidMain(main, overrides)[k] == LastWins(overrides, ContainerKey)[k]
  {
    assert LastWins([main], ContainerKey) == map[main.name := main];
    LastWinsConsistent(overrides, ContainerKey);
    LastWinsFromList(overrides, ContainerKey, k);
    LastWinsIsLastWithKey(overrides, ContainerKey, k);
    forall i | 0 <= i < |overrides| && overrides[i].name == k ensures k in LastWins(overrides, ContainerKey) {
      WithKeyHas(overrides, ContainerKey, i);
    }
  }

  lemma SidecarFirst(main: Container, main': Container, overrides: seq<Container>, i: nat)
    requires main.name == main'.name && i < |overrides| && Less(overrides[i].name, main.name)
    ensures MergedContainers([main], overrides) != [] && MergedContainers([main'], overrides) != []
    ensures MergedContainers([main], overrides)[0] == MergedContainers([main'], overrides)[0]
  {
    var m, m' := OverlaidMain(main, overrides), OverlaidMain(main', overrides);
    ContainerNamesKeep([main], overrides);
    ContainerNamesKeep([main'], overrides);
    forall k ensures k in m <==> k in m' ensures k in m && k != main.name ==> m[k] == m'[k] {
      OverlaidNames(main, overrides, k);
      OverlaidNames(main', overrides, k);
    }
    OverlaidNames(main, overrides, overrides[i].name);
    ListingFirstUnchanged(m, m', ContainerKey, main.name, overrides[i].name);
  }

  /**
   With a smaller-named override container, changes to the environment or resources of the main container
   are taken for agreement: no update is made for them.
   */
  lemma SidecarHidesMain(stored: StatefulSet, desired: StatefulSet, meta: Meta, spec: NacosSpec,
                         env: seq<EnvVar>, resources: ResourceRequirements, configDigest: string, i: nat)
    requires IsDesired(stored, meta, spec, configDigest)
    requires IsDesired(desired, meta, spec.(env := env, resources := resources), configDigest)
    requires i < |spec.podContainers| && Less(spec.podContainers[i].name, meta.name)
    requires Claims(spec.volume) == [] || Claims(spec.volume)[0].storageClass.Some?
    ensures CheckSts(stored, desired) == Keep
  {
    var spec' := spec.(env := env, resources := resources);
    DesiredHasContainer(stored, meta, spec, configDigest);
    DesiredHasContainer(desired, meta, spec', configDigest);
    SidecarFirst(MainContainer(meta, spec), MainContainer(meta, spec'), spec.podContainers, i);
    if Claims(spec.volume) != [] {
      EqualFoldReflexive(Claims(spec.volume)[0].storageClass.value);
    }
  }
}
