/** api/v1alpha1/nacos_types.go and pkg/errors: the custom resource and the errors the operator panics with. */
module Api {
  import opened Strings
  import opened ContainerMerge
  import opened StatefulSets

  // ----- Errors -----

  const CODE_NORMAL := 200
  const CODE_PARAMETER_ERROR := 301
  const CODE_CLUSTER_FAILE := 401
  const CODE_ERR_SYSTEM := 404
  const CODE_ERR_UNKNOW := -1

  /** What a panic carries: the operator's own error type, or anything else. */
  datatype Failure = Coded(code: int, message: string) | Plain

  datatype Result<+T> = Ok(value: T) | Panic(failure: Failure) {
    predicate IsFailure() { Panic? }
    function PropagateFailure<U>(): Result<U>
      requires Panic?
    {
      Panic(failure)
    }
    function Extract(): T
      requires Ok?
    {
      value
    }
  }

  // ----- Spec -----

  datatype ConfigMapRef = ConfigMapRef(name: string, key: string)

  datatype Database = Database(
    kind: string, host: string, port: string, db: string, user: string, password: string)

  datatype Certification = Certification(enabled: bool, token: string, tokenExpireSeconds: string, cacheEnabled: bool)

  /** A requested size: not given, a text that parses as a quantity, or one that does not. */
  datatype Size = NoSize | Size(quantity: string) | Unparsable(text: string)

  /** hostPath and emptyDir say whether those sources are set. */
  datatype Storage = Storage(
    hostPath: bool, emptyDir: bool, volumeClaimTemplate: Option<Claim>, persistentVolumeSize: Size)

  datatype Meta = Meta(name: string, namespace: string, creation: int)

  datatype NacosSpec = NacosSpec(
    image: string, replicas: int, resources: ResourceRequirements, env: seq<EnvVar>,
    livenessProbe: Option<Probe>, readinessProbe: Option<Probe>,
    kind: string, functionMode: string, database: Database, volume: Storage, certification: Certification,
    userConfigRef: Option<ConfigMapRef>, internalConfigRef: Option<ConfigMapRef>, finalConfigName: string,
    podContainers: seq<Container>,
    postgresHost: string, pgInitEnabled: bool, pgSchemaVersion: int,
    adminSecretName: string, adminSecretChecksum: string)

  // ----- Status -----

  datatype Phase = PhaseNone | PhaseCreating | PhaseRunning | PhaseFailed | PhaseScale

  datatype Event = Event(status: bool, code: int, message: string, firstAppear: int, lastTransition: int)

  datatype NacosCondition = NacosCondition(
    kind: string, status: string, instance: string, podName: string, nodeName: string)

  datatype PGStatus = PGStatus(initialized: bool, initVersion: int, lastInitTime: int, lastResult: string)

  datatype AdminStatus = AdminStatus(
    lastRotateTime: int, lastResult: string, lastSecretResourceVersion: string, lastSecretChecksum: string)

  datatype NacosStatus = NacosStatus(
    conditions: seq<NacosCondition>, events: seq<Event>, phase: Phase, healthy: bool, version: string,
    pg: PGStatus, admin: AdminStatus, configDigest: string)

  const EmptyStatus := NacosStatus([], [], PhaseNone, false, "",
                                   PGStatus(false, 0, 0, ""), AdminStatus(0, "", "", ""), "")

  /** The object one reconcile works on: loaded from the cache, then changed in memory stage by stage. */
  class Nacos {
    const meta: Meta
    var spec: NacosSpec
    var status: NacosStatus

    constructor (meta: Meta, spec: NacosSpec, status: NacosStatus)
      ensures this.meta == meta && this.spec == spec && this.status == status
    {
      this.meta, this.spec, this.status := meta, spec, status;
    }
  }
}
