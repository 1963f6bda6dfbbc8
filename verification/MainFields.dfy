/** pkg/service/operator/Kind.go: what the main container of a built StatefulSet is, before and after a pod override. */
module MainFields {
  import opened Strings
  import opened KeyedLists
  import opened ContainerMerge
  import opened ContainerFields
  import opened StatefulSets
  import opened Api
  import opened Kind
  import opened Builder
  import opened ContainerEnv

  /** The mounts made for the storage and the configuration the resource asks for. */
  predicate MountsFor(mounts: seq<VolumeMount>, spec: NacosSpec) {
    var volume := spec.volume;
    var data := volume.hostPath || volume.emptyDir || volume.volumeClaimTemplate.Some?;
    var config := spec.userConfigRef.Some? || spec.internalConfigRef.Some?;
    && |mounts| == (if data then 1 else 0) + (if config then 1 else 0)
    && (data ==>
          && mounts[0].mountPath == "/home/nacos/data" && mounts[0].subPath == "" && !mounts[0].readOnly
          && mounts[0].name ==
               (if volume.hostPath || volume.emptyDir || volume.volumeClaimTemplate.value.name == "" then "db"
                else volume.volumeClaimTemplate.value.name))
    && (config ==>
          var m := mounts[|mounts| - 1];
          m.name == "config" && m.mountPath == "/home/nacos/conf/application.properties"
          && m.subPath == "application.properties" && !m.readOnly)
  }

  /** The three ports of the server. */
  predicate ServesPorts(ports: seq<ContainerPort>) {
    && |ports| == 3
    && ports[0].name == "client" && ports[0].containerPort == 8848
    && ports[1].name == "rpc" && ports[1].containerPort == 7848
    && ports[2].name == "new-rpc" && ports[2].containerPort == 9848
    && forall p :: p in ports ==> p.protocol == "TCP" && p.hostPort == 0 && p.hostIP == ""
  }

  /** What the resource asks of the container that runs the server. */
  predicate AsAsked(c: Container, meta: Meta, spec: NacosSpec) {
    && c.name == meta.name && c.image == spec.image && c.resources == spec.resources
    && c.command == (if spec.kind == "cluster" then ["/bin/bash", "-c", "bin/docker-startup.sh"] else [])
    && c.args == [] && c.workingDir == "" && c.envFrom == [] && c.volumeDevices == []
    && c.livenessProbe == spec.livenessProbe && c.readinessProbe == spec.readinessProbe && c.startupProbe.None?
    && c.lifecycle.None? && c.securityContext.None?
    && c.terminationMessagePath == "" && c.terminationMessagePolicy == "" && c.imagePullPolicy == ""
    && !c.stdin && !c.stdinOnce && !c.tty
    && ServesPorts(c.ports) && MountsFor(c.volumeMounts, spec) && spec.env <= c.env
  }

  lemma BuiltAsAsked(meta: Meta, spec: NacosSpec)
    requires Buildable(spec)
    ensures AsAsked(MainContainer(meta, spec), meta, spec)
  {
    BuiltMounts(spec);
    var c := MainContainer(meta, spec);
    assert c.env[..|spec.env|] == spec.env;
  }

  lemma BuiltMounts(spec: NacosSpec)
    ensures MountsFor(DataMount(spec.volume) + ConfigMount(spec), spec)
  {
  }

  lemma MainOfLists(ss: StatefulSet, meta: Meta, spec: NacosSpec, configDigest: string, i: nat)
    requires IsMain(ss, meta, spec, configDigest, i)
    ensures LastWins([MainContainer(meta, spec)], ContainerKey) == map[meta.name := MainContainer(meta, spec)]
  {
    LastWinsSnoc([], MainContainer(meta, spec), ContainerKey);
    assert [] + [MainContainer(meta, spec)] == [MainContainer(meta, spec)];
  }

  /** Where no override container has its name the main container is as the resource asks. */
  lemma MainAsAsked(ss: StatefulSet, meta: Meta, spec: NacosSpec, configDigest: string, i: nat)
    requires IsMain(ss, meta, spec, configDigest, i)
    requires forall j :: 0 <= j < |spec.podContainers| ==> spec.podContainers[j].name != meta.name
    ensures AsAsked(ss.containers[i], meta, spec)
  {
    BuiltAsAsked(meta, spec);
    MainIsBuilt(ss, meta, spec, configDigest, i);
  }

  lemma MainIsBuilt(ss: StatefulSet, meta: Meta, spec: NacosSpec, configDigest: string, i: nat)
    requires IsMain(ss, meta, spec, configDigest, i)
    requires forall j :: 0 <= j < |spec.podContainers| ==> spec.podContainers[j].name != meta.name
    ensures ss.containers[i] == MainContainer(meta, spec)
  {
    var main := MainContainer(meta, spec);
    assert ContainerMountsIdentify([main], spec.podContainers);
    ContainerNamesKeep([main], spec.podContainers);
    MergedFrom([main], spec.podContainers, ContainerKey, MergedContainer, ss.containers[i]);
    MainOfLists(ss, meta, spec, configDigest, i);
    NameInList(spec.podContainers, meta.name);
  }

  /** The last override container of its name is merged onto what the resource asks, field by field. */
  lemma MainOverridden(ss: StatefulSet, meta: Meta, spec: NacosSpec, configDigest: string, i: nat, j: nat)
    returns (asked: Container)
    requires IsMain(ss, meta, spec, configDigest, i)
    requires IsLast(spec.podContainers, ContainerKey, j) && spec.podContainers[j].name == meta.name
    ensures AsAsked(asked, meta, spec) && FieldsFrom(ss.containers[i], asked, spec.podContainers[j])
    ensures ContainerMountsIdentify([asked], spec.podContainers) ==>
      ss.containers[i].volumeMounts == MergedMounts(asked.volumeMounts, spec.podContainers[j].volumeMounts)
  {
    asked := MainContainer(meta, spec);
    BuiltAsAsked(meta, spec);
    MainOfLists(ss, meta, spec, configDigest, i);
    LastIsKept(spec.podContainers, ContainerKey, j);
    ContainerOfList(ss.containers, [asked], spec.podContainers, i);
    if ContainerMountsIdentify([asked], spec.podContainers) {
      ContainerNamesKeep([asked], spec.podContainers);
      MergedFrom([asked], spec.podContainers, ContainerKey, MergedContainer, ss.containers[i]);
    }
  }

  /** So the resources that are compared are the resource's, with what the override sets of them. */
  lemma MainResources(ss: StatefulSet, meta: Meta, spec: NacosSpec, configDigest: string, i: nat, j: nat)
    requires IsMain(ss, meta, spec, configDigest, i)
    requires IsLast(spec.podContainers, ContainerKey, j) && spec.podContainers[j].name == meta.name
    ensures ResourcesFrom(ss.containers[i].resources, spec.resources, spec.podContainers[j].resources)
    ensures TextFrom(ss.containers[i].image, spec.image, spec.podContainers[j].image)
    ensures ProbeFrom(ss.containers[i].livenessProbe, spec.livenessProbe, spec.podContainers[j].livenessProbe)
    ensures ProbeFrom(ss.containers[i].readinessProbe, spec.readinessProbe, spec.podContainers[j].readinessProbe)
  {
    var asked := MainOverridden(ss, meta, spec, configDigest, i, j);
  }
}
