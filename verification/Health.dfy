/** pkg/service/operator/Check.go: the quorum of ready pods and the agreement on a leader. */
module Health {
  import opened Strings
  import opened Api
  import opened StatefulSets
  import opened Servers

  datatype PodCondition = PodCondition(kind: string, status: string)

  datatype Pod = Pod(name: string, ip: string, node: string, conditions: seq<PodCondition>)

  // ----- Ready pods and quorum -----

  predicate IsReady(pod: Pod) {
    |pod.conditions| == 4 && pod.conditions[1] == PodCondition("Ready", "True")
  }

  function ReadyPods(pods: seq<Pod>): seq<Pod> {
    if pods == [] then []
    else
      var last := pods[|pods| - 1];
      ReadyPods(pods[..|pods| - 1]) + if IsReady(last) then [last] else []
  }

  /** Nothing else is dropped and nothing is added: multiplicities are those of the ready pods. */
  lemma {:induction false} ReadyPodsExactly(pods: seq<Pod>, pod: Pod)
    ensures multiset(ReadyPods(pods))[pod] == if IsReady(pod) then multiset(pods)[pod] else 0
  {
    if pods != [] {
      var front, last := pods[..|pods| - 1], pods[|pods| - 1];
      ReadyPodsExactly(front, pod);
      assert pods == front + [last];
    }
  }

  lemma {:induction false} ReadyPodsMembers(pods: seq<Pod>)
    ensures forall pod :: pod in ReadyPods(pods) <==> pod in pods && IsReady(pod)
  {
    if pods != [] {
      ReadyPodsMembers(pods[..|pods| - 1]);
      assert pods == pods[..|pods| - 1] + [pods[|pods| - 1]];
    }
  }

  /** A pod list that could not be read counts as empty. */
  method GetStatefulSetReadPod(pods: Option<seq<Pod>>) returns (podlist: seq<Pod>)
    ensures podlist == if pods.Some? then ReadyPods(pods.value) else []
    ensures forall pod :: pod in podlist <==>
      && pods.Some? && pod in pods.value
      && |pod.conditions| == 4 && pod.conditions[1].kind == "Ready" && pod.conditions[1].status == "True"
  {
    podlist := [];
    if pods.None? {
      return;
    }
    for i := 0 to |pods.value|
      invariant podlist == ReadyPods(pods.value[..i])
    {
      var pod := pods.value[i];
      assert pods.value[..i + 1][..i] == pods.value[..i];
      if |pod.conditions| == 4 {
        if pod.conditions[1].kind == "Ready" && pod.conditions[1].status == "True" {
          podlist := podlist + [pod];
        }
      }
    }
    assert pods.value[..|pods.value|] == pods.value;
    ReadyPodsMembers(pods.value);
  }

  /** Go's integer division by two, which truncates toward zero. */
  function Halved(n: int): int {
    if n >= 0 then n / 2 else -(-n / 2)
  }

  /** ss is None when the StatefulSet cannot be read; an unreadable pod list is taken for an empty one. */
  method CheckKind(ss: Option<StatefulSet>, replicas: int, pods: Option<seq<Pod>>) returns (r: Result<seq<Pod>>)
    ensures var ready := if pods.Some? then ReadyPods(pods.value) else [];
      r == if ss.None? then Panic(Plain)
           else if ss.value.replicas != replicas
           then Panic(Coded(CODE_ERR_UNKNOW, "cr replicas is not equal ss replicas"))
           else if |ready| < Halved(replicas + 1)
           then Panic(Coded(CODE_ERR_UNKNOW, "The number of ready pods is too less"))
           else Ok(ready)
    ensures r.Ok? <==>
      && ss.Some? && ss.value.replicas == replicas
      && 2 * (if pods.Some? then |ReadyPods(pods.value)| else 0) >= replicas
  {
    if ss.None? {
      return Panic(Plain);
    }
    if ss.value.replicas != replicas {
      return Panic(Coded(CODE_ERR_UNKNOW, "cr replicas is not equal ss replicas"));
    }
    var ready := GetStatefulSetReadPod(pods);
    if |ready| < Halved(replicas + 1) {
      return Panic(Coded(CODE_ERR_UNKNOW, "The number of ready pods is too less"));
    }
    r := Ok(ready);
  }

  predicate IsQuorum(ready: set<string>, replicas: nat) {
    |ready| >= Halved(replicas + 1)
  }

  /** Out of an odd number of pods, any two sets of ready pods that pass have a pod in common. */
  lemma QuorumsMeet(pods: set<string>, a: set<string>, b: set<string>)
    requires |pods| % 2 == 1 && a <= pods && b <= pods
    requires IsQuorum(a, |pods|) && IsQuorum(b, |pods|)
    ensures a * b != {}
  {
    assert |a + b| == |a| + |b| - |a * b|;
    assert a + b <= pods;
    SubsetSize(a + b, pods);
  }

  lemma SubsetSize<T>(a: set<T>, b: set<T>)
    requires a <= b
    ensures |a| <= |b|
  {
    assert b == a + (b - a);
    assert |a + (b - a)| == |a| + |b - a|;
  }

  lemma {:induction false} HalfOf(pods: set<string>, n: nat) returns (a: set<string>)
    requires n <= |pods|
    ensures a <= pods && |a| == n
  {
    if n == 0 {
      a := {};
    } else {
      var p :| p in pods;
      a := HalfOf(pods - {p}, n - 1);
      a := a + {p};
    }
  }

  /** Any even number of pods splits into two disjoint halves that both pass. */
  lemma EvenQuorumsMayMiss(pods: set<string>) returns (a: set<string>, b: set<string>)
    requires |pods| % 2 == 0
    ensures a <= pods && b <= pods && IsQuorum(a, |pods|) && IsQuorum(b, |pods|) && a * b == {}
  {
    a := HalfOf(pods, |pods| / 2);
    b := pods - a;
    assert pods == a + b;
    assert |a + b| == |a| + |b| - |a * b|;
    assert a * b == {};
  }

  // ----- Leader agreement -----

  /** One entry of the node list a server reports. */
  datatype Server = Server(state: string, leader: string, version: string)

  /** The servers of all replies, in reading order; a reply that could not be read has none. */
  function AllServers(replies: seq<Option<seq<Server>>>): seq<Server> {
    if replies == [] then []
    else
      var last := replies[|replies| - 1];
      AllServers(replies[..|replies| - 1]) + if last.Some? then last.value else []
  }

  /** Empty strings, followed by copies of one value. */
  predicate LeadersAgree(servers: seq<Server>) {
    forall i, j :: 0 <= i < j < |servers| && servers[i].leader != "" ==> servers[j].leader == servers[i].leader
  }

  predicate AllUp(servers: seq<Server>) {
    forall i :: 0 <= i < |servers| ==> servers[i].state == "UP"
  }

  predicate Complete(reply: Option<seq<Server>>, replicas: int) {
    reply.Some? && |reply.value| == replicas
  }

  /** Every queried pod answered with exactly `replicas` servers, all UP and agreed on a leader. */
  predicate ClusterHealthy(replies: seq<Option<seq<Server>>>, replicas: int) {
    && (forall i :: 0 <= i < |replies| ==> Complete(replies[i], replicas))
    && AllUp(AllServers(replies))
    && LeadersAgree(AllServers(replies))
  }

  lemma {:induction false} AllUpMeaning(replies: seq<Option<seq<Server>>>)
    ensures AllUp(AllServers(replies)) <==>
      forall i, j :: 0 <= i < |replies| && replies[i].Some? && 0 <= j < |replies[i].value| ==>
        replies[i].value[j].state == "UP"
  {
    if replies != [] {
      var front, last := replies[..|replies| - 1], replies[|replies| - 1];
      AllUpMeaning(front);
      var before, servers := AllServers(front), if last.Some? then last.value else [];
      assert forall i :: 0 <= i < |before| ==> (before + servers)[i] == before[i];
      assert forall j :: 0 <= j < |servers| ==> (before + servers)[|before| + j] == servers[j];
    }
  }

  /** What a healthy cluster reports: the right number of servers per pod, every one up, and one leader at most. */
  lemma HealthyMeaning(replies: seq<Option<seq<Server>>>, replicas: int)
    requires ClusterHealthy(replies, replicas)
    ensures forall i :: 0 <= i < |replies| ==> replies[i].Some? && |replies[i].value| == replicas
    ensures forall i, j :: 0 <= i < |replies| && 0 <= j < |replies[i].value| ==> replies[i].value[j].state == "UP"
    ensures forall s, t :: s in AllServers(replies) && t in AllServers(replies) ==>
      s.leader == "" || t.leader == "" || s.leader == t.leader
  {
    AllUpMeaning(replies);
    KnownLeaderMeaning(AllServers(replies));
  }

  /** The leader known after reading these servers. */
  function KnownLeader(servers: seq<Server>): string {
    if servers == [] then ""
    else
      var before := KnownLeader(servers[..|servers| - 1]);
      if before != "" then before else servers[|servers| - 1].leader
  }

  lemma {:induction false} KnownLeaderMeaning(servers: seq<Server>)
    ensures KnownLeader(servers) == "" <==> forall i :: 0 <= i < |servers| ==> servers[i].leader == ""
    ensures LeadersAgree(servers) ==>
      forall i :: 0 <= i < |servers| ==> servers[i].leader == "" || servers[i].leader == KnownLeader(servers)
    ensures LeadersAgree(servers) && KnownLeader(servers) != "" ==>
      servers[|servers| - 1].leader == KnownLeader(servers)
  {
    if servers != [] {
      KnownLeaderMeaning(servers[..|servers| - 1]);
    }
  }

  lemma {:induction false} KnownLeaderMonotone(servers: seq<Server>, more: seq<Server>)
    ensures KnownLeader(servers) != "" ==> KnownLeader(servers + more) == KnownLeader(servers)
  {
    if more == [] {
      assert servers + more == servers;
    } else {
      KnownLeaderMonotone(servers, more[..|more| - 1]);
      assert (servers + more)[..|servers + more| - 1] == servers + more[..|more| - 1];
    }
  }

  lemma AgreeSnoc(servers: seq<Server>, s: Server)
    ensures KnownLeader(servers + [s]) == if KnownLeader(servers) != "" then KnownLeader(servers) else s.leader
    ensures LeadersAgree(servers + [s]) <==>
      LeadersAgree(servers) && (KnownLeader(servers) != "" ==> s.leader == KnownLeader(servers))
    ensures AllUp(servers + [s]) <==> AllUp(servers) && s.state == "UP"
  {
    var all := servers + [s];
    assert all[..|servers|] == servers;
    assert all[|servers|] == s && forall i :: 0 <= i < |servers| ==> all[i] == servers[i];
    KnownLeaderMeaning(servers);
  }

  predicate AllGood(servers: seq<Server>) {
    LeadersAgree(servers) && AllUp(servers)
  }

  /** The next server of a reply goes well with those read before, or the whole reply does not. */
  lemma OneMoreServer(before: seq<Server>, servers: seq<Server>, j: nat)
    requires j < |servers| && AllGood(before + servers[..j])
    ensures var seen, next, svc := before + servers[..j], before + servers[..j + 1], servers[j];
      && KnownLeader(next) == (if KnownLeader(seen) != "" then KnownLeader(seen) else svc.leader)
      && (AllGood(next) <==> svc.state == "UP" && (KnownLeader(seen) != "" ==> svc.leader == KnownLeader(seen)))
      && (AllGood(before + servers) ==> AllGood(next))
  {
    var seen := before + servers[..j];
    AgreeSnoc(seen, servers[j]);
    assert before + servers[..j + 1] == seen + [servers[j]];
    assert before + servers == (seen + [servers[j]]) + servers[j + 1..];
    if AllGood(before + servers) {
      AgreePrefix(seen + [servers[j]], servers[j + 1..]);
    }
  }

  lemma AgreePrefix(servers: seq<Server>, more: seq<Server>)
    requires LeadersAgree(servers + more) && AllUp(servers + more)
    ensures LeadersAgree(servers) && AllUp(servers)
  {
    var all := servers + more;
    assert forall i :: 0 <= i < |servers| ==> all[i] == servers[i];
  }

  lemma {:induction false} AllServersPrefix(replies: seq<Option<seq<Server>>>, i: nat)
    requires i <= |replies|
    ensures exists more :: AllServers(replies) == AllServers(replies[..i]) + more
  {
    if i == |replies| {
      assert replies[..i] == replies;
      assert AllServers(replies) == AllServers(replies[..i]) + [];
    } else {
      var front := replies[..|replies| - 1];
      AllServersPrefix(front, i);
      assert front[..i] == replies[..i];
      var more :| AllServers(front) == AllServers(front[..i]) + more;
      var last := replies[|replies| - 1];
      var tail := if last.Some? then last.value else [];
      assert AllServers(replies) == AllServers(replies[..i]) + (more + tail);
    }
  }

  function ConditionOf(pod: Pod, leader: string): NacosCondition {
    NacosCondition(if LeaderPod(leader) == pod.name then "leader" else "follower", "true", pod.ip, pod.name, pod.node)
  }

  /** One condition per pod, typed by the leader known once that pod's servers were read. */
  function ConditionsOf(pods: seq<Pod>, replies: seq<Option<seq<Server>>>): (cs: seq<NacosCondition>)
    requires |pods| == |replies|
    ensures |cs| == |pods|
  {
    seq(|pods|, i requires 0 <= i < |pods| => ConditionOf(pods[i], KnownLeader(AllServers(replies[..i + 1]))))
  }

  /** What the condition of a queried pod tells: where it runs, and whether it is the leader known by then. */
  lemma ConditionTells(pods: seq<Pod>, replies: seq<Option<seq<Server>>>, i: nat)
    requires |pods| == |replies| && i < |pods|
    ensures var c, leader := ConditionsOf(pods, replies)[i], KnownLeader(AllServers(replies[..i + 1]));
      && c.podName == pods[i].name && c.nodeName == pods[i].node && c.instance == pods[i].ip && c.status == "true"
      && c.kind == (if LeaderPod(leader) == pods[i].name then "leader" else "follower")
  {
  }

  /** The version of the server read last. */
  function LastVersion(servers: seq<Server>, initial: string): string {
    if servers == [] then initial else servers[|servers| - 1].version
  }

  lemma LastVersionAppend(servers: seq<Server>, more: seq<Server>, initial: string)
    ensures LastVersion(servers + more, initial) == LastVersion(more, LastVersion(servers, initial))
  {
    assert more == [] ==> servers + more == servers;
  }

  /** Servers are read reply by reply, in the order of each reply. */
  lemma {:induction false} AllServersAppend(replies: seq<Option<seq<Server>>>, more: seq<Option<seq<Server>>>)
    ensures AllServers(replies + more) == AllServers(replies) + AllServers(more)
  {
    if more == [] {
      assert replies + more == replies;
    } else {
      AllServersAppend(replies, more[..|more| - 1]);
      assert (replies + more)[..|replies + more| - 1] == replies + more[..|more| - 1];
    }
  }

  /** The version is that of the last server in the last reply that has any, whatever came before. */
  lemma VersionOfLast(replies: seq<Option<seq<Server>>>, servers: seq<Server>, initial: string)
    requires servers != []
    ensures LastVersion(AllServers(replies + [Some(servers)]), initial) == servers[|servers| - 1].version
  {
    assert (replies + [Some(servers)])[..|replies|] == replies;
  }

  /** One pod's node list, read after the servers in `before`. */
  method CheckServers(nacos: Nacos, ghost before: seq<Server>, servers: seq<Server>, leaderBefore: string)
    returns (ok: bool, leader: string)
    requires leaderBefore == KnownLeader(before) && LeadersAgree(before) && AllUp(before)
    modifies nacos`status
    ensures ok <==> LeadersAgree(before + servers) && AllUp(before + servers)
    ensures ok ==> leader == KnownLeader(before + servers)
    ensures nacos.status == old(nacos.status).(version := nacos.status.version)
    ensures ok ==> nacos.status.version == LastVersion(servers, old(nacos.status.version))
  {
    leader := leaderBefore;
    assert before + servers[..0] == before;
    for j := 0 to |servers|
      invariant AllGood(before + servers[..j])
      invariant leader == KnownLeader(before + servers[..j])
      invariant nacos.status == old(nacos.status).(version := nacos.status.version)
      invariant nacos.status.version == if j == 0 then old(nacos.status.version) else servers[j - 1].version
    {
      var svc := servers[j];
      OneMoreServer(before, servers, j);
      if svc.state != "UP" || (leader != "" && leader != svc.leader) {
        return false, leader;
      }
      if leader == "" {
        leader := svc.leader;
      }
      nacos.status := nacos.status.(version := svc.version);
    }
    assert servers[..|servers|] == servers;
    ok := true;
  }

  /**
   Returns normally exactly when the cluster is healthy in the sense above, and then has rewritten the
   conditions, one per pod in order, and the version. Any other outcome is a cluster failure, with the conditions
   of the pods before the one at fault.
   */
  method CheckNacos(nacos: Nacos, pods: seq<Pod>, replies: seq<Option<seq<Server>>>, replicas: int)
    returns (r: Result<()>, ghost passed: nat)
    requires |pods| == |replies|
    modifies nacos`status
    ensures r.Ok? <==> ClusterHealthy(replies, replicas)
    ensures r.Ok? ==>
      && nacos.status.conditions == ConditionsOf(pods, replies)
      && nacos.status.version == LastVersion(AllServers(replies), old(nacos.status.version))
    ensures r.Panic? ==> r.failure.Coded? && r.failure.code == CODE_CLUSTER_FAILE
    ensures r.Panic? ==>
      && passed < |pods|
      && HealthySoFar(replies, replicas, passed) && !HealthySoFar(replies, replicas, passed + 1)
      && nacos.status.conditions == ConditionsOf(pods[..passed], replies[..passed])
    ensures nacos.status ==
      old(nacos.status).(conditions := nacos.status.conditions, version := nacos.status.version)
  {
    var leader := "";
    passed := 0;
    nacos.status := nacos.status.(conditions := []);
    for i := 0 to |pods|
      invariant passed == i && HealthySoFar(replies, replicas, i)
      invariant leader == KnownLeader(AllServers(replies[..i]))
      invariant nacos.status.conditions == ConditionsOf(pods[..i], replies[..i])
      invariant nacos.status.version == LastVersion(AllServers(replies[..i]), old(nacos.status.version))
      invariant nacos.status ==
        old(nacos.status).(conditions := nacos.status.conditions, version := nacos.status.version)
    {
      if replies[i].None? || |replies[i].value| != replicas {
        assert !Complete(replies[i], replicas) && !HealthySoFar(replies, replicas, i + 1);
        return Panic(Coded(CODE_CLUSTER_FAILE, "server num is not equal")), passed;
      }
      ghost var before := AllServers(replies[..i]);
      OneMoreReply(replies, replicas, i);
      var ok, known := CheckServers(nacos, before, replies[i].value, leader);
      if !ok {
        return Panic(Coded(CODE_CLUSTER_FAILE, "node is not up or leader not equal")), passed;
      }
      leader := known;
      LastVersionAppend(before, replies[i].value, old(nacos.status.version));
      nacos.status := nacos.status.(conditions := nacos.status.conditions + [ConditionOf(pods[i], leader)]);
      ConditionsSnoc(pods, replies, i);
      passed := i + 1;
    }
    assert replies[..|replies|] == replies && pods[..|pods|] == pods;
    r := Ok(());
  }

  ghost predicate HealthySoFar(replies: seq<Option<seq<Server>>>, replicas: int, i: nat)
    requires i <= |replies|
  {
    && (forall k :: 0 <= k < i ==> Complete(replies[k], replicas))
    && AllUp(AllServers(replies[..i])) && LeadersAgree(AllServers(replies[..i]))
  }

  /** The first i + 1 replies are healthy if the i-th reply goes well with those before; so must it if all are. */
  lemma OneMoreReply(replies: seq<Option<seq<Server>>>, replicas: int, i: nat)
    requires i < |replies| && HealthySoFar(replies, replicas, i) && Complete(replies[i], replicas)
    ensures AllServers(replies[..i + 1]) == AllServers(replies[..i]) + replies[i].value
    ensures HealthySoFar(replies, replicas, i + 1) <==>
      var seen := AllServers(replies[..i]) + replies[i].value; AllUp(seen) && LeadersAgree(seen)
    ensures ClusterHealthy(replies, replicas) ==> HealthySoFar(replies, replicas, i + 1)
  {
    assert replies[..i + 1][..i] == replies[..i];
    if ClusterHealthy(replies, replicas) {
      AllServersPrefix(replies, i + 1);
      var more :| AllServers(replies) == AllServers(replies[..i + 1]) + more;
      AgreePrefix(AllServers(replies[..i + 1]), more);
    }
  }

  function ConditionAt(pods: seq<Pod>, replies: seq<Option<seq<Server>>>, k: nat): NacosCondition
    requires |pods| == |replies| && k < |pods|
  {
    ConditionOf(pods[k], KnownLeader(AllServers(replies[..k + 1])))
  }

  lemma ConditionsSnoc(pods: seq<Pod>, replies: seq<Option<seq<Server>>>, i: nat)
    requires |pods| == |replies| && i < |pods|
    ensures ConditionsOf(pods[..i + 1], replies[..i + 1]) ==
      ConditionsOf(pods[..i], replies[..i]) + [ConditionAt(pods, replies, i)]
  {
    var longer, shorter := ConditionsOf(pods[..i + 1], replies[..i + 1]), ConditionsOf(pods[..i], replies[..i]);
    var both := shorter + [ConditionAt(pods, replies, i)];
    forall k | 0 <= k < i + 1 ensures longer[k] == both[k] {
      ConditionOfPrefix(pods, replies, i + 1, k);
      if k < i {
        ConditionOfPrefix(pods, replies, i, k);
      }
    }
    assert longer == both;
  }

  /** A pod's condition depends on no later pod. */
  lemma ConditionOfPrefix(pods: seq<Pod>, replies: seq<Option<seq<Server>>>, n: nat, k: nat)
    requires |pods| == |replies| && k < n <= |pods|
    ensures ConditionsOf(pods[..n], replies[..n])[k] == ConditionAt(pods, replies, k)
  {
    assert replies[..n][..k + 1] == replies[..k + 1];
  }

  predicate DistinctNames(pods: seq<Pod>) {
    && (forall i :: 0 <= i < |pods| ==> pods[i].name != "")
    && forall i, j :: 0 <= i < j < |pods| ==> pods[i].name != pods[j].name
  }

  lemma LeaderPodEmpty()
    ensures LeaderPod("") == ""
  {
  }

  /** Among distinctly named pods at most one is typed leader. */
  lemma AtMostOneLeader(pods: seq<Pod>, replies: seq<Option<seq<Server>>>, replicas: int, i: nat, j: nat)
    requires |pods| == |replies| && ClusterHealthy(replies, replicas) && DistinctNames(pods)
    requires i < j < |pods|
    ensures ConditionsOf(pods, replies)[i].kind != "leader" || ConditionsOf(pods, replies)[j].kind != "leader"
  {
    var li, lj := KnownLeader(AllServers(replies[..i + 1])), KnownLeader(AllServers(replies[..j + 1]));
    LeaderStays(replies, i, j);
    ConditionKind(pods, replies, i);
    ConditionKind(pods, replies, j);
    LeaderPodEmpty();
    assert li == "" || li == lj;
  }

  /** A leader once known stays the known leader. */
  lemma LeaderStays(replies: seq<Option<seq<Server>>>, i: nat, j: nat)
    requires i <= j < |replies|
    ensures var l := KnownLeader(AllServers(replies[..i + 1]));
      l != "" ==> KnownLeader(AllServers(replies[..j + 1])) == l
  {
    AllServersPrefix(replies[..j + 1], i + 1);
    assert replies[..j + 1][..i + 1] == replies[..i + 1];
    var more :| AllServers(replies[..j + 1]) == AllServers(replies[..i + 1]) + more;
    KnownLeaderMonotone(AllServers(replies[..i + 1]), more);
  }

  lemma ConditionKind(pods: seq<Pod>, replies: seq<Option<seq<Server>>>, i: nat)
    requires |pods| == |replies| && i < |pods|
    ensures ConditionsOf(pods, replies)[i].kind == "leader" <==>
      LeaderPod(KnownLeader(AllServers(replies[..i + 1]))) == pods[i].name
  {
    assert "leader"[0] != "follower"[0];
  }

  /** If every server names a leader and it is one of the queried pods, exactly that pod is typed leader. */
  lemma {:induction false} ExactlyOneLeader(pods: seq<Pod>, replies: seq<Option<seq<Server>>>, replicas: int,
                                            l: nat, leader: string)
    requires |pods| == |replies| && ClusterHealthy(replies, replicas) && DistinctNames(pods) && replicas >= 1
    requires forall s :: s in AllServers(replies) ==> s.leader == leader && leader != ""
    requires l < |pods| && LeaderPod(leader) == pods[l].name
    ensures forall i :: 0 <= i < |pods| ==> (ConditionsOf(pods, replies)[i].kind == "leader" <==> i == l)
  {
    forall i | 0 <= i < |pods|
      ensures ConditionsOf(pods, replies)[i].kind == "leader" <==> i == l
    {
      LeaderKnownFrom(replies, replicas, leader, i);
      assert ConditionsOf(pods, replies)[i] == ConditionOf(pods[i], leader);
    }
  }

  lemma LeaderKnownFrom(replies: seq<Option<seq<Server>>>, replicas: int, leader: string, i: nat)
    requires ClusterHealthy(replies, replicas) && replicas >= 1 && i < |replies|
    requires forall s :: s in AllServers(replies) ==> s.leader == leader && leader != ""
    ensures KnownLeader(AllServers(replies[..i + 1])) == leader
  {
    var seen := AllServers(replies[..i + 1]);
    AllServersPrefix(replies, i + 1);
    var more :| AllServers(replies) == seen + more;
    assert replies[..i + 1][i] == replies[i] && Complete(replies[i], replicas);
    assert seen != [];
    AgreePrefix(seen, more);
    KnownLeaderMeaning(seen);
    assert AllServers(replies)[|seen| - 1] == seen[|seen| - 1];
    assert AllServers(replies)[0] == seen[0];
  }
}
