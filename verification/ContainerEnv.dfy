/** What the main container of a built StatefulSet sees in its environment, after the pod override was merged in. */
module ContainerEnv {
  import opened Strings
  import opened KeyedLists
  import opened ContainerMerge
  import opened StatefulSets
  import opened Api
  import opened Kind
  import opened Builder
  import Servers

  /** The variable a container sees under a name: the last of that name. */
  function Seen(env: seq<EnvVar>, name: string): Option<EnvVar> {
    if env == [] then None
    else
      var last := env[|env| - 1];
      if last.name == name then Some(last) else Seen(env[..|env| - 1], name)
  }

  lemma {:induction false} SeenAppend(a: seq<EnvVar>, b: seq<EnvVar>, name: string)
    ensures Seen(a + b, name) == if Seen(b, name).Some? then Seen(b, name) else Seen(a, name)
  {
    if b == [] {
      assert a + b == a;
    } else {
      SeenAppend(a, b[..|b| - 1], name);
      assert (a + b)[..|a + b| - 1] == a + b[..|b| - 1];
    }
  }

  lemma {:induction false} NotNamed(env: seq<EnvVar>, name: string)
    requires forall i :: 0 <= i < |env| ==> env[i].name != name
    ensures Seen(env, name) == None
  {
    if env != [] {
      NotNamed(env[..|env| - 1], name);
    }
  }

  lemma {:induction false} SeenIsLast(env: seq<EnvVar>, name: string)
    ensures Seen(env, name) == if name in LastWins(env, EnvKey) then Some(LastWins(env, EnvKey)[name]) else None
  {
    if env != [] {
      SeenIsLast(env[..|env| - 1], name);
    }
  }

  // ----- The pod override -----

  /** The variable of this name in the last override container of the main container's name. */
  function OverrideVar(meta: Meta, spec: NacosSpec, name: string): Option<EnvVar> {
    var overrides := LastWins(spec.podContainers, ContainerKey);
    if meta.name in overrides then Seen(overrides[meta.name].env, name) else None
  }

  /** It takes over if it has a value or a source; an empty one leaves what was built. */
  function Overridden(meta: Meta, spec: NacosSpec, name: string, built: Option<EnvVar>): Option<EnvVar> {
    match OverrideVar(meta, spec, name)
    case None => built
    case Some(v) =>
      if built.None? then Some(v)
      else if v.valueFrom.Some? then Some(EnvVar(built.value.name, "", v.valueFrom))
      else if v.value != "" then Some(EnvVar(built.value.name, v.value, None))
      else built
  }

  lemma MergedSeen(a: seq<EnvVar>, b: seq<EnvVar>, name: string)
    ensures Seen(MergedEnvs(a, b), name) ==
      match (Seen(a, name), Seen(b, name))
      case (Some(x), Some(y)) => Some(MergeSingleEnv(x, y))
      case (None, y) => y
      case (x, None) => x
  {
    NamesKeep(a, b);
    MergedMeaning(a, b, EnvKey, MergeSingleEnv);
    SeenIsLast(a, name);
    SeenIsLast(b, name);
    SeenIsLast(MergedEnvs(a, b), name);
  }

  /** The i-th container of a built object is the main one. */
  ghost predicate IsMain(ss: StatefulSet, meta: Meta, spec: NacosSpec, configDigest: string, i: nat) {
    IsDesired(ss, meta, spec, configDigest) && i < |ss.containers| && ss.containers[i].name == meta.name
  }

  lemma MainIsThere(ss: StatefulSet, meta: Meta, spec: NacosSpec, configDigest: string) returns (i: nat)
    requires IsDesired(ss, meta, spec, configDigest)
    ensures IsMain(ss, meta, spec, configDigest, i)
  {
    var main := MainContainer(meta, spec);
    var all := MergedContainers([main], spec.podContainers);
    ContainerNamesKeep([main], spec.podContainers);
    MergedMeaning([main], spec.podContainers, ContainerKey, MergedContainer);
    LastWinsSnoc([], main, ContainerKey);
    assert [] + [main] == [main];
    LastWinsFromList(all, ContainerKey, meta.name);
    LastWinsConsistent(all, ContainerKey);
    i :| 0 <= i < |all| && all[i] == LastWins(all, ContainerKey)[meta.name];
    assert EqualButMounts(ss.containers[i], all[i]);
  }

  /** Its environment is the one built, merged with that of the last override container of its name, if there is one. */
  lemma MainEnv(ss: StatefulSet, meta: Meta, spec: NacosSpec, configDigest: string, i: nat)
    requires IsMain(ss, meta, spec, configDigest, i)
    ensures var main, overrides := MainContainer(meta, spec), LastWins(spec.podContainers, ContainerKey);
      ss.containers[i].env ==
        if meta.name in overrides then MergedEnvs(main.env, overrides[meta.name].env) else main.env
  {
    var main := MainContainer(meta, spec);
    var all := MergedContainers([main], spec.podContainers);
    assert EqualButMounts(ss.containers[i], all[i]);
    ContainerNamesKeep([main], spec.podContainers);
    MergedFrom([main], spec.podContainers, ContainerKey, MergedContainer, all[i]);
    LastWinsSnoc([], main, ContainerKey);
    assert [] + [main] == [main];
  }

  /** What the main container of any built object sees: what was built, unless the override sets it. */
  lemma SeenInMain(ss: StatefulSet, meta: Meta, spec: NacosSpec, configDigest: string, i: nat, name: string)
    requires IsMain(ss, meta, spec, configDigest, i)
    ensures Seen(ss.containers[i].env, name) ==
      Overridden(meta, spec, name, Seen(MainContainer(meta, spec).env, name))
  {
    var main, overrides := MainContainer(meta, spec), LastWins(spec.podContainers, ContainerKey);
    MainEnv(ss, meta, spec, configDigest, i);
    if meta.name in overrides {
      MergedSeen(main.env, overrides[meta.name].env, name);
    }
  }

  /** Exactly then the container sees something else than was built: a value or a source that differs is set. */
  lemma OverriddenExactly(meta: Meta, spec: NacosSpec, name: string, built: EnvVar)
    ensures Overridden(meta, spec, name, Some(built)) == Some(built) <==>
      match OverrideVar(meta, spec, name)
      case None => true
      case Some(v) =>
        if v.valueFrom.Some? then v.valueFrom == built.valueFrom && built.value == ""
        else v.value == "" || (v.value == built.value && built.valueFrom.None?)
  {
  }

  // ----- What was built -----

  lemma LongNames(spec: NacosSpec)
    ensures forall i :: 0 <= i < |AuthEnv(spec.certification)| ==> |AuthEnv(spec.certification)[i].name| >= 16
    ensures forall i :: 0 <= i < |DatabaseEnv(spec.database)| ==> |DatabaseEnv(spec.database)[i].name| >= 16
  {
  }

  /** The list of server addresses, which only a cluster gets. */
  function ServersVar(meta: Meta, spec: NacosSpec): seq<EnvVar>
    requires Buildable(spec)
  {
    if spec.kind == TYPE_CLUSTER then ClusterEnv(meta, spec) else []
  }

  lemma SeenInOrder(user: seq<EnvVar>, first: EnvVar, a: seq<EnvVar>, b: seq<EnvVar>, last: EnvVar,
                    servers: seq<EnvVar>, name: string)
    ensures Seen(user + ([first] + a + b + [last]) + servers, name) ==
      if Seen(servers, name).Some? then Seen(servers, name)
      else if last.name == name then Some(last)
      else if Seen(b, name).Some? then Seen(b, name)
      else if Seen(a, name).Some? then Seen(a, name)
      else if first.name == name then Some(first)
      else Seen(user, name)
  {
    SeenAppend(user + ([first] + a + b + [last]), servers, name);
    SeenAppend(user, [first] + a + b + [last], name);
    SeenAppend([first] + a + b, [last], name);
    SeenAppend([first] + a, b, name);
    SeenAppend([first], a, name);
    assert [first][..0] == [] && [last][..0] == [];
  }

  lemma SeenBuilt(meta: Meta, spec: NacosSpec, name: string)
    requires Buildable(spec)
    ensures var auth, db, servers := AuthEnv(spec.certification), DatabaseEnv(spec.database), ServersVar(meta, spec);
      Seen(MainContainer(meta, spec).env, name) ==
        if Seen(servers, name).Some? then Seen(servers, name)
        else if KindVar(spec).name == name then Some(KindVar(spec))
        else if Seen(db, name).Some? then Seen(db, name)
        else if Seen(auth, name).Some? then Seen(auth, name)
        else if ModeVar(spec).name == name then Some(ModeVar(spec))
        else Seen(spec.env, name)
  {
    SeenInOrder(spec.env, ModeVar(spec), AuthEnv(spec.certification), DatabaseEnv(spec.database), KindVar(spec),
                ServersVar(meta, spec), name);
  }

  lemma NoServers(meta: Meta, spec: NacosSpec, name: string)
    requires Buildable(spec) && name != "NACOS_SERVERS"
    ensures Seen(ServersVar(meta, spec), name) == None
  {
    NotNamed(ServersVar(meta, spec), name);
  }

  // ----- What the main container sees -----

  /** A cluster sees its replicas and a single node its mode, whatever the user lists, unless the override sets them. */
  lemma KindMeaning(ss: StatefulSet, meta: Meta, spec: NacosSpec, configDigest: string, i: nat)
    requires IsMain(ss, meta, spec, configDigest, i)
    ensures var env := ss.containers[i].env;
      && Seen(env, "MODE") ==
           Overridden(meta, spec, "MODE",
                      if spec.kind == TYPE_STAND_ALONE then Some(Literal("MODE", "standalone"))
                      else Seen(spec.env, "MODE"))
      && Seen(env, "NACOS_REPLICAS") ==
           Overridden(meta, spec, "NACOS_REPLICAS",
                      if spec.kind == TYPE_STAND_ALONE then Seen(spec.env, "NACOS_REPLICAS")
                      else Some(Literal("NACOS_REPLICAS", Itoa(spec.replicas))))
  {
    LongNames(spec);
    BuiltShort(meta, spec, "MODE");
    BuiltShort(meta, spec, "NACOS_REPLICAS");
    SeenInMain(ss, meta, spec, configDigest, i, "MODE");
    SeenInMain(ss, meta, spec, configDigest, i, "NACOS_REPLICAS");
  }

  /** Names shorter than those of authentication and database are set first and last only. */
  lemma BuiltShort(meta: Meta, spec: NacosSpec, name: string)
    requires Buildable(spec) && |name| < 16 && name != "NACOS_SERVERS"
    ensures Seen(MainContainer(meta, spec).env, name) ==
      if KindVar(spec).name == name then Some(KindVar(spec))
      else if ModeVar(spec).name == name then Some(ModeVar(spec))
      else Seen(spec.env, name)
  {
    ShortUnseen(spec, name);
    NoServers(meta, spec, name);
    SeenBuilt(meta, spec, name);
  }

  lemma ShortUnseen(spec: NacosSpec, name: string)
    requires |name| < 16
    ensures Seen(AuthEnv(spec.certification), name) == None && Seen(DatabaseEnv(spec.database), name) == None
  {
    LongNames(spec);
    NotNamed(AuthEnv(spec.certification), name);
    NotNamed(DatabaseEnv(spec.database), name);
  }

  /** A function mode is seen if one is given, and else the host mode is, unless the override sets them. */
  lemma ModeMeaning(ss: StatefulSet, meta: Meta, spec: NacosSpec, configDigest: string, i: nat)
    requires IsMain(ss, meta, spec, configDigest, i)
    ensures
      var env, given := ss.containers[i].env, spec.functionMode == "naming" || spec.functionMode == "config";
      && Seen(env, "FUNCTION_MODE") ==
           Overridden(meta, spec, "FUNCTION_MODE",
                      if given then Some(Literal("FUNCTION_MODE", spec.functionMode))
                      else Seen(spec.env, "FUNCTION_MODE"))
      && Seen(env, "PREFER_HOST_MODE") ==
           Overridden(meta, spec, "PREFER_HOST_MODE",
                      if given then Seen(spec.env, "PREFER_HOST_MODE")
                      else Some(Literal("PREFER_HOST_MODE", "hostname")))
  {
    assert "FUNCTION_MODE"[0] != "NACOS_SERVERS"[0];
    BuiltShort(meta, spec, "FUNCTION_MODE");
    BuiltHostMode(meta, spec);
    SeenInMain(ss, meta, spec, configDigest, i, "FUNCTION_MODE");
    SeenInMain(ss, meta, spec, configDigest, i, "PREFER_HOST_MODE");
  }

  lemma BuiltHostMode(meta: Meta, spec: NacosSpec)
    requires Buildable(spec)
    ensures Seen(MainContainer(meta, spec).env, "PREFER_HOST_MODE") ==
      if spec.functionMode == "naming" || spec.functionMode == "config" then Seen(spec.env, "PREFER_HOST_MODE")
      else Some(Literal("PREFER_HOST_MODE", "hostname"))
  {
    var name := "PREFER_HOST_MODE";
    assert name[0] != "NACOS_AUTH_TOKEN"[0] && name[0] != "EMBEDDED_STORAGE"[0];
    NotNamed(AuthEnv(spec.certification), name);
    NotNamed(DatabaseEnv(spec.database), name);
    NoServers(meta, spec, name);
    SeenBuilt(meta, spec, name);
  }

  /** The configured token is seen where authentication is on, unless the override sets one. */
  lemma AuthMeaning(ss: StatefulSet, meta: Meta, spec: NacosSpec, configDigest: string, i: nat)
    requires IsMain(ss, meta, spec, configDigest, i)
    ensures Seen(ss.containers[i].env, "NACOS_AUTH_TOKEN") ==
      Overridden(meta, spec, "NACOS_AUTH_TOKEN",
                 if spec.certification.enabled then Some(Literal("NACOS_AUTH_TOKEN", spec.certification.token))
                 else Seen(spec.env, "NACOS_AUTH_TOKEN"))
  {
    BuiltToken(meta, spec);
    SeenInMain(ss, meta, spec, configDigest, i, "NACOS_AUTH_TOKEN");
  }

  lemma BuiltToken(meta: Meta, spec: NacosSpec)
    requires Buildable(spec)
    ensures Seen(MainContainer(meta, spec).env, "NACOS_AUTH_TOKEN") ==
      if spec.certification.enabled then Some(Literal("NACOS_AUTH_TOKEN", spec.certification.token))
      else Seen(spec.env, "NACOS_AUTH_TOKEN")
  {
    var name, auth := "NACOS_AUTH_TOKEN", AuthEnv(spec.certification);
    assert name[0] != "EMBEDDED_STORAGE"[0] && name[0] != "PREFER_HOST_MODE"[0];
    NotNamed(DatabaseEnv(spec.database), name);
    NoServers(meta, spec, name);
    if !spec.certification.enabled {
      NotNamed(auth, name);
    } else {
      assert auth[..3][2] == Literal(name, spec.certification.token) && |auth[3].name| != |name|;
    }
    SeenBuilt(meta, spec, name);
  }

  /** The platform is seen as MySQL where the database is, unless the override sets it. */
  lemma DatabaseMeaning(ss: StatefulSet, meta: Meta, spec: NacosSpec, configDigest: string, i: nat)
    requires IsMain(ss, meta, spec, configDigest, i)
    ensures Seen(ss.containers[i].env, "SPRING_DATASOURCE_PLATFORM") ==
      Overridden(meta, spec, "SPRING_DATASOURCE_PLATFORM",
                 if spec.database.kind == "mysql" then Some(Literal("SPRING_DATASOURCE_PLATFORM", "mysql"))
                 else Seen(spec.env, "SPRING_DATASOURCE_PLATFORM"))
  {
    BuiltPlatform(meta, spec);
    SeenInMain(ss, meta, spec, configDigest, i, "SPRING_DATASOURCE_PLATFORM");
  }

  lemma BuiltPlatform(meta: Meta, spec: NacosSpec)
    requires Buildable(spec)
    ensures Seen(MainContainer(meta, spec).env, "SPRING_DATASOURCE_PLATFORM") ==
      if spec.database.kind == "mysql" then Some(Literal("SPRING_DATASOURCE_PLATFORM", "mysql"))
      else Seen(spec.env, "SPRING_DATASOURCE_PLATFORM")
  {
    var name, db := "SPRING_DATASOURCE_PLATFORM", DatabaseEnv(spec.database);
    NotNamed(AuthEnv(spec.certification), name);
    NoServers(meta, spec, name);
    if spec.database.kind != "mysql" {
      NotNamed(db, name);
    } else {
      NotNamed(db[1..], name);
      SeenAppend(db[..1], db[1..], name);
      assert db == db[..1] + db[1..];
    }
    SeenBuilt(meta, spec, name);
  }

  /** The variable at k is seen if none after it has its name. */
  lemma {:induction false} SeenAt(env: seq<EnvVar>, k: nat)
    requires k < |env| && forall j :: k < j < |env| ==> env[j].name != env[k].name
    ensures Seen(env, env[k].name) == Some(env[k])
  {
    if k < |env| - 1 {
      SeenAt(env[..|env| - 1], k);
    }
  }

  /** Names longer than those of the operator's other variables come from authentication, database or user. */
  lemma BuiltLong(meta: Meta, spec: NacosSpec, name: string)
    requires Buildable(spec) && |name| > 16
    ensures var auth, db := Seen(AuthEnv(spec.certification), name), Seen(DatabaseEnv(spec.database), name);
      Seen(MainContainer(meta, spec).env, name) ==
        if db.Some? then db else if auth.Some? then auth else Seen(spec.env, name)
  {
    OtherNamesShort(spec);
    NoServers(meta, spec, name);
    SeenBuilt(meta, spec, name);
  }

  lemma OtherNamesShort(spec: NacosSpec)
    ensures |KindVar(spec).name| <= 16 && |ModeVar(spec).name| <= 16
  {
  }

  /** The variables of a MySQL database, by place. */
  lemma MysqlEnv(db: Database, k: nat)
    requires db.kind == "mysql" && k < 6
    ensures |DatabaseEnv(db)| == 6 && |DatabaseEnv(db)[k].name| > 16
    ensures forall j :: k < j < 6 ==> DatabaseEnv(db)[j].name != DatabaseEnv(db)[k].name
  {
    var env := DatabaseEnv(db);
    assert |env[0].name| == 26 && |env[1].name| == 18 && |env[2].name| == 18 && |env[3].name| == 21;
    assert |env[4].name| == 18 && |env[5].name| == 22;
    assert env[1].name[14] == 'H' && env[2].name[14] == 'P' && env[4].name[14] == 'U';
  }

  lemma AuthEnvNames(cert: Certification, k: nat)
    requires cert.enabled && k < 4
    ensures |AuthEnv(cert)| == 4
    ensures forall j :: k < j < 4 ==> AuthEnv(cert)[j].name != AuthEnv(cert)[k].name
  {
    var env := AuthEnv(cert);
    assert |env[0].name| == 17 && |env[1].name| == 31 && |env[2].name| == 16 && |env[3].name| == 23;
  }

  lemma NoAuthStart(cert: Certification, name: string)
    requires name != "" && name[0] != 'N'
    ensures Seen(AuthEnv(cert), name) == None
  {
    NotNamed(AuthEnv(cert), name);
  }

  lemma NoDatabaseStart(db: Database, name: string)
    requires name != "" && name[0] == 'N'
    ensures Seen(DatabaseEnv(db), name) == None
  {
    NotNamed(DatabaseEnv(db), name);
  }

  /** What the main container sees under a name that stands at place k of the variables of a MySQL database. */
  lemma MysqlSeen(ss: StatefulSet, meta: Meta, spec: NacosSpec, configDigest: string, i: nat, k: nat)
    requires IsMain(ss, meta, spec, configDigest, i) && spec.database.kind == "mysql" && k < 6
    ensures |DatabaseEnv(spec.database)| == 6
    ensures var v := DatabaseEnv(spec.database)[k];
      Seen(ss.containers[i].env, v.name) == Overridden(meta, spec, v.name, Some(v))
  {
    BuiltMysql(meta, spec, k);
    SeenInMain(ss, meta, spec, configDigest, i, DatabaseEnv(spec.database)[k].name);
  }

  lemma BuiltMysql(meta: Meta, spec: NacosSpec, k: nat)
    requires Buildable(spec) && spec.database.kind == "mysql" && k < 6
    ensures |DatabaseEnv(spec.database)| == 6
    ensures var v := DatabaseEnv(spec.database)[k]; Seen(MainContainer(meta, spec).env, v.name) == Some(v)
  {
    MysqlEnv(spec.database, k);
    SeenAt(DatabaseEnv(spec.database), k);
    BuiltLong(meta, spec, DatabaseEnv(spec.database)[k].name);
  }

  /** With MySQL the connection data are seen as the resource gives them, unless the override sets them. */
  lemma MysqlMeaning(ss: StatefulSet, meta: Meta, spec: NacosSpec, configDigest: string, i: nat)
    requires IsMain(ss, meta, spec, configDigest, i) && spec.database.kind == "mysql"
    ensures var env, db := ss.containers[i].env, spec.database;
      && Seen(env, "MYSQL_SERVICE_HOST") ==
           Overridden(meta, spec, "MYSQL_SERVICE_HOST", Some(Literal("MYSQL_SERVICE_HOST", db.host)))
      && Seen(env, "MYSQL_SERVICE_PORT") ==
           Overridden(meta, spec, "MYSQL_SERVICE_PORT", Some(Literal("MYSQL_SERVICE_PORT", db.port)))
      && Seen(env, "MYSQL_SERVICE_DB_NAME") ==
           Overridden(meta, spec, "MYSQL_SERVICE_DB_NAME", Some(Literal("MYSQL_SERVICE_DB_NAME", db.db)))
      && Seen(env, "MYSQL_SERVICE_USER") ==
           Overridden(meta, spec, "MYSQL_SERVICE_USER", Some(Literal("MYSQL_SERVICE_USER", db.user)))
      && Seen(env, "MYSQL_SERVICE_PASSWORD") ==
           Overridden(meta, spec, "MYSQL_SERVICE_PASSWORD", Some(Literal("MYSQL_SERVICE_PASSWORD", db.password)))
  {
    MysqlSeen(ss, meta, spec, configDigest, i, 1);
    MysqlSeen(ss, meta, spec, configDigest, i, 2);
    MysqlSeen(ss, meta, spec, configDigest, i, 3);
    MysqlSeen(ss, meta, spec, configDigest, i, 4);
    MysqlSeen(ss, meta, spec, configDigest, i, 5);
  }

  lemma BuiltEmbedded(meta: Meta, spec: NacosSpec)
    requires Buildable(spec)
    ensures Seen(MainContainer(meta, spec).env, "EMBEDDED_STORAGE") ==
      if spec.database.kind == "embedded" then Some(Literal("EMBEDDED_STORAGE", "embedded"))
      else Seen(spec.env, "EMBEDDED_STORAGE")
  {
    var name, db := "EMBEDDED_STORAGE", DatabaseEnv(spec.database);
    assert name[0] == 'E' && "PREFER_HOST_MODE"[0] == 'P' && |KindVar(spec).name| < 16;
    NoAuthStart(spec.certification, name);
    NoServers(meta, spec, name);
    if spec.database.kind == "embedded" {
      SeenAt(db, 0);
    } else {
      NotNamed(db, name);
    }
    SeenBuilt(meta, spec, name);
  }

  /** With the embedded database its storage is, unless the override sets it. */
  lemma EmbeddedMeaning(ss: StatefulSet, meta: Meta, spec: NacosSpec, configDigest: string, i: nat)
    requires IsMain(ss, meta, spec, configDigest, i)
    ensures Seen(ss.containers[i].env, "EMBEDDED_STORAGE") ==
      Overridden(meta, spec, "EMBEDDED_STORAGE",
                 if spec.database.kind == "embedded" then Some(Literal("EMBEDDED_STORAGE", "embedded"))
                 else Seen(spec.env, "EMBEDDED_STORAGE"))
  {
    BuiltEmbedded(meta, spec);
    SeenInMain(ss, meta, spec, configDigest, i, "EMBEDDED_STORAGE");
  }

  lemma AuthSeen(ss: StatefulSet, meta: Meta, spec: NacosSpec, configDigest: string, i: nat, k: nat)
    requires IsMain(ss, meta, spec, configDigest, i) && spec.certification.enabled && k in {0, 1, 3}
    ensures |AuthEnv(spec.certification)| == 4
    ensures var v := AuthEnv(spec.certification)[k];
      Seen(ss.containers[i].env, v.name) == Overridden(meta, spec, v.name, Some(v))
  {
    AuthEnvNames(spec.certification, k);
    var v := AuthEnv(spec.certification)[k];
    SeenAt(AuthEnv(spec.certification), k);
    assert |v.name| > 16 && v.name[0] == 'N';
    NoDatabaseStart(spec.database, v.name);
    BuiltLong(meta, spec, v.name);
    SeenInMain(ss, meta, spec, configDigest, i, v.name);
  }

  /** With authentication on its switch, expiry and caching are seen as given, unless the override sets them. */
  lemma AuthSettings(ss: StatefulSet, meta: Meta, spec: NacosSpec, configDigest: string, i: nat)
    requires IsMain(ss, meta, spec, configDigest, i) && spec.certification.enabled
    ensures var env, cert := ss.containers[i].env, spec.certification;
      && Seen(env, "NACOS_AUTH_ENABLE") ==
           Overridden(meta, spec, "NACOS_AUTH_ENABLE", Some(Literal("NACOS_AUTH_ENABLE", "true")))
      && Seen(env, "NACOS_AUTH_TOKEN_EXPIRE_SECONDS") ==
           Overridden(meta, spec, "NACOS_AUTH_TOKEN_EXPIRE_SECONDS",
                      Some(Literal("NACOS_AUTH_TOKEN_EXPIRE_SECONDS", cert.tokenExpireSeconds)))
      && Seen(env, "NACOS_AUTH_CACHE_ENABLE") ==
           Overridden(meta, spec, "NACOS_AUTH_CACHE_ENABLE",
                      Some(Literal("NACOS_AUTH_CACHE_ENABLE", if cert.cacheEnabled then "true" else "false")))
  {
    AuthSeen(ss, meta, spec, configDigest, i, 0);
    AuthSeen(ss, meta, spec, configDigest, i, 1);
    AuthSeen(ss, meta, spec, configDigest, i, 3);
  }

  /** Without authentication, or MySQL, what the user lists under those names is seen. */
  lemma UserKeeps(ss: StatefulSet, meta: Meta, spec: NacosSpec, configDigest: string, i: nat, name: string)
    requires IsMain(ss, meta, spec, configDigest, i) && |name| > 16
    requires !spec.certification.enabled && spec.database.kind != "mysql"
    ensures Seen(ss.containers[i].env, name) == Overridden(meta, spec, name, Seen(spec.env, name))
  {
    NotNamed(AuthEnv(spec.certification), name);
    NotNamed(DatabaseEnv(spec.database), name);
    BuiltLong(meta, spec, name);
    SeenInMain(ss, meta, spec, configDigest, i, name);
  }

  /** A cluster sees its server list, whatever the user lists, unless the override sets one. */
  lemma ServersMeaning(ss: StatefulSet, meta: Meta, spec: NacosSpec, configDigest: string, i: nat)
    requires IsMain(ss, meta, spec, configDigest, i) && spec.kind == TYPE_CLUSTER
    ensures var addresses := Servers.Addresses(meta.name, meta.namespace, Domain(spec.env), spec.replicas);
      Seen(ss.containers[i].env, "NACOS_SERVERS") ==
        Overridden(meta, spec, "NACOS_SERVERS", Some(Literal("NACOS_SERVERS", Join(addresses, ' '))))
  {
    SeenBuilt(meta, spec, "NACOS_SERVERS");
    SeenInMain(ss, meta, spec, configDigest, i, "NACOS_SERVERS");
  }
}
