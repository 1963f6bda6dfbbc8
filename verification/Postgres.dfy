/** pkg/service/operator/PGClient.go: rotating the admin password by direct statements on two tables. */
module Postgres {
  import opened Strings
  import opened Api
  import opened StatefulSets

  // ----- Tables -----

  datatype UserRow = UserRow(username: string, password: string, enabled: bool)

  datatype RoleRow = RoleRow(username: string, role: string)

  datatype Tables = Tables(users: seq<UserRow>, roles: seq<RoleRow>)

  const ROLE_ADMIN := "ROLE_ADMIN"

  /** UPDATE "users" SET "password"=hash, "enabled"=TRUE WHERE "username"=user */
  function UpdateUsers(users: seq<UserRow>, user: string, hash: string): (r: seq<UserRow>)
    ensures |r| == |users|
    ensures forall i :: 0 <= i < |users| ==>
      r[i] == if users[i].username == user then UserRow(user, hash, true) else users[i]
  {
    seq(|users|, i requires 0 <= i < |users| =>
      if users[i].username == user then UserRow(user, hash, true) else users[i])
  }

  predicate HasUser(users: seq<UserRow>, user: string) {
    exists i :: 0 <= i < |users| && users[i].username == user
  }

  /** The rows after the first `done` statements of the rotation; the insert runs only when no row was updated. */
  function AfterStatements(done: nat, t: Tables, user: string, hash: string): Tables {
    if done == 0 then t
    else
      var updated := UpdateUsers(t.users, user, hash);
      if done == 1 then t.(users := updated)
      else
        var upserted := if HasUser(t.users, user) then updated else updated + [UserRow(user, hash, true)];
        if done == 2 then t.(users := upserted)
        else
          var admin := RoleRow(user, ROLE_ADMIN);
          Tables(upserted, if admin in t.roles then t.roles else t.roles + [admin])
  }

  function Rotated(t: Tables, user: string, hash: string): Tables {
    AfterStatements(3, t, user, hash)
  }

  /** Attempts cut off after the given numbers of statements, one after another. */
  function AfterAttempts(cuts: seq<nat>, t: Tables, user: string, hash: string): Tables {
    if cuts == [] then t
    else AfterStatements(cuts[|cuts| - 1], AfterAttempts(cuts[..|cuts| - 1], t, user, hash), user, hash)
  }

  lemma UpdateTwice(users: seq<UserRow>, user: string, hash: string)
    ensures UpdateUsers(UpdateUsers(users, user, hash), user, hash) == UpdateUsers(users, user, hash)
    ensures HasUser(UpdateUsers(users, user, hash), user) <==> HasUser(users, user)
  {
    var updated := UpdateUsers(users, user, hash);
    assert forall i :: 0 <= i < |users| ==> (updated[i].username == user <==> users[i].username == user);
  }

  lemma UpsertAgain(users: seq<UserRow>, user: string, hash: string)
    ensures var row := UserRow(user, hash, true);
      var upserted := UpdateUsers(users, user, hash) + [row];
      HasUser(upserted, user) && UpdateUsers(upserted, user, hash) == upserted
  {
    var upserted := UpdateUsers(users, user, hash) + [UserRow(user, hash, true)];
    assert upserted[|users|].username == user;
  }

  lemma CutThenComplete(done: nat, t: Tables, user: string, hash: string)
    ensures Rotated(AfterStatements(done, t, user, hash), user, hash) == Rotated(t, user, hash)
  {
    UpdateTwice(t.users, user, hash);
    UpsertAgain(t.users, user, hash);
  }

  /**
   Retry converges: however often and wherever earlier attempts were cut off, the first attempt that completes
   leaves the tables one uninterrupted attempt would have left.
   */
  lemma {:induction false} RetryConverges(cuts: seq<nat>, t: Tables, user: string, hash: string)
    ensures Rotated(AfterAttempts(cuts, t, user, hash), user, hash) == Rotated(t, user, hash)
  {
    if cuts != [] {
      var front := cuts[..|cuts| - 1];
      RetryConverges(front, t, user, hash);
      CutThenComplete(cuts[|cuts| - 1], AfterAttempts(front, t, user, hash), user, hash);
    }
  }

  /** What an attempt that was cut off leaves: the role only after the user's row, and new rows of no one else. */
  lemma CutOffMeaning(done: nat, t: Tables, user: string, hash: string)
    ensures var r := AfterStatements(done, t, user, hash);
      && (done == 0 ==> r == t)
      && (done <= 2 ==> r.roles == t.roles)
      && (done >= 1 ==> forall row :: row in r.users && row.username == user ==> row == UserRow(user, hash, true))
      && (done == 1 ==> |r.users| == |t.users|)
      && (done >= 2 ==> HasUser(r.users, user))
      && (done >= 3 ==> RoleRow(user, ROLE_ADMIN) in r.roles)
  {
    UpdateTwice(t.users, user, hash);
    UpsertAgain(t.users, user, hash);
  }

  function OtherUsers(users: seq<UserRow>, user: string): seq<UserRow> {
    if users == [] then []
    else OtherUsers(users[..|users| - 1], user)
         + if users[|users| - 1].username == user then [] else [users[|users| - 1]]
  }

  lemma {:induction false} UpdateKeepsOthers(users: seq<UserRow>, user: string, hash: string)
    ensures OtherUsers(UpdateUsers(users, user, hash), user) == OtherUsers(users, user)
  {
    if users != [] {
      var front := users[..|users| - 1];
      UpdateKeepsOthers(front, user, hash);
      assert UpdateUsers(users, user, hash)[..|users| - 1] == UpdateUsers(front, user, hash);
    }
  }

  /** No two rows share the key; the init script adds both constraints. */
  predicate Keyed(t: Tables) {
    && (forall i, j :: 0 <= i < j < |t.users| ==> t.users[i].username != t.users[j].username)
    && forall i, j :: 0 <= i < j < |t.roles| ==> t.roles[i] != t.roles[j]
  }

  /**
   A completed rotation: every row of the admin carries the hash and is enabled, there is one, and just one
   where the keys hold; all other users are as before; roles gain the admin role if it was missing.
   */
  lemma RotationMeaning(t: Tables, user: string, hash: string)
    ensures var r := Rotated(t, user, hash);
      && (forall row :: row in r.users && row.username == user ==> row == UserRow(user, hash, true))
      && HasUser(r.users, user)
      && OtherUsers(r.users, user) == OtherUsers(t.users, user)
      && RoleRow(user, ROLE_ADMIN) in r.roles
      && t.roles <= r.roles && (forall row :: row in r.roles ==> row in t.roles || row == RoleRow(user, ROLE_ADMIN))
      && (Keyed(t) ==> Keyed(r))
  {
    UpsertMeaning(t.users, user, hash);
    UpsertKeepsOthers(t.users, user, hash);
    RolesGain(t, user, hash);
  }

  lemma UpsertKeepsOthers(users: seq<UserRow>, user: string, hash: string)
    ensures OtherUsers(Upserted(users, user, hash), user) == OtherUsers(users, user)
  {
    UpdateKeepsOthers(users, user, hash);
    var updated, row := UpdateUsers(users, user, hash), UserRow(user, hash, true);
    assert (updated + [row])[..|updated|] == updated;
  }

  lemma RolesGain(t: Tables, user: string, hash: string)
    ensures var r, admin := Rotated(t, user, hash), RoleRow(user, ROLE_ADMIN);
      && r.users == Upserted(t.users, user, hash) && t.roles <= r.roles && admin in r.roles
      && (forall row :: row in r.roles ==> row in t.roles || row == admin)
      && ((forall i, j :: 0 <= i < j < |t.roles| ==> t.roles[i] != t.roles[j]) ==>
            forall i, j :: 0 <= i < j < |r.roles| ==> r.roles[i] != r.roles[j])
  {
  }

  /** The users table after a rotation. */
  function Upserted(users: seq<UserRow>, user: string, hash: string): seq<UserRow> {
    Rotated(Tables(users, []), user, hash).users
  }

  lemma UpsertMeaning(users: seq<UserRow>, user: string, hash: string)
    ensures forall row :: row in Upserted(users, user, hash) && row.username == user ==>
      row == UserRow(user, hash, true)
    ensures HasUser(Upserted(users, user, hash), user)
    ensures (forall i, j :: 0 <= i < j < |users| ==> users[i].username != users[j].username) ==>
      forall i, j :: 0 <= i < j < |Upserted(users, user, hash)| ==>
        Upserted(users, user, hash)[i].username != Upserted(users, user, hash)[j].username
  {
    UpdateTwice(users, user, hash);
    UpsertAgain(users, user, hash);
  }

  // ----- Deciding whether to rotate -----

  /** The admin secret as read: its content, resource version and the digest of its content. */
  datatype Secret = Secret(username: string, passwordHash: string, resourceVersion: string, checksum: string)

  function ShouldSkip(specChecksum: string, admin: AdminStatus, secret: Secret): bool {
    if specChecksum != "" then specChecksum == admin.lastSecretChecksum
    else
      && (admin.lastSecretResourceVersion == secret.resourceVersion || admin.lastSecretChecksum == secret.checksum)
      && admin.lastResult == "Success"
  }

  /**
   When a secret is rotated in: with a checksum in the spec, if it is not the recorded one; without, if both the
   resource version and the checksum changed since they were recorded, or no success was recorded.
   */
  lemma RotatesExactly(specChecksum: string, admin: AdminStatus, secret: Secret)
    ensures specChecksum != "" ==>
      (!ShouldSkip(specChecksum, admin, secret) <==> specChecksum != admin.lastSecretChecksum)
    ensures specChecksum == "" ==>
      (!ShouldSkip(specChecksum, admin, secret) <==>
         || admin.lastResult != "Success"
         || (secret.resourceVersion != admin.lastSecretResourceVersion && secret.checksum != admin.lastSecretChecksum))
  {
  }

  /** After one secret was rotated in, the next is exactly if what the spec or the secret says of it differs. */
  lemma NextSecretIsRotated(before: string, first: Secret, now: int, specChecksum: string, next: Secret)
    ensures var recorded := Recorded(before, first, now);
      && recorded.lastRotateTime == now && recorded.lastResult == "Success"
      && (specChecksum == "" && before == "" ==>
            (!ShouldSkip(specChecksum, recorded, next) <==>
               next.resourceVersion != first.resourceVersion && next.checksum != first.checksum))
      && (specChecksum != "" && before != "" ==>
            (!ShouldSkip(specChecksum, recorded, next) <==> specChecksum != before))
      && (specChecksum != "" && before == "" ==>
            (!ShouldSkip(specChecksum, recorded, next) <==> specChecksum != first.checksum))
      && (specChecksum == "" && before != "" ==>
            (!ShouldSkip(specChecksum, recorded, next) <==>
               next.resourceVersion != first.resourceVersion && next.checksum != before))
  {
  }

  /** No secret is configured, or its content was already rotated in. */
  predicate Skips(spec: NacosSpec, admin: AdminStatus, secret: Result<Secret>) {
    spec.adminSecretName == "" || (secret.Ok? && ShouldSkip(spec.adminSecretChecksum, admin, secret.value))
  }

  /** No fault stops the rotation; the row is only inserted if there was none to update. */
  predicate GoesThrough(before: Tables, secret: Result<Secret>, connection: Option<Failure>,
                        updateFault: WriteFault, insertFault: WriteFault, roleFault: WriteFault) {
    && secret.Ok? && connection.None? && updateFault == Fine && roleFault == Fine
    && (HasUser(before.users, secret.value.username) || insertFault == Fine)
  }

  /** What the panic carries: the failure to read the secret or to connect, or else a system error of a statement. */
  predicate IsCause(f: Failure, secret: Result<Secret>, connection: Option<Failure>) {
    if secret.Panic? then f == secret.failure
    else if connection.Some? then f == connection.value
    else f.Coded? && f.code == CODE_ERR_SYSTEM
  }

  /** What an attempt that did not complete leaves: some prefix of the statements. */
  ghost predicate IsCutOff(t: Tables, before: Tables, secret: Secret) {
    exists done: nat :: done <= 3 && t == AfterStatements(done, before, secret.username, secret.passwordHash)
  }

  function Recorded(specChecksum: string, secret: Secret, now: int): AdminStatus {
    AdminStatus(now, "Success", secret.resourceVersion, if specChecksum != "" then specChecksum else secret.checksum)
  }

  /** With the recorded status the same inputs are not rotated again. */
  lemma RecordedIsSkipped(specChecksum: string, secret: Secret, now: int)
    ensures ShouldSkip(specChecksum, Recorded(specChecksum, secret, now), secret)
  {
  }

  // ----- The client -----

  /** The tables in the database. Each statement takes a fault saying whether it went through and was heard of. */
  class Database {
    var tables: Tables
    /** How many statements that write were sent. */
    var writes: nat

    constructor (tables: Tables)
      ensures this.tables == tables && writes == 0
    {
      this.tables, writes := tables, 0;
    }

    method SetTables(next: Tables, fault: WriteFault) returns (ok: bool)
      modifies this
      ensures tables == (if fault == Lost then old(tables) else next)
      ensures writes == old(writes) + 1
      ensures ok <==> fault == Fine
    {
      writes := writes + 1;
      if fault != Lost {
        tables := next;
      }
      ok := fault == Fine;
    }

    method UpdateOrInsert(user: string, hash: string, updateFault: WriteFault, insertFault: WriteFault)
      returns (r: Result<()>)
      modifies this
      ensures r.Ok? <==> updateFault == Fine && (HasUser(old(tables.users), user) || insertFault == Fine)
      ensures r.Ok? ==> tables == AfterStatements(2, old(tables), user, hash)
      ensures r.Panic? ==>
        && r.failure.Coded? && r.failure.code == CODE_ERR_SYSTEM
        && (exists done: nat :: done <= 2 && tables == AfterStatements(done, old(tables), user, hash))
    {
      var affected := HasUser(tables.users, user);
      assert tables == AfterStatements(0, tables, user, hash);
      var ok := SetTables(tables.(users := UpdateUsers(tables.users, user, hash)), updateFault);
      assert updateFault != Lost ==> tables == AfterStatements(1, old(tables), user, hash);
      if !ok {
        return Panic(Coded(CODE_ERR_SYSTEM, "update users failed"));
      }
      if !affected {
        ok := SetTables(tables.(users := tables.users + [UserRow(user, hash, true)]), insertFault);
        assert insertFault != Lost ==> tables == AfterStatements(2, old(tables), user, hash);
        if !ok {
          return Panic(Coded(CODE_ERR_SYSTEM, "insert users failed"));
        }
      }
      r := Ok(());
    }

    /** The user's row, then the role. */
    method WriteAdmin(user: string, hash: string, updateFault: WriteFault, insertFault: WriteFault,
                      roleFault: WriteFault)
      returns (r: Result<()>)
      modifies this
      ensures r.Ok? <==>
        updateFault == Fine && (HasUser(old(tables.users), user) || insertFault == Fine) && roleFault == Fine
      ensures r.Ok? ==> tables == Rotated(old(tables), user, hash)
      ensures r.Panic? ==>
        && r.failure.Coded? && r.failure.code == CODE_ERR_SYSTEM
        && (exists done: nat :: done <= 3 && tables == AfterStatements(done, old(tables), user, hash))
    {
      r := UpdateOrInsert(user, hash, updateFault, insertFault);
      if r.Panic? {
        return;
      }
      var row := RoleRow(user, ROLE_ADMIN);
      var ok := SetTables(
        tables.(roles := if row in tables.roles then tables.roles else tables.roles + [row]), roleFault);
      assert tables == AfterStatements(if roleFault == Lost then 2 else 3, old(tables), user, hash);
      if !ok {
        return Panic(Coded(CODE_ERR_SYSTEM, "ensure role failed"));
      }
    }

    /**
     secret is the content of the admin secret or the panic with which reading it ends; connection is the panic, if
     any, of the steps from the database credentials up to the first write. Ok(true) is a completed rotation, recorded
     in the status in memory; Ok(false) has sent nothing; a panic leaves some prefix of the statements done and the
     status as it was.
     */
    method RotateAdminPassword(nacos: Nacos, secret: Result<Secret>, connection: Option<Failure>,
                               updateFault: WriteFault, insertFault: WriteFault, roleFault: WriteFault, now: int)
      returns (r: Result<bool>)
      modifies this, nacos`status
      ensures Skips(nacos.spec, old(nacos.status.admin), secret) ==>
        r == Ok(false) && writes == old(writes) && tables == old(tables) && nacos.status == old(nacos.status)
      ensures !Skips(nacos.spec, old(nacos.status.admin), secret) && r.Ok? ==>
        && r.value && secret.Ok?
        && tables == Rotated(old(tables), secret.value.username, secret.value.passwordHash)
        && nacos.status == old(nacos.status).(admin := Recorded(nacos.spec.adminSecretChecksum, secret.value, now))
      ensures r.Ok? <==>
        || Skips(nacos.spec, old(nacos.status.admin), secret)
        || GoesThrough(old(tables), secret, connection, updateFault, insertFault, roleFault)
      ensures r.Panic? ==>
        && IsCause(r.failure, secret, connection)
        && nacos.status == old(nacos.status)
        && (secret.Panic? || connection.Some? ==> tables == old(tables) && writes == old(writes))
        && (secret.Ok? ==> IsCutOff(tables, old(tables), secret.value))
    {
      if nacos.spec.adminSecretName == "" {
        return Ok(false);
      }
      if secret.Panic? {
        return Panic(secret.failure);
      }
      var Secret(user, hash, rv, checksum) := secret.value;
      var spec, admin := nacos.spec, nacos.status.admin;
      if spec.adminSecretChecksum != "" && spec.adminSecretChecksum == admin.lastSecretChecksum {
        return Ok(false);
      }
      if spec.adminSecretChecksum == "" {
        if admin.lastSecretResourceVersion == rv || admin.lastSecretChecksum == checksum {
          if admin.lastResult == "Success" {
            return Ok(false);
          }
        }
      }
      assert tables == AfterStatements(0, tables, user, hash);
      if connection.Some? {
        return Panic(connection.value);
      }
      var written := WriteAdmin(user, hash, updateFault, insertFault, roleFault);
      if written.Panic? {
        return Panic(written.failure);
      }
      nacos.status := nacos.status.(admin := AdminStatus(now, "Success", rv,
        if spec.adminSecretChecksum != "" then spec.adminSecretChecksum else checksum));
      r := Ok(true);
    }
  }
}
