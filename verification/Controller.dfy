/** JiraReconciler.Reconcile of controllers/jira_controller.go, statement by statement, against a cluster
    whose calls may fail and which may change before every call. */
module Controller {
  import opened Api
  import opened Builders
  import opened Plan
  import opened Machine
  import opened Client
  import opened Observations
  import opened Passwords
  import opened Ideal
  import opened Panics
  import opened Layout
  import opened Schedule
  import Frame
  import CleanPass
  import Safety
  import Refinement
  import Template

  /** What Reconcile returns: a requeue delay in seconds and whether there is an error; or it panics. */
  datatype Result = Result(after: nat, err: bool) | Panic

  function ExitOf(r: Result): Exit
  {
    match r
    case Result(after, err) => Returned(after, err)
    case Panic => Panicked
  }

  const NO_PASSWORDS := Draw("", "", "")

  class JiraReconciler {
    const client: Cluster
    /** The random numbers, and how many have been used. */
    const stream: nat -> nat
    var drawn: nat

    constructor (client: Cluster, stream: nat -> nat)
      ensures this.client == client && this.stream == stream
    {
      this.client, this.stream, drawn := client, stream, 0;
    }

    /** GetRdsSecret with three new passwords. */
    method NewRdsSecret(jira: Jira, hostname: string, ns: string) returns (secret: Obj, ghost d: Draw)
      modifies this
      ensures secret == GetRdsSecret(jira, hostname, ns, d)
      ensures d == Draw(Password(stream, old(drawn), 26), Password(stream, old(drawn) + 26, 26), Password(stream,
          old(drawn) + 52, 26))
      ensures drawn == old(drawn) + 78
      ensures |d.password| == 26 && |d.appPassword| == 26 && |d.appRoPassword| == 26
      ensures secret.key == Key(Secret, ns, "jira-database-secret") && secret.body.SecretBody?
      ensures secret.body.data ==
              SecretData(
                hostname, "jdbc:postgresql://" + hostname + "/postgres", "jdbc:postgresql://" + hostname + "/jira",
                "postgres", d.password, d.appPassword, d.appRoPassword)
    {
      hide GetRdsSecret, Password;
      var password := GeneratePasswd(26, stream, drawn);
      var appPassword := GeneratePasswd(26, stream, drawn + 26);
      var appRoPassword := GeneratePasswd(26, stream, drawn + 52);
      drawn := drawn + 78;
      d := Draw(password, appPassword, appRoPassword);
      secret := GetRdsSecret(jira, hostname, ns, Draw(password, appPassword, appRoPassword));
      SecretIs(jira, hostname, ns, d);
    }

    /** The running pass has reached position pos with this copy of the resource. */
    ghost predicate Reached(pos: nat, jira: Jira)
      reads client
    {
      && client.Valid()
      && client.model.ctl.Running? && client.model.ctl.pos == pos && client.model.ctl.p.jira == jira
      && client.log.seen == client.model.ctl.p.obs && !client.log.failed
    }

    ghost predicate Ended(r: Result)
      reads client
    {
      client.Valid() && client.model.ctl == Idle(ExitOf(r))
    }

    // ---- lines 63 to 97 ------------------------------------------------------------------

    /** The namespace, the parameter and subnet groups, the secret and the database instance. */
    method CreateDatabase(jira: Jira) returns (done: Option<Result>)
      requires Reached(0, jira)
      modifies this, client`w, client`tick, client`events, client`model, client`log
      ensures if done.Some? then Ended(done.value) else Reached(5, jira)
      ensures done ==
              if client.log.failed then Some(Result(if client.log.latest == Some(Create(Rds)) then 0 else 60, true))
              else None
    {
      hide At, Prog, Cluster.Valid, Cluster.Met, Cluster.Luck, Creates, Build, GetNamespace, GetDbParameterGroup,
          GetDbSubnetGroup;
      DatabaseAt(jira.spec);
      DatabaseBuilds();
      var namespace := GetNamespace(jira);
      var err := client.Create(namespace, NamespaceItem, NO_PASSWORDS);
      if err != Nil && err != AlreadyExists {
        return Some(Result(60, true));
      }
      var dbParameterGroup := GetDbParameterGroup(jira);
      err := client.Create(dbParameterGroup, ParameterGroupItem, NO_PASSWORDS);
      if err != Nil && err != AlreadyExists {
        return Some(Result(60, true));
      }
      var dbSubnetGroup := GetDbSubnetGroup(jira);
      err := client.Create(dbSubnetGroup, SubnetGroupItem, NO_PASSWORDS);
      if err != Nil && err != AlreadyExists {
        return Some(Result(60, true));
      }
      done := CreateInstance(jira);
    }

    /** The secret with its first passwords, and the instance. */
    method CreateInstance(jira: Jira) returns (done: Option<Result>)
      requires Reached(3, jira)
      modifies this, client`w, client`tick, client`events, client`model, client`log
      ensures if done.Some? then Ended(done.value) else Reached(5, jira)
      ensures done ==
              if client.log.failed then Some(Result(if client.log.latest == Some(Create(Rds)) then 0 else 60, true))
              else None
    {
      hide At, Prog, Cluster.Valid, Cluster.Met, Cluster.Luck, Creates;
      hide Build, GetDbParameterGroup, GetDbSubnetGroup, GetRdsSecret, GetRdsInstance;
      DatabaseAt(jira.spec);
      DatabaseBuilds();
      var dbParameterGroup, dbSubnetGroup := GetDbParameterGroup(jira), GetDbSubnetGroup(jira);
      var rdsSecret, d := NewRdsSecret(jira, "replaceme", jira.name);
      var err := client.Create(rdsSecret, DbSecret, d);
      if err != Nil && err != AlreadyExists {
        return Some(Result(60, true));
      }
      var rdsInstance := GetRdsInstance(jira, dbSubnetGroup, dbParameterGroup, jira.name);
      err := client.Create(rdsInstance, Rds, NO_PASSWORDS);
      if err != Nil && err != AlreadyExists {
        return Some(Result(0, true));
      }
      return None;
    }

    // ---- lines 99 to 135 -----------------------------------------------------------------

    /** Read the database's status, and record it when it differs. */
    method RecordDatabase(jira0: Jira) returns (done: Option<Result>, jira: Jira, rdsStatus: string)
      requires Reached(5, jira0)
      modifies client`w, client`tick, client`events, client`model, client`log
      ensures if done.Some? then Ended(done.value) else Reached(7, jira) && Same(jira, jira0)
      ensures done == if client.log.failed then Some(Result(5, true)) else None
      ensures done.None? ==> client.log.Saw(RdsStatus) == Some(Text(rdsStatus)) && jira.status.rdsStatus == rdsStatus
      ensures done.None? ==> client.tick == old(client.tick) + if jira0.status.rdsStatus == rdsStatus then 1 else 2
    {
      hide At, Prog, Cluster.Valid, Cluster.Met, Cluster.Luck, Creates;
      DatabaseAt(jira0.spec);
      jira := jira0;
      var err;
      rdsStatus, err := GetRdsStatus(client, Key(RdsInstance, "", CloudName(jira)));
      if err != Nil {
        return Some(Result(5, true)), jira, "";
      }
      if jira.status.rdsStatus != rdsStatus {
        jira := jira.(status := jira.status.(rdsStatus := rdsStatus));
        err, jira := client.UpdateStatus(jira, RdsStatusField);
        if err != Nil {
          return Some(Result(5, true)), jira, "";
        }
      } else {
        client.Skip(Write(RdsStatusField));
      }
      return None, jira, rdsStatus;
    }

    /** Record the database's status, and wait until it is available and has an endpoint. */
    method AwaitDatabase(jira0: Jira) returns (done: Option<Result>, jira: Jira, rdsHostname: string)
      requires Reached(5, jira0)
      modifies client`w, client`tick, client`events, client`model, client`log
      ensures if done.Some? then Ended(done.value)
              else Reached(10, jira) && Same(jira, jira0) && TextOf(client.model.ctl.p, RdsEndpoint) == rdsHostname
      ensures done ==
              if client.log.failed then Some(Result(5, true))
              else if client.log.Saw(RdsStatus) != Some(Text("available")) then Some(Result(30, false))
              else if client.log.Saw(RdsEndpoint) == Some(Text("")) then Some(Result(10, false))
              else None
      ensures done.None? ==>
                && jira.status.rdsStatus == "available"
                && client.log.Saw(RdsEndpoint) == Some(Text(rdsHostname)) && rdsHostname != ""
      ensures done.None? ==> client.tick == old(client.tick) + if jira0.status.rdsStatus == "available" then 2 else 3
    {
      hide At, Prog, Cluster.Valid, Cluster.Met, Cluster.Luck, Creates;
      DatabaseAt(jira0.spec);
      var rdsStatus;
      rdsHostname := "";
      done, jira, rdsStatus := RecordDatabase(jira0);
      if done.Some? {
        return;
      }
      client.Decide(RdsAvailable);
      if rdsStatus != "available" {
        return Some(Result(30, false)), jira, "";
      }
      var err;
      rdsHostname, err := GetRdsEndpoint(client, Key(RdsInstance, "", CloudName(jira)));
      if err != Nil {
        return Some(Result(5, true)), jira, "";
      }
      client.Decide(EndpointKnown);
      if rdsHostname == "" {
        return Some(Result(10, false)), jira, "";
      }
      return None, jira, rdsHostname;
    }

    // ---- lines 138 to 158 ----------------------------------------------------------------

    /** The secret gets the endpoint and new passwords when it carries another hostname. */
    method SyncHostname(jira: Jira, rdsHostname: string) returns (done: Option<Result>)
      requires Reached(10, jira) && TextOf(client.model.ctl.p, RdsEndpoint) == rdsHostname != ""
      modifies this, client`w, client`tick, client`events, client`model, client`log
      ensures if done.Some? then Ended(done.value)
              else Reached(12, jira) && TextOf(client.model.ctl.p, RdsEndpoint) == rdsHostname
      ensures done == if client.log.failed then Some(Result(5, true)) else None
      ensures var same := client.log.Saw(SecretHost) == Some(Text(rdsHostname));
              && drawn == old(drawn) + (if same then 0 else 78)
              && (done.None? ==> client.tick == old(client.tick) + if same then 1 else 2)
    {
      hide At, Prog, Cluster.Valid, Cluster.Met, Cluster.Luck, Creates, GetRdsSecret, ItemKey, FailAfter;
      DatabaseAt(jira.spec);
      DatabaseNames(jira);
      SecretDelays();
      var rdsHostnameInSecret, err := GetSecretHostname(client, Key(Secret, jira.name, SECRET_NAME));
      if rdsHostnameInSecret != rdsHostname {
        var rdsSecret, d := NewRdsSecret(jira, rdsHostname, jira.name);
        err := client.Update(rdsSecret, SyncSecret, d);
        if err != Nil {
          return Some(Result(5, true));
        }
      } else {
        client.Skip(SyncSecret);
      }
      return None;
    }

    /** Bring the secret and the status in line with the endpoint. */
    method SyncEndpoint(jira0: Jira, rdsHostname: string) returns (done: Option<Result>, jira: Jira)
      requires Reached(10, jira0) && TextOf(client.model.ctl.p, RdsEndpoint) == rdsHostname != ""
      modifies this, client`w, client`tick, client`events, client`model, client`log
      ensures if done.Some? then Ended(done.value) else Reached(ResetAt(jira.spec), jira) && Same(jira, jira0)
      ensures done == if client.log.failed then Some(Result(5, true)) else None
      ensures done.None? ==> jira.status.endpoint == rdsHostname
      ensures drawn == old(drawn) + if client.log.Saw(SecretHost) == Some(Text(rdsHostname)) then 0 else 78
      ensures done.None? ==>
                client.tick == old(client.tick) + 1 + (if client.log.Saw(SecretHost) == Some(Text(rdsHostname)) then 0 else 1)
                               + (if jira0.status.endpoint == rdsHostname then 0 else 1)
    {
      hide At, Prog, Cluster.Valid, Cluster.Met, Cluster.Luck, Creates, FailAfter;
      DatabaseAt(jira0.spec);
      SecretDelays();
      jira := jira0;
      done := SyncHostname(jira, rdsHostname);
      if done.Some? {
        return;
      }
      if jira.status.endpoint != rdsHostname {
        jira := jira.(status := jira.status.(endpoint := rdsHostname));
        var err;
        err, jira := client.UpdateStatus(jira, EndpointField);
        if err != Nil {
          return Some(Result(5, true)), jira;
        }
      } else {
        client.Skip(Write(EndpointField));
      }
      return None, jira;
    }

    // ---- lines 162 to 189 ----------------------------------------------------------------

    /** A restored database does not know the password in the secret; a job resets it. */
    method ResetPassword(jira0: Jira) returns (done: Option<Result>, jira: Jira)
      requires Reached(ResetAt(jira0.spec), jira0)
      modifies client`w, client`tick, client`events, client`model, client`log
      ensures if done.Some? then Ended(done.value) else Reached(LiquibaseAt(jira.spec), jira) && Same(jira, jira0)
      ensures done ==
              if jira0.spec.database.snapshotId == "" then None
              else if client.log.failed && client.log.latest == Some(Create(ResetAccount)) then Some(Result(300, true))
              else if client.log.failed && client.log.latest == Some(Create(ResetJob)) then Some(Result(300, true))
              else if client.log.failed then Some(Result(5, true))
              else if client.log.Number(ResetCount) < 1 then Some(Result(5, false))
              else None
      ensures done.None? && jira.spec.database.snapshotId != "" ==> jira.status.resetJob == "Succeeded"
    {
      hide At, Prog, Cluster.Valid, Cluster.Met, Cluster.Luck, Creates;
      ResetLayout(jira0.spec);
      jira := jira0;
      if jira.spec.database.snapshotId != "" {
        done := CreateResetJob(jira);
        if done.Some? {
          return;
        }
        done, jira := AwaitReset(jira);
        return;
      }
      return None, jira;
    }

    method CreateResetJob(jira: Jira) returns (done: Option<Result>)
      requires Reached(13, jira) && jira.spec.database.snapshotId != ""
      modifies client`w, client`tick, client`events, client`model, client`log
      ensures if done.Some? then Ended(done.value) else Reached(15, jira)
      ensures done ==
              if client.log.failed then Some(Result(300, true))
              else None
      ensures client.log.failed ==>
                || client.log.latest == Some(Create(ResetAccount))
                || client.log.latest == Some(Create(ResetJob))
    {
      hide At, Prog, Cluster.Valid, Cluster.Met, Cluster.Luck, Creates, Build, GetServiceAccount, GetChangeRootPasswordJob;
      ResetLayout(jira.spec);
      ResetBuilds();
      var serviceAccount := GetServiceAccount(jira, jira.name);
      var err := client.Create(serviceAccount, ResetAccount, NO_PASSWORDS);
      if err != Nil && err != AlreadyExists {
        return Some(Result(300, true));
      }
      var changeRootPasswordJob := GetChangeRootPasswordJob(jira, jira.name, CloudName(jira));
      err := client.Create(changeRootPasswordJob, ResetJob, NO_PASSWORDS);
      if err != Nil && err != AlreadyExists {
        return Some(Result(300, true));
      }
      return None;
    }

    method AwaitReset(jira0: Jira) returns (done: Option<Result>, jira: Jira)
      requires Reached(15, jira0) && jira0.spec.database.snapshotId != ""
      modifies client`w, client`tick, client`events, client`model, client`log
      ensures if done.Some? then Ended(done.value) else Reached(LiquibaseAt(jira.spec), jira) && Same(jira, jira0)
      ensures done ==
              if client.log.failed then Some(Result(5, true))
              else if client.log.Number(ResetCount) < 1 then Some(Result(5, false))
              else None
      ensures done.None? ==> jira.status.resetJob == "Succeeded"
      ensures client.log.failed ==>
                || client.log.latest == Some(Read(ResetCount))
                || client.log.latest == Some(Write(ResetField))
      ensures done.None? ==> client.log.latest == Some(Write(ResetField))
    {
      hide At, Prog, Cluster.Valid, Cluster.Met, Cluster.Luck, Creates, GetChangeRootPasswordJob, ItemKey;
      ResetJobKey(jira0);
      ResetLayout(jira0.spec);
      jira := jira0;
      var changeRootPasswordJob := GetChangeRootPasswordJob(jira, jira.name, CloudName(jira));
      var jobSucceededReplicas, err := GetJobSucceededReplicas(client, changeRootPasswordJob.key, ResetCount);
      if err != Nil && err != AlreadyExists {
        return Some(Result(5, true)), jira;
      }
      client.Decide(ResetDone);
      if jobSucceededReplicas < 1 {
        return Some(Result(5, false)), jira;
      }
      jira := jira.(status := jira.status.(resetJob := "Succeeded"));
      err, jira := client.UpdateStatus(jira, ResetField);
      if err != Nil {
        return Some(Result(5, true)), jira;
      }
      return None, jira;
    }

    // ---- lines 191 to 238 ----------------------------------------------------------------

    /** The changelog's config map, and the job that applies it. */
    method RunLiquibase(jira0: Jira) returns (done: Option<Result>, jira: Jira)
      requires Reached(LiquibaseAt(jira0.spec), jira0)
      modifies client`w, client`tick, client`events, client`model, client`log
      ensures if done.Some? then Ended(done.value) else Reached(StorageAt(jira.spec), jira) && Same(jira, jira0)
      ensures done ==
              if client.log.failed && client.log.latest == Some(Read(Changelog)) then Some(Result(600, true))
              else if client.log.failed && client.log.latest == Some(Create(ChangelogMap)) then Some(Result(10, true))
              else if client.log.failed && client.log.latest == Some(Create(LiquibaseJob)) then Some(Result(300, true))
              else if client.log.failed && client.log.latest == Some(Read(LiquibaseCount)) then Some(Result(30, true))
              else if client.log.failed then Some(Result(5, true))
              else if client.log.Number(LiquibaseCount) < 1 then Some(Result(5, false))
              else None
      ensures done.None? ==> jira.status.liquibaseJob == "Succeeded"
    {
      jira := jira0;
      done := CreateChangelog(jira);
      if done.Some? {
        return;
      }
      done, jira := AwaitLiquibase(jira);
    }

    method CreateChangelog(jira: Jira) returns (done: Option<Result>)
      requires Reached(LiquibaseAt(jira.spec), jira)
      modifies client`w, client`tick, client`events, client`model, client`log
      ensures if done.Some? then Ended(done.value) else Reached(LiquibaseAt(jira.spec) + 4, jira)
      ensures done ==
              if client.log.failed && client.log.latest == Some(Read(Changelog)) then Some(Result(600, true))
              else if client.log.failed && client.log.latest == Some(Create(ChangelogMap)) then Some(Result(10, true))
              else if client.log.failed then Some(Result(5, true))
              else None
      ensures client.log.failed ==>
                || client.log.latest == Some(Read(Changelog))
                || client.log.latest == Some(Create(ChangelogMap))
                || client.log.latest == Some(Read(ChangelogData))
                || client.log.latest == Some(SyncChangelog)
    {
      hide At, Prog, Cluster.Valid, Cluster.Met, Cluster.Luck, Creates, LiquibaseAt, StorageAt, Build, FailAfter,
          ItemKey, GetLiquibaseConfigMap;
      LiquibaseDelays();
      LiquibaseKeys(jira);
      LiquibaseLayout(jira.spec);
      ChangelogBuilds();
      var configContent := client.ReadChangelog();
      if configContent.None? {
        return Some(Result(600, true));
      }
      var liquibaseConfigMap := GetLiquibaseConfigMap(jira, jira.name, configContent.value);
      var err := client.Create(liquibaseConfigMap, ChangelogMap, NO_PASSWORDS);
      if err == AlreadyExists {
        done := UpdateChangelog(jira, liquibaseConfigMap);
        return;
      } else if err != Nil {
        return Some(Result(10, true));
      } else {
        client.Skip(Read(ChangelogData));
        client.Skip(SyncChangelog);
      }
      return None;
    }

    /** The config map was there before: bring it in line with the file. */
    method UpdateChangelog(jira: Jira, liquibaseConfigMap: Obj) returns (done: Option<Result>)
      requires Reached(LiquibaseAt(jira.spec) + 2, jira) && client.model.ctl.p.existed
      requires liquibaseConfigMap == GetLiquibaseConfigMap(jira, jira.name, TextOf(client.model.ctl.p, Changelog))
      modifies client`w, client`tick, client`events, client`model, client`log
      ensures if done.Some? then Ended(done.value) else Reached(LiquibaseAt(jira.spec) + 4, jira)
      ensures done == if client.log.failed then Some(Result(5, true)) else None
      ensures client.log.failed ==>
                || client.log.latest == Some(Read(ChangelogData))
                || client.log.latest == Some(SyncChangelog)
      ensures done.None? ==>
                var file := liquibaseConfigMap.body.changelog;
                && client.log.Saw(Changelog) == old(client.log).Saw(Changelog)
                && (client.log.latest == Some(SyncChangelog) <==> client.log.Saw(ChangelogData) != Some(Text(file)))
    {
      hide At, Prog, Cluster.Valid, Cluster.Met, Cluster.Luck, LiquibaseAt, StorageAt, FailAfter, ItemKey,
          GetLiquibaseConfigMap;
      LiquibaseDelays();
      LiquibaseKeys(jira);
      LiquibaseLayout(jira.spec);
      var cmData, err := GetConfigMapData(client, liquibaseConfigMap.key);
      if err != Nil {
        return Some(Result(5, true));
      }
      if cmData != liquibaseConfigMap.body.changelog {
        err := client.Update(liquibaseConfigMap, SyncChangelog, NO_PASSWORDS);
        if err != Nil {
          return Some(Result(5, true));
        }
      } else {
        client.Skip(SyncChangelog);
      }
      return None;
    }

    method AwaitLiquibase(jira0: Jira) returns (done: Option<Result>, jira: Jira)
      requires Reached(LiquibaseAt(jira0.spec) + 4, jira0)
      modifies client`w, client`tick, client`events, client`model, client`log
      ensures if done.Some? then Ended(done.value) else Reached(StorageAt(jira.spec), jira) && Same(jira, jira0)
      ensures done ==
              if client.log.failed && client.log.latest == Some(Create(LiquibaseJob)) then Some(Result(300, true))
              else if client.log.failed && client.log.latest == Some(Read(LiquibaseCount)) then Some(Result(30, true))
              else if client.log.failed then Some(Result(5, true))
              else if client.log.Number(LiquibaseCount) < 1 then Some(Result(5, false))
              else None
      ensures done.None? ==> jira.status.liquibaseJob == "Succeeded"
      ensures client.log.failed ==>
                || client.log.latest == Some(Create(LiquibaseJob))
                || client.log.latest == Some(Read(LiquibaseCount))
                || client.log.latest == Some(Write(LiquibaseField))
      ensures done.None? ==> client.log.latest == Some(Write(LiquibaseField))
    {
      hide At, Prog, Cluster.Valid, Cluster.Met, Cluster.Luck, Creates, LiquibaseAt, StorageAt, Build, FailAfter,
          ItemKey, GetLiquibaseJob;
      LiquibaseDelays();
      LiquibaseKeys(jira0);
      LiquibaseLayout(jira0.spec);
      LiquibaseBuilds();
      jira := jira0;
      var liquibaseJob := GetLiquibaseJob(jira, jira.name);
      var err := client.Create(liquibaseJob, LiquibaseJob, NO_PASSWORDS);
      if err != Nil && err != AlreadyExists {
        return Some(Result(300, true)), jira;
      }
      var liquibaseJobSucceededReplicas;
      liquibaseJobSucceededReplicas, err := GetJobSucceededReplicas(client, liquibaseJob.key, LiquibaseCount);
      if err != Nil {
        return Some(Result(30, true)), jira;
      }
      client.Decide(LiquibaseDone);
      if liquibaseJobSucceededReplicas < 1 {
        return Some(Result(5, false)), jira;
      }
      jira := jira.(status := jira.status.(liquibaseJob := "Succeeded"));
      err, jira := client.UpdateStatus(jira, LiquibaseField);
      if err != Nil {
        return Some(Result(5, true)), jira;
      }
      return None, jira;
    }

    // ---- lines 240 to 331 ----------------------------------------------------------------

    /** The EBS volume. */
    method AttachEbsVolume(jira: Jira) returns (done: Option<Result>, ebsVolumeId: string)
      requires Reached(StorageAt(jira.spec), jira) && BackendOf(jira.spec) == Ebs
      modifies client`w, client`tick, client`events, client`model, client`log
      ensures if done.Some? then Ended(done.value)
              else Reached(StorageAt(jira.spec) + 3, jira) && TextOf(client.model.ctl.p, VolumeId) == ebsVolumeId
      ensures done ==
              if client.log.failed then Some(Result(300, true))
              else if client.log.Saw(VolumeId) == Some(Text("")) then Some(Result(5, false))
              else None
      ensures done.None? ==> client.log.Saw(VolumeId) == Some(Text(ebsVolumeId)) && ebsVolumeId != ""
    {
      hide At, Prog, Cluster.Valid, Cluster.Met, Cluster.Luck, Creates, StorageAt, PublishAt, Build, GetEbsVolume;
      EbsLayout(jira.spec);
      EbsBuilds();
      var ebsVolume := GetEbsVolume(jira);
      var err := client.Create(ebsVolume, Volume, NO_PASSWORDS);
      if err != Nil && err != AlreadyExists {
        return Some(Result(300, true)), "";
      }
      ebsVolumeId, err := GetEbsVolumeId(client, Key(EbsVolume, "", CloudName(jira)));
      if err != Nil {
        return Some(Result(300, true)), "";
      }
      client.Decide(VolumeIdKnown);
      if ebsVolumeId == "" {
        return Some(Result(5, false)), "";
      }
      return None, ebsVolumeId;
    }

    /** The NFS server's volume and claim. */
    method ClaimEbsVolume(jira: Jira, ebsVolumeId: string) returns (done: Option<Result>)
      requires Reached(StorageAt(jira.spec) + 3, jira) && BackendOf(jira.spec) == Ebs
      requires TextOf(client.model.ctl.p, VolumeId) == ebsVolumeId
      modifies client`w, client`tick, client`events, client`model, client`log
      ensures if done.Some? then Ended(done.value)
              else Reached(StorageAt(jira.spec) + 5, jira) && TextOf(client.model.ctl.p, VolumeId) == ebsVolumeId
      ensures done ==
              if client.log.failed then Some(Result(300, true))
              else None
    {
      hide At, Prog, Cluster.Valid, Cluster.Met, Cluster.Luck, Creates, StorageAt, PublishAt, Build,
          GetPersistentVolumeClaim, GetEbsPersistentVolume;
      NfsVolumeName(jira);
      EbsLayout(jira.spec);
      EbsBuilds();
      var nfsPersistentVolume :=
        GetEbsPersistentVolume(jira, ebsVolumeId, NfsName(jira), jira.spec.sharedFs.volumeSize, jira.name);
      var err := client.Create(nfsPersistentVolume, NfsPv, NO_PASSWORDS);
      if err != Nil && err != AlreadyExists {
        return Some(Result(300, true));
      }
      var nfsPersistentVolumeClaim :=
        GetPersistentVolumeClaim(
          jira, NfsName(jira), jira.name, nfsPersistentVolume.key.name, jira.spec.sharedFs.ebs.storageClass,
          jira.spec.sharedFs.volumeSize, ReadWriteOnce);
      err := client.Create(nfsPersistentVolumeClaim, NfsPvc, NO_PASSWORDS);
      if err != Nil && err != AlreadyExists {
        return Some(Result(300, true));
      }
      return None;
    }

    /** The NFS server's service. */
    method ExposeNfsServer(jira: Jira, ghost ebsVolumeId: string) returns (done: Option<Result>, nfsServerIp: string)
      requires Reached(StorageAt(jira.spec) + 5, jira) && BackendOf(jira.spec) == Ebs
      requires TextOf(client.model.ctl.p, VolumeId) == ebsVolumeId
      modifies client`w, client`tick, client`events, client`model, client`log
      ensures if done.Some? then Ended(done.value)
              else && Reached(StorageAt(jira.spec) + 8, jira)
                   && TextOf(client.model.ctl.p, VolumeId) == ebsVolumeId
                   && TextOf(client.model.ctl.p, ServiceIp) == nfsServerIp
      ensures done ==
              if client.log.failed then Some(Result(if client.log.latest == Some(Create(NfsService)) then 300 else 30, true))
              else if client.log.Saw(ServiceIp) == Some(Text("")) then Some(Result(30, false))
              else None
      ensures done.None? ==> client.log.Saw(ServiceIp) == Some(Text(nfsServerIp)) && nfsServerIp != ""
    {
      hide At, Prog, Cluster.Valid, Cluster.Met, Cluster.Luck, Creates, StorageAt, PublishAt, Build, FailAfter, ItemKey;
      NfsDelays();
      NfsNames(jira);
      EbsLayout(jira.spec);
      EbsBuilds();
      var nfsServerService := GetNfsServerService(jira, jira.name);
      var err := client.Create(nfsServerService, NfsService, NO_PASSWORDS);
      if err != Nil && err != AlreadyExists {
        return Some(Result(300, true)), "";
      }
      nfsServerIp, err := GetSvcClusterIp(client, nfsServerService.key);
      if err != Nil {
        return Some(Result(30, true)), "";
      }
      client.Decide(ServiceIpKnown);
      if nfsServerIp == "" {
        return Some(Result(30, false)), "";
      }
      return None, nfsServerIp;
    }

    /** The NFS server itself. */
    method StartNfsServer(jira: Jira, ghost ebsVolumeId: string, ghost nfsServerIp: string) returns (done: Option<Result>)
      requires Reached(StorageAt(jira.spec) + 8, jira) && BackendOf(jira.spec) == Ebs
      requires TextOf(client.model.ctl.p, VolumeId) == ebsVolumeId && TextOf(client.model.ctl.p, ServiceIp) == nfsServerIp
      modifies client`w, client`tick, client`events, client`model, client`log
      ensures if done.Some? then Ended(done.value)
              else && Reached(StorageAt(jira.spec) + 11, jira)
                   && TextOf(client.model.ctl.p, VolumeId) == ebsVolumeId
                   && TextOf(client.model.ctl.p, ServiceIp) == nfsServerIp
      ensures done ==
              if client.log.failed then Some(Result(if client.log.latest == Some(Create(NfsStatefulSet)) then 300 else 60, true))
              else if client.log.Number(ReadyReplicas) < 1 then Some(Result(10, false))
              else None
    {
      hide At, Prog, Cluster.Valid, Cluster.Met, Cluster.Luck, Creates, StorageAt, PublishAt, Build, FailAfter, ItemKey;
      NfsDelays();
      NfsNames(jira);
      EbsLayout(jira.spec);
      EbsBuilds();
      var nfsServerStatefulSet := GetNfsServerStatefulSet(jira, jira.name);
      var err := client.Create(nfsServerStatefulSet, NfsStatefulSet, NO_PASSWORDS);
      if err != Nil && err != AlreadyExists {
        return Some(Result(300, true));
      }
      var nfsReadyReplicas;
      nfsReadyReplicas, err := GetStsReadyReplicas(client, nfsServerStatefulSet.key);
      if err != Nil && err != AlreadyExists {
        return Some(Result(60, true));
      }
      client.Decide(NfsReady);
      if nfsReadyReplicas < 1 {
        return Some(Result(10, false));
      }
      return None;
    }

    /** The shared home on the NFS server. */
    method ShareOverNfs(jira: Jira, ghost ebsVolumeId: string, nfsServerIp: string) returns (done: Option<Result>)
      requires Reached(StorageAt(jira.spec) + 11, jira) && BackendOf(jira.spec) == Ebs
      requires TextOf(client.model.ctl.p, VolumeId) == ebsVolumeId && TextOf(client.model.ctl.p, ServiceIp) == nfsServerIp
      modifies client`w, client`tick, client`events, client`model, client`log
      ensures if done.Some? then Ended(done.value)
              else Reached(StorageAt(jira.spec) + 13, jira) && TextOf(client.model.ctl.p, VolumeId) == ebsVolumeId
      ensures done ==
              if client.log.failed then Some(Result(if client.log.latest == Some(Create(SharedNfsPv)) then 60 else 30, true))
              else None
    {
      hide At, Prog, Cluster.Valid, Cluster.Met, Cluster.Luck, Creates, StorageAt, PublishAt, Build,
          GetPersistentVolumeClaim;
      hide GetNfsPersistentVolume;
      EbsLayout(jira.spec);
      EbsBuilds();
      SharedVolumeNames(jira);
      var jiraSharedHomeNfsPv := GetNfsPersistentVolume(jira, nfsServerIp, jira.spec.sharedFs.volumeSize, jira.name);
      var err := client.Create(jiraSharedHomeNfsPv, SharedNfsPv, NO_PASSWORDS);
      if err != Nil && err != AlreadyExists {
        return Some(Result(60, true));
      }
      var jiraSharedHomePvcNfs :=
        GetPersistentVolumeClaim(
          jira, SHARED_HOME, jira.name, jiraSharedHomeNfsPv.key.name, jira.spec.sharedFs.efs.storageClass,
          jira.spec.sharedFs.volumeSize, ReadWriteMany);
      err := client.Create(jiraSharedHomePvcNfs, SharedNfsPvc, NO_PASSWORDS);
      if err != Nil && err != AlreadyExists {
        return Some(Result(30, true));
      }
      return None;
    }

    method RecordEbsVolume(jira0: Jira, ebsVolumeId: string) returns (done: Option<Result>, jira: Jira)
      requires Reached(StorageAt(jira0.spec) + 13, jira0) && BackendOf(jira0.spec) == Ebs
      requires TextOf(client.model.ctl.p, VolumeId) == ebsVolumeId
      modifies client`w, client`tick, client`events, client`model, client`log
      ensures if done.Some? then Ended(done.value) else Reached(PublishAt(jira.spec), jira) && Same(jira, jira0)
      ensures done ==
              if client.log.failed then Some(Result(5, true))
              else None
      ensures done.None? ==> jira.status.ebsId == ebsVolumeId
      ensures done.None? ==> client.tick == old(client.tick) + if jira0.status.ebsId == ebsVolumeId then 0 else 1
    {
      hide At, Prog, Cluster.Valid, Cluster.Met, Cluster.Luck, Creates, StorageAt, PublishAt;
      EbsLayout(jira0.spec);
      jira := jira0;
      if jira.status.ebsId != ebsVolumeId {
        var err;
        jira := jira.(status := jira.status.(ebsId := ebsVolumeId));
        err, jira := client.UpdateStatus(jira, EbsIdField);
        if err != Nil {
          return Some(Result(5, true)), jira;
        }
      } else {
        client.Skip(Write(EbsIdField));
      }
      return None, jira;
    }

    // ---- lines 332 to 379 ----------------------------------------------------------------

    /** The snapshot, and the claim restored from it. */
    method RestoreFsx(jira: Jira) returns (done: Option<Result>)
      requires Reached(StorageAt(jira.spec), jira) && BackendOf(jira.spec) == Fsx
      modifies client`w, client`tick, client`events, client`model, client`log
      ensures if done.Some? then Ended(done.value) else Reached(StorageAt(jira.spec) + 3, jira)
      ensures done ==
              if client.log.failed then Some(Result(30, true))
              else None
    {
      hide At, Prog, Cluster.Valid, Cluster.Met, Cluster.Luck, Creates, StorageAt, PublishAt, Build,
          GetFsxVolumeSnapshotContent, GetFsxVolumeSnapshot;
      hide GetFsxPersistentVolumeClaimFromSnapshot;
      FsxLayout(jira.spec);
      FsxBuilds();
      var volumeSnapshotContent := GetFsxVolumeSnapshotContent(jira, jira.name);
      var err := client.Create(volumeSnapshotContent, SnapshotContent, NO_PASSWORDS);
      if err != Nil && err != AlreadyExists {
        return Some(Result(30, true));
      }
      var volumeSnapshot := GetFsxVolumeSnapshot(jira, jira.name);
      err := client.Create(volumeSnapshot, Snapshot, NO_PASSWORDS);
      if err != Nil && err != AlreadyExists {
        return Some(Result(30, true));
      }
      var fsxPvc := GetFsxPersistentVolumeClaimFromSnapshot(jira, SHARED_HOME, jira.name, 1);
      err := client.Create(fsxPvc, FsxPvc, NO_PASSWORDS);
      if err != Nil && err != AlreadyExists {
        return Some(Result(30, true));
      }
      return None;
    }

    method AwaitFsxClaim(jira: Jira) returns (done: Option<Result>)
      requires Reached(StorageAt(jira.spec) + 3, jira) && BackendOf(jira.spec) == Fsx
      modifies client`w, client`tick, client`events, client`model, client`log
      ensures if done.Some? then Ended(done.value) else Reached(StorageAt(jira.spec) + 5, jira)
      ensures done ==
              if client.log.failed then Some(Result(30, true))
              else if client.log.Saw(ClaimPhase) != Some(Text("Bound")) then Some(Result(30, false))
              else None
    {
      hide At, Prog, Cluster.Valid, Cluster.Met, Cluster.Luck, Creates, StorageAt, PublishAt;
      FsxLayout(jira.spec);
      var fsxPvcStatus, err := GetPvcStatus(client, Key(PersistentVolumeClaim, jira.name, SHARED_HOME));
      if err != Nil {
        return Some(Result(30, true));
      }
      client.Decide(ClaimBound);
      if fsxPvcStatus != "Bound" {
        return Some(Result(30, false));
      }
      return None;
    }

    /** The handle of the volume that the claim was bound to. */
    method RecordFsxVolume(jira0: Jira) returns (done: Option<Result>, jira: Jira)
      requires Reached(StorageAt(jira0.spec) + 5, jira0) && BackendOf(jira0.spec) == Fsx
      modifies client`w, client`tick, client`events, client`model, client`log
      ensures if done.Some? then Ended(done.value) else Reached(PublishAt(jira.spec), jira) && Same(jira, jira0)
      ensures client.log.failed ==> done == Some(Result(if client.log.latest == Some(Write(FsxIdField)) then 1
          else 30, true))
      ensures !client.log.failed ==> done == None || done == Some(Panic)
      ensures done == None ==> client.log.Saw(VolumeHandle) == Some(Text(jira.status.fsxId))
      ensures done == Some(Panic) ==>
                exists v :: client.log.Saw(ClaimVolume) == Some(Text(v)) && ForeignVolume(client.w, v)
      ensures done == None ==> (client.log.latest == Some(Write(FsxIdField)) <==> jira0.status.fsxId != jira.status.fsxId)
    {
      hide At, Prog, Cluster.Valid, Cluster.Met, Cluster.Luck, Creates, StorageAt, PublishAt;
      FsxLayout(jira0.spec);
      jira := jira0;
      var fsxVolumeName, err, nilPointer, _ := GetFsxVolumeName(client, Key(PersistentVolumeClaim, jira.name, SHARED_HOME));
      if nilPointer {
        return Some(Panic), jira;
      }
      if err != Nil {
        return Some(Result(30, true)), jira;
      }
      if jira.status.fsxId != fsxVolumeName {
        jira := jira.(status := jira.status.(fsxId := fsxVolumeName));
        err, jira := client.UpdateStatus(jira, FsxIdField);
        if err != Nil {
          return Some(Result(1, true)), jira;
        }
      } else {
        client.Skip(Write(FsxIdField));
      }
      return None, jira;
    }

    // ---- lines 380 to 438 ----------------------------------------------------------------

    /** The filesystem. Its identifier is a pointer, and nobody looks whether it is nil. */
    method CreateFileSystem(jira: Jira) returns (done: Option<Result>, fileSystemId: string)
      requires Reached(StorageAt(jira.spec), jira) && BackendOf(jira.spec) == Efs
      modifies client`w, client`tick, client`events, client`model, client`log
      ensures if done.Some? then Ended(done.value)
              else Reached(StorageAt(jira.spec) + 3, jira) && TextOf(client.model.ctl.p, FileSystemId) == fileSystemId
      ensures done ==
              if client.log.failed then Some(Result(if client.log.latest == Some(Create(SharedFileSystem)) then 300 else 60, true))
              else if client.log.Saw(FileSystemId) == Some(Pointer(None)) then Some(Panic)
              else if client.log.Saw(FileSystemId) == Some(Pointer(Some(""))) then Some(Result(5, false))
              else None
      ensures done.None? ==> client.log.Saw(FileSystemId) == Some(Pointer(Some(fileSystemId))) && fileSystemId != ""
    {
      hide At, Prog, Cluster.Valid, Cluster.Met, Cluster.Luck, Creates, StorageAt, PublishAt, Build, GetFileSystem,
          FailAfter, ItemKey;
      EfsDelays(0);
      SharedNames(jira);
      EfsHeadLayout(jira.spec);
      EfsBuilds();
      var sharedFileSystem := GetFileSystem(jira, jira.name);
      var err := client.Create(sharedFileSystem, SharedFileSystem, NO_PASSWORDS);
      if err != Nil && err != AlreadyExists {
        return Some(Result(300, true)), "";
      }
      var pointer;
      pointer, err := GetFilesystemId(client, Key(FileSystem, "", CloudName(jira)));
      if err != Nil {
        return Some(Result(60, true)), "";
      }
      client.Decide(FileSystemIdKnown);
      if pointer.None? {
        return Some(Panic), "";
      }
      if pointer.value == "" {
        return Some(Result(5, false)), "";
      }
      return None, pointer.value;
    }

    /** One mount target for every subnet; the next is created only when the one before is available. */
    method CreateMountTargets(jira: Jira, fileSystemId: string) returns (done: Option<Result>, ghost at: nat)
      requires Reached(StorageAt(jira.spec) + 3, jira) && BackendOf(jira.spec) == Efs
      requires TextOf(client.model.ctl.p, FileSystemId) == fileSystemId
      modifies client`w, client`tick, client`events, client`model, client`log
      ensures if done.Some? then Ended(done.value)
              else && Reached(StorageAt(jira.spec) + 3 + 3 * |jira.spec.network.subnetIds|, jira)
                   && TextOf(client.model.ctl.p, FileSystemId) == fileSystemId
      ensures at <= |jira.spec.network.subnetIds|
      ensures forall k: nat | k < at :: client.log.Saw(TargetState(k)) == Some(Pointer(Some("available")))
      ensures at == |jira.spec.network.subnetIds| ==> done == None
      ensures at < |jira.spec.network.subnetIds| ==>
                done ==
                if client.log.failed then Some(Result(10, true))
                else if client.log.Saw(TargetState(at)) == Some(Pointer(None)) then Some(Panic)
                else Some(Result(10, false))
      ensures at < |jira.spec.network.subnetIds| && !client.log.failed ==>
                client.log.Saw(TargetState(at)) != Some(Pointer(Some("available")))
    {
      hide At, Prog, Cluster.Valid, Cluster.Met, Cluster.Luck, Creates, StorageAt, PublishAt, Storage;
      for i := 0 to |jira.spec.network.subnetIds|
        invariant Reached(StorageAt(jira.spec) + 3 + 3 * i, jira)
        invariant TextOf(client.model.ctl.p, FileSystemId) == fileSystemId
        invariant forall k: nat | k < i :: client.log.Saw(TargetState(k)) == Some(Pointer(Some("available")))
      {
        done := CreateMountTarget(jira, fileSystemId, jira.spec.network.subnetIds[i], i);
        if done.Some? {
          return done, i;
        }
      }
      return None, |jira.spec.network.subnetIds|;
    }

    method CreateMountTarget(jira: Jira, fileSystemId: string, subnetId: string, i: nat) returns (done: Option<Result>)
      requires Reached(StorageAt(jira.spec) + 3 + 3 * i, jira) && BackendOf(jira.spec) == Efs
      requires TextOf(client.model.ctl.p, FileSystemId) == fileSystemId
      requires i < |jira.spec.network.subnetIds| && jira.spec.network.subnetIds[i] == subnetId
      modifies client`w, client`tick, client`events, client`model, client`log
      ensures if done.Some? then Ended(done.value)
              else && Reached(StorageAt(jira.spec) + 3 + 3 * (i + 1), jira)
                   && TextOf(client.model.ctl.p, FileSystemId) == fileSystemId
      ensures done ==
              if client.log.failed then Some(Result(10, true))
              else if client.log.Saw(TargetState(i)) == Some(Pointer(None)) then Some(Panic)
              else if client.log.Saw(TargetState(i)) != Some(Pointer(Some("available"))) then Some(Result(10, false))
              else None
      ensures forall k: nat | k != i :: client.log.Saw(TargetState(k)) == old(client.log).Saw(TargetState(k))
    {
      hide At, Prog, Cluster.Valid, Cluster.Met, Cluster.Luck, Creates, StorageAt, PublishAt, Storage, Build,
          GetMountTarget, MountTargetName, FailAfter, ItemKey;
      EfsDelays(i);
      TargetName(jira, i);
      EfsBuilds();
      TargetAt(jira.spec, i);
      var mountTarget := GetMountTarget(jira, fileSystemId, subnetId, i);
      var err := client.Create(mountTarget, Target(i), NO_PASSWORDS);
      if err != Nil && err != AlreadyExists {
        return Some(Result(10, true));
      }
      var mountTargetStatus;
      mountTargetStatus, err := GetMountTargetStatus(client, Key(MountTarget, "", MountTargetName(jira, i)), i);
      if err != Nil {
        return Some(Result(10, true));
      }
      client.Decide(TargetAvailable(i));
      if mountTargetStatus.None? {
        return Some(Panic);
      }
      if mountTargetStatus.value != "available" {
        return Some(Result(10, false));
      }
      return None;
    }

    /** The shared home on the filesystem. */
    method ShareFileSystem(jira: Jira, fileSystemId: string) returns (done: Option<Result>)
      requires Reached(StorageAt(jira.spec) + 3 + 3 * |jira.spec.network.subnetIds|, jira) && BackendOf(jira.spec) == Efs
      requires TextOf(client.model.ctl.p, FileSystemId) == fileSystemId
      modifies client`w, client`tick, client`events, client`model, client`log
      ensures if done.Some? then Ended(done.value)
              else && Reached(StorageAt(jira.spec) + 5 + 3 * |jira.spec.network.subnetIds|, jira)
                   && TextOf(client.model.ctl.p, FileSystemId) == fileSystemId
      ensures done ==
              if client.log.failed then Some(Result(30, true))
              else None
    {
      hide At, Prog, Cluster.Valid, Cluster.Met, Cluster.Luck, Creates, StorageAt, PublishAt, Build,
          GetPersistentVolumeClaim;
      hide GetEfsPersistentVolume;
      SharedVolumeNames(jira);
      EfsTailLayout(jira.spec);
      EfsBuilds();
      var efsPersistentVolume := GetEfsPersistentVolume(jira, fileSystemId, jira.name);
      var err := client.Create(efsPersistentVolume, EfsPv, NO_PASSWORDS);
      if err != Nil && err != AlreadyExists {
        return Some(Result(30, true));
      }
      var efsPersistentVolumeClaim :=
        GetPersistentVolumeClaim(
          jira, SHARED_HOME, jira.name, efsPersistentVolume.key.name, jira.spec.sharedFs.efs.storageClass, 10,
              ReadWriteMany);
      err := client.Create(efsPersistentVolumeClaim, EfsPvc, NO_PASSWORDS);
      if err != Nil && err != AlreadyExists {
        return Some(Result(30, true));
      }
      return None;
    }

    method RecordFileSystem(jira0: Jira, fileSystemId: string) returns (done: Option<Result>, jira: Jira)
      requires Reached(StorageAt(jira0.spec) + 5 + 3 * |jira0.spec.network.subnetIds|, jira0) && BackendOf(jira0.spec) == Efs
      requires TextOf(client.model.ctl.p, FileSystemId) == fileSystemId
      modifies client`w, client`tick, client`events, client`model, client`log
      ensures if done.Some? then Ended(done.value) else Reached(PublishAt(jira.spec), jira) && Same(jira, jira0)
      ensures done ==
              if client.log.failed then Some(Result(5, true))
              else None
      ensures done.None? ==> jira.status.efsId == fileSystemId
      ensures done.None? ==> client.tick == old(client.tick) + if jira0.status.efsId == fileSystemId then 0 else 1
    {
      hide At, Prog, Cluster.Valid, Cluster.Met, Cluster.Luck, Creates, StorageAt, PublishAt;
      EfsTailLayout(jira0.spec);
      jira := jira0;
      if jira.status.efsId != fileSystemId {
        var err;
        jira := jira.(status := jira.status.(efsId := fileSystemId));
        err, jira := client.UpdateStatus(jira, EfsIdField);
        if err != Nil {
          return Some(Result(5, true)), jira;
        }
      } else {
        client.Skip(Write(EfsIdField));
      }
      return None, jira;
    }

    /** The shared home, by the first backend that the spec configures. */
    method CreateSharedHome(jira0: Jira) returns (done: Option<Result>, jira: Jira)
      requires Reached(StorageAt(jira0.spec), jira0)
      modifies client`w, client`tick, client`events, client`model, client`log
      ensures if done.Some? then Ended(done.value) else Reached(PublishAt(jira.spec), jira) && Same(jira, jira0)
      ensures done.Some? ==> (client.log.failed <==> done.value.Result? && done.value.err)
      ensures done.Some? && done.value.Result? ==> done.value.after > 0
    {
      hide At, Prog, Cluster.Valid, Cluster.Met, Cluster.Luck, Creates, StorageAt, PublishAt, Storage;
      jira := jira0;
      if jira.spec.sharedFs.ebs.snapshotId != "" {
        var ebsVolumeId, nfsServerIp;
        done, ebsVolumeId := AttachEbsVolume(jira);
        if done.Some? { return; }
        done := ClaimEbsVolume(jira, ebsVolumeId);
        if done.Some? { return; }
        done, nfsServerIp := ExposeNfsServer(jira, ebsVolumeId);
        if done.Some? { return; }
        done := StartNfsServer(jira, ebsVolumeId, nfsServerIp);
        if done.Some? { return; }
        done := ShareOverNfs(jira, ebsVolumeId, nfsServerIp);
        if done.Some? { return; }
        done, jira := RecordEbsVolume(jira, ebsVolumeId);
      } else if jira.spec.sharedFs.fsx.snapshotId != "" {
        done := RestoreFsx(jira);
        if done.Some? { return; }
        done := AwaitFsxClaim(jira);
        if done.Some? { return; }
        done, jira := RecordFsxVolume(jira);
      } else {
        var fileSystemId;
        done, fileSystemId := CreateFileSystem(jira);
        if done.Some? { return; }
        ghost var round;
        done, round := CreateMountTargets(jira, fileSystemId);
        if done.Some? { return; }
        done := ShareFileSystem(jira, fileSystemId);
        if done.Some? { return; }
        done, jira := RecordFileSystem(jira, fileSystemId);
      }
    }

    // ---- lines 440 to 497 ----------------------------------------------------------------

    /** The ApplicationSet, and what Argo CD says about the application. */
    method Publish(jira: Jira) returns (result: Result)
      requires Reached(PublishAt(jira.spec), jira)
      modifies client`w, client`tick, client`events, client`model, client`log
      ensures Ended(result)
      ensures client.log.latest.Some? && result ==
              if client.log.failed then Result(if client.log.latest == Some(RenderManifest) then 60
                  else if client.log.latest.value.Write? then 5 else 300, true)
              else Result(300, false)
    {
      hide At, Prog, Cluster.Valid, Cluster.Met, Cluster.Luck, Creates, PublishAt, Template.Manifest;
      PublishLayout(jira.spec);
      var err := client.WriteManifest(jira);
      if err != Nil {
        return Result(60, true);
      }
      var argoFilePath := "argocd/applicationset-" + jira.name + ".yaml";
      err := client.KubectlApply(argoFilePath, NO_PASSWORDS);
      if err != Nil {
        return Result(300, true);
      }
      var done, answer := RecordSync(jira);
      if done.Some? {
        return done.value;
      }
      result, answer := RecordHealth(answer);
    }

    method RecordSync(jira0: Jira) returns (done: Option<Result>, jira: Jira)
      requires Reached(PublishAt(jira0.spec) + 2, jira0)
      modifies client`w, client`tick, client`events, client`model, client`log
      ensures if done.Some? then Ended(done.value) else Reached(PublishAt(jira.spec) + 4, jira)
      ensures done ==
              if client.log.failed then Some(Result(if client.log.latest == Some(Write(SyncField)) then 5 else 300, true))
              else None
      ensures done.None? ==> client.log.Saw(AppSync) == Some(Text(jira.status.sync))
      ensures client.log.failed ==>
                || client.log.latest == Some(Read(AppSync))
                || client.log.latest == Some(Write(SyncField))
      ensures done.None? ==> (client.log.latest == Some(Write(SyncField)) <==> jira0.status.sync != jira.status.sync)
    {
      hide At, Prog, Cluster.Valid, Cluster.Met, Cluster.Luck, Creates, PublishAt, FailAfter;
      ApplicationDelays();
      PublishLayout(jira0.spec);
      jira := jira0;
      var syncStatus := client.KubectlGet(AppSync, false);
      if syncStatus.None? {
        return Some(Result(300, true)), jira;
      }
      if jira.status.sync != syncStatus.value {
        var err;
        jira := jira.(status := jira.status.(sync := syncStatus.value));
        err, jira := client.UpdateStatus(jira, SyncField);
        if err != Nil {
          return Some(Result(5, true)), jira;
        }
      } else {
        client.Skip(Write(SyncField));
      }
      return None, jira;
    }

    method RecordHealth(jira0: Jira) returns (result: Result, jira: Jira)
      requires Reached(PublishAt(jira0.spec) + 4, jira0)
      modifies client`w, client`tick, client`events, client`model, client`log
      ensures Ended(result)
      ensures result ==
              if client.log.failed then Result(if client.log.latest == Some(Write(HealthField)) then 5 else 300, true)
              else Result(300, false)
      ensures !client.log.failed ==> client.log.Saw(AppHealth) == Some(Text(jira.status.health))
      ensures client.log.latest == Some(Read(AppHealth)) || client.log.latest == Some(Write(HealthField))
      ensures !client.log.failed
          ==> (client.log.latest == Some(Write(HealthField)) <==> jira0.status.health != jira.status.health)
    {
      hide At, Prog, Cluster.Valid, Cluster.Met, Cluster.Luck, Creates, PublishAt, FailAfter;
      ApplicationDelays();
      PublishLayout(jira0.spec);
      jira := jira0;
      var healthStatus := client.KubectlGet(AppHealth, true);
      if healthStatus.None? {
        return Result(300, true), jira;
      }
      if jira.status.health != healthStatus.value {
        var err;
        jira := jira.(status := jira.status.(health := healthStatus.value));
        err, jira := client.UpdateStatus(jira, HealthField);
        if err != Nil {
          return Result(5, true), jira;
        }
      } else {
        client.Skip(Write(HealthField));
      }
      client.End();
      return Result(300, false), jira;
    }

    // ---- the whole ------------------------------------------------------------------------

    /** One pass. However the calls fare and whatever happens between them, it goes through a run of the
        machine from the state in which the custom resource was read, and returns what that run returns. So
        each call keeps the safety invariant, and with it does any sequence of calls.
        Undisturbed, it applies the plan up to the first closed gate and returns what that gate asks for. */
    method Reconcile() returns (result: Result)
      requires client.Valid() && client.model.ctl.Idle?
      modifies this, client
      ensures client.Valid() && client.model.ctl == Idle(ExitOf(result))
      ensures client.start ==
              Step(Acts(old(client.model), client.acts(old(client.tick))), Begin(client.faults(old(client.tick))))
      ensures client.log.failed <==> result.Result? && (result.err || result.after == 0)
      ensures client.Undisturbed() ==>
                var stop := Stop(old(client.w));
                && client.w == After(old(client.w), stop, DrawOf(client.events))
                && Blocked(At(old(client.w).cr.spec, stop), old(client.w)) == Some(ExitOf(result))
                && ExitOf(result) == Due(old(client.w))
      ensures forall j :: Safety.Inv(old(client.model), j) && Harmless(client, j) ==> Safety.Inv(client.model, j)
    {
      hide Safety.Inv, Harmless, Step, Acts, Run, Stop, After, Blocked, At, Due;
      result := Work();
      if client.Undisturbed() {
        QuietPass(client, old(client.model));
        LeavesWhenDue(old(client.w));
      }
      forall j | Safety.Inv(old(client.model), j) && Harmless(client, j)
        ensures Safety.Inv(client.model, j)
      {
        CallKeepsInv(client, old(client.model), old(client.tick), j);
      }
    }

    method Work() returns (result: Result)
      requires client.Valid() && client.model.ctl.Idle?
      modifies this, client
      ensures client.Valid() && client.model.ctl == Idle(ExitOf(result))
      ensures client.start ==
              Step(Acts(old(client.model), client.acts(old(client.tick))), Begin(client.faults(old(client.tick))))
      ensures client.log.failed <==> result.Result? && (result.err || result.after == 0)
    {
      hide At, Prog, Run, Step, Acts, Frame.Versioned, StorageAt, PublishAt, LiquibaseAt, ResetAt;
      var found := client.GetJira();
      if found.None? {
        return Result(0, false);
      }
      var jira := found.value;
      var done := CreateDatabase(jira);
      if done.Some? { return done.value; }
      var rdsHostname;
      done, jira, rdsHostname := AwaitDatabase(jira);
      if done.Some? { return done.value; }
      done, jira := SyncEndpoint(jira, rdsHostname);
      if done.Some? { return done.value; }
      done, jira := ResetPassword(jira);
      if done.Some? { return done.value; }
      done, jira := RunLiquibase(jira);
      if done.Some? { return done.value; }
      done, jira := CreateSharedHome(jira);
      if done.Some? { return done.value; }
      result := Publish(jira);
    }
  }

  predicate Same(a: Jira, b: Jira)
  {
    SameIdentity(a, b) && a.spec == b.spec
  }

  // ---- delays after failed calls -------------------------------------------------------------

  lemma SecretIs(j: Jira, hostname: string, ns: string, d: Draw)
    ensures var o := GetRdsSecret(j, hostname, ns, d);
            && o.key == Key(Secret, ns, "jira-database-secret")
            && o.body == SecretBody(SecretData(
                                      hostname, "jdbc:postgresql://" + hostname + "/postgres",
                                      "jdbc:postgresql://" + hostname + "/jira",
                                      "postgres", d.password, d.appPassword, d.appRoPassword))
  {
  }

  lemma SecretDelays()
    ensures FailAfter(SyncSecret) == 5 && FailAfter(Write(EndpointField)) == 5
  {
  }

  lemma NfsDelays()
    ensures FailAfter(Create(NfsService)) == 300 && FailAfter(Read(ServiceIp)) == 30
    ensures FailAfter(Create(NfsStatefulSet)) == 300 && FailAfter(Read(ReadyReplicas)) == 60
  {
  }

  lemma EfsDelays(i: nat)
    ensures FailAfter(Create(SharedFileSystem)) == 300 && FailAfter(Read(FileSystemId)) == 60
    ensures FailAfter(Create(Target(i))) == 10 && FailAfter(Read(TargetState(i))) == 10
  {
  }

  lemma LiquibaseDelays()
    ensures FailAfter(Read(Changelog)) == 600 && FailAfter(Create(ChangelogMap)) == 10
    ensures FailAfter(Read(ChangelogData)) == 5 && FailAfter(SyncChangelog) == 5
    ensures FailAfter(Create(LiquibaseJob)) == 300 && FailAfter(Read(LiquibaseCount)) == 30
    ensures FailAfter(Write(LiquibaseField)) == 5
  {
  }

  lemma ApplicationDelays()
    ensures FailAfter(Read(AppSync)) == 300 && FailAfter(Read(AppHealth)) == 300
    ensures FailAfter(Write(SyncField)) == 5 && FailAfter(Write(HealthField)) == 5
  {
  }

  lemma LiquibaseKeys(j: Jira)
    ensures GetLiquibaseJob(j, j.name).key == ItemKey(LiquibaseJob, j)
    ensures forall c :: GetLiquibaseConfigMap(j, j.name, c).key == ItemKey(ChangelogMap, j)
    ensures forall c :: GetLiquibaseConfigMap(j, j.name, c).body == ConfigMapBody(c)
  {
  }

  lemma TargetName(j: Jira, i: nat)
    ensures ItemKey(Target(i), j) == Key(MountTarget, "", MountTargetName(j, i))
  {
  }

  // ---- what the program builds ---------------------------------------------------------------

  lemma ResetJobKey(j: Jira)
    ensures GetChangeRootPasswordJob(j, j.name, CloudName(j)).key == ItemKey(ResetJob, j)
  {
  }

  lemma NfsVolumeName(j: Jira)
    ensures forall id, size :: GetEbsPersistentVolume(j, id, NfsName(j), size, j.name).key.name == NfsName(j) + "-" + j.uid
  {
  }

  lemma SharedVolumeNames(j: Jira)
    ensures forall ip, size :: GetNfsPersistentVolume(j, ip, size, j.name).key.name == SharedVolumeName(j)
    ensures forall id :: GetEfsPersistentVolume(j, id, j.name).key.name == SharedVolumeName(j)
  {
  }

  lemma DatabaseBuilds()
    ensures forall p, d :: Build(NamespaceItem, p, d) == GetNamespace(p.jira)
    ensures forall p, d :: Build(ParameterGroupItem, p, d) == GetDbParameterGroup(p.jira)
    ensures forall p, d :: Build(SubnetGroupItem, p, d) == GetDbSubnetGroup(p.jira)
    ensures forall p, d :: Build(DbSecret, p, d) == GetRdsSecret(p.jira, "replaceme", p.jira.name, d)
    ensures forall p, d :: Build(Rds, p, d) ==
                           GetRdsInstance(p.jira, GetDbSubnetGroup(p.jira), GetDbParameterGroup(p.jira), p.jira.name)
  {
  }

  lemma ResetBuilds()
    ensures forall p, d :: Build(ResetAccount, p, d) == GetServiceAccount(p.jira, p.jira.name)
    ensures forall p, d :: Build(ResetJob, p, d) == GetChangeRootPasswordJob(p.jira, p.jira.name, CloudName(p.jira))
  {
  }

  lemma ChangelogBuilds()
    ensures forall p, d :: Build(ChangelogMap, p, d) == GetLiquibaseConfigMap(p.jira, p.jira.name, TextOf(p, Changelog))
  {
  }

  lemma LiquibaseBuilds()
    ensures forall p, d :: Build(LiquibaseJob, p, d) == GetLiquibaseJob(p.jira, p.jira.name)
  {
  }

  lemma EbsBuilds()
    ensures forall p, d :: Build(Volume, p, d) == GetEbsVolume(p.jira)
    ensures forall p, d :: Build(NfsPv, p, d) ==
                           GetEbsPersistentVolume(p.jira, TextOf(p, VolumeId), NfsName(p.jira),
                               p.jira.spec.sharedFs.volumeSize, p.jira.name)
    ensures forall p, d :: Build(NfsPvc, p, d) ==
                           GetPersistentVolumeClaim(
                             p.jira, NfsName(p.jira), p.jira.name, NfsName(p.jira) + "-" + p.jira.uid,
                             p.jira.spec.sharedFs.ebs.storageClass, p.jira.spec.sharedFs.volumeSize, ReadWriteOnce)
    ensures forall p, d :: Build(NfsService, p, d) == GetNfsServerService(p.jira, p.jira.name)
    ensures forall p, d :: Build(NfsStatefulSet, p, d) == GetNfsServerStatefulSet(p.jira, p.jira.name)
    ensures forall p, d :: Build(SharedNfsPv, p, d) ==
                           GetNfsPersistentVolume(p.jira, TextOf(p, ServiceIp), p.jira.spec.sharedFs.volumeSize, p.jira.name)
    ensures forall p, d :: Build(SharedNfsPvc, p, d) ==
                           GetPersistentVolumeClaim(
                             p.jira, SHARED_HOME, p.jira.name, SharedVolumeName(p.jira),
                             p.jira.spec.sharedFs.efs.storageClass, p.jira.spec.sharedFs.volumeSize, ReadWriteMany)
  {
  }

  lemma FsxBuilds()
    ensures forall p, d :: Build(SnapshotContent, p, d) == GetFsxVolumeSnapshotContent(p.jira, p.jira.name)
    ensures forall p, d :: Build(Snapshot, p, d) == GetFsxVolumeSnapshot(p.jira, p.jira.name)
    ensures forall p, d :: Build(FsxPvc, p, d) == GetFsxPersistentVolumeClaimFromSnapshot(p.jira, SHARED_HOME,
        p.jira.name, 1)
  {
  }

  lemma EfsBuilds()
    ensures forall p, d :: Build(SharedFileSystem, p, d) == GetFileSystem(p.jira, p.jira.name)
    ensures forall i: nat, p: Pass, d | i < |p.jira.spec.network.subnetIds| ::
              Build(Target(i), p, d) == GetMountTarget(p.jira, TextOf(p, FileSystemId), p.jira.spec.network.subnetIds[i], i)
    ensures forall p, d :: Build(EfsPv, p, d) == GetEfsPersistentVolume(p.jira, TextOf(p, FileSystemId), p.jira.name)
    ensures forall p, d :: Build(EfsPvc, p, d) ==
                           GetPersistentVolumeClaim(
                             p.jira, SHARED_HOME, p.jira.name, SharedVolumeName(p.jira),
                             p.jira.spec.sharedFs.efs.storageClass, 10, ReadWriteMany)
  {
  }

  // ---- an undisturbed pass ------------------------------------------------------------------

  /** The passwords that the k-th call of a run has drawn. */
  function DrawAt(es: seq<Event>, k: nat): Draw
  {
    if k < |es| && es[k].Call? then es[k].d else NO_PASSWORDS
  }

  function DrawOf(es: seq<Event>): nat -> Draw
  {
    (k: nat) => DrawAt(es, k)
  }

  lemma {:induction false} OnlyCalls(m: M, es: seq<Event>, n: nat)
    requires n <= |es| && forall e | e in es :: e.Call? && e.f == NoFault
    ensures Run(m, es[..n]) == CleanPass.Calls(m, DrawOf(es), n)
  {
    hide Step;
    if n > 0 {
      OnlyCalls(m, es, n - 1);
      assert es[..n] == es[..n - 1] + [es[n - 1]];
      assert es[n - 1] in es;
      RunSnoc(m, es[..n - 1], es[n - 1]);
    } else {
      assert es[..0] == [];
    }
  }

  lemma QuietEvents(r: Cluster)
    requires r.Valid() && r.Undisturbed()
    ensures forall e | e in r.events :: e.Call? && e.f == NoFault
  {
    hide Run, Frame.Versioned;
    forall e | e in r.events
      ensures e.Call? && e.f == NoFault
    {
      assert r.Expected(e);
    }
  }

  lemma QuietPass(r: Cluster, m0: M)
    requires r.Valid() && r.Undisturbed() && m0.ctl.Idle? && r.model.ctl.Idle?
    requires exists t: nat :: r.start == Step(Acts(m0, r.acts(t)), Begin(r.faults(t)))
    ensures r.w == After(m0.w, Stop(m0.w), DrawOf(r.events))
    ensures var blocked := Blocked(At(m0.w.cr.spec, Stop(m0.w)), m0.w);
            blocked.Some? && r.model.ctl == Idle(blocked.value)
  {
    hide Run, Frame.Versioned, Step, Stop, After, Prog, Blocked;
    var d := DrawOf(r.events);
    var n := |r.events|;
    var t: nat :| r.start == Step(Acts(m0, r.acts(t)), Begin(r.faults(t)));
    assert Acts(m0, []) == m0;
    QuietEvents(r);
    OnlyCalls(r.start, r.events, n);
    assert r.events[..n] == r.events;
    Refinement.CleanPassRefines(m0, d);
    var all := |Prog(m0.w.cr.spec)|;
    if n <= all {
      Refinement.IdleStays(r.start, d, n, all);
    } else {
      Refinement.IdleStays(r.start, d, all, n);
    }
  }

  // ---- what the machine's theorems mean for the object --------------------------------------

  /** The environment of the object neither edits the spec nor deletes objects. */
  ghost predicate Harmless(r: Cluster, j: Jira)
  {
    forall t: nat, a | a in r.acts(t) :: Safety.Benign(Env(a), j)
  }

  /** The events of a pass keep the order of the plan and the history of its gates. */
  lemma PassKeepsInv(r: Cluster, j: Jira)
    requires r.Valid() && Safety.Inv(r.start, j) && Harmless(r, j)
    ensures Safety.Inv(r.model, j)
  {
    hide Run, Safety.Inv, Frame.Versioned, Safety.Benign;
    forall e | e in r.events
      ensures Safety.Benign(e, j)
    {
      assert r.Expected(e);
      if e.Env? {
        assert e == Env(e.a);
      } else {
        CallsAreBenign(e, j);
      }
    }
    Safety.RunKeepsInv(r.start, r.events, j);
  }

  lemma {:induction false} ActsKeepInv(m: M, acts: seq<Action>, j: Jira)
    requires Safety.Inv(m, j) && forall a | a in acts :: Safety.Benign(Env(a), j)
    ensures Safety.Inv(Acts(m, acts), j)
    decreases |acts|
  {
    hide Safety.Inv, Safety.Benign, Act;
    if acts != [] {
      assert acts[0] in acts;
      Safety.StepKeepsInv(m, Env(acts[0]), j);
      assert Step(m, Env(acts[0])) == Act(m, acts[0]);
      ActsKeepInv(Act(m, acts[0]), acts[1..], j);
    }
  }

  /** A whole call: what others do first, the read that begins the pass, and the pass. */
  lemma CallKeepsInv(r: Cluster, m0: M, t: nat, j: Jira)
    requires r.Valid() && Safety.Inv(m0, j) && Harmless(r, j)
    requires r.start == Step(Acts(m0, r.acts(t)), Begin(r.faults(t)))
    ensures Safety.Inv(r.model, j)
  {
    hide Run, Safety.Inv, Safety.Benign, Frame.Versioned, Step;
    ActsKeepInv(m0, r.acts(t), j);
    BeginIsBenign(r.faults(t), j);
    Safety.StepKeepsInv(Acts(m0, r.acts(t)), Begin(r.faults(t)), j);
    PassKeepsInv(r, j);
  }

  lemma BeginIsBenign(f: Fault, j: Jira)
    ensures Safety.Benign(Begin(f), j)
  {
  }

  lemma CallsAreBenign(e: Event, j: Jira)
    requires e.Call?
    ensures Safety.Benign(e, j)
  {
  }
}
