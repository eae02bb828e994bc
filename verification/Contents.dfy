/** What is stored: every object of the plan, field by field, in terms of the spec and of what the providers wrote
    into the other objects, in every state that can be reached. */
module Contents {
  import opened Api
  import opened Text
  import opened Plan
  import opened Machine
  import opened Soundness
  import opened Coherence

  /** The object is there, as the operator made it. */
  ghost predicate Made(m: M, j: Jira, item: Item)
  {
    ItemKey(item, j) in m.births
  }

  function BodyOf(m: M, j: Jira, item: Item): Body
    requires ItemKey(item, j) in m.w.store
  {
    m.w.store[ItemKey(item, j)].body
  }

  lemma NamespaceContents(m: M, j: Jira)
    requires SteadyReachable(m, j) && Made(m, j, NamespaceItem)
    ensures ItemKey(NamespaceItem, j) in m.w.store
    ensures var o := BodyOf(m, j, NamespaceItem);
            && o.NamespaceBody? && o.ownedBy == j.name
  {
    hide SteadyReachable, WorldText, TextOf;
    var p, d := Built(m, j, NamespaceItem);
  }

  lemma ParameterGroupContents(m: M, j: Jira)
    requires SteadyReachable(m, j) && Made(m, j, ParameterGroupItem)
    ensures ItemKey(ParameterGroupItem, j) in m.w.store
    ensures var o := BodyOf(m, j, ParameterGroupItem);
            && o.ParameterGroupBody? && o.region == j.spec.region && o.provider == j.spec.provider
            && o.family == "postgres" + Before(j.spec.database.engineVersion, '.')
  {
    hide SteadyReachable, WorldText, TextOf;
    var p, d := Built(m, j, ParameterGroupItem);
  }

  lemma SubnetGroupContents(m: M, j: Jira)
    requires SteadyReachable(m, j) && Made(m, j, SubnetGroupItem)
    ensures ItemKey(SubnetGroupItem, j) in m.w.store
    ensures var o := BodyOf(m, j, SubnetGroupItem);
            && o.SubnetGroupBody? && o.region == j.spec.region && o.provider == j.spec.provider
            && o.subnetIds == j.spec.network.subnetIds
            && o.description == "DB Subnet group for " + j.name + " RDS instance"
  {
    hide SteadyReachable, WorldText, TextOf;
    var p, d := Built(m, j, SubnetGroupItem);
  }

  /** The database instance is restored from the snapshot of the database, if there is one, and from nothing else. */
  lemma InstanceContents(m: M, j: Jira)
    requires SteadyReachable(m, j) && Made(m, j, Rds)
    ensures ItemKey(Rds, j) in m.w.store
    ensures var o := BodyOf(m, j, Rds);
            && o.RdsBody? && o.region == j.spec.region && o.provider == j.spec.provider
            && o.storage == j.spec.database.allocatedStorage && o.instanceClass == j.spec.database.instanceClass
            && o.engine == j.spec.database.engine && o.engineVersion == j.spec.database.engineVersion
            && o.securityGroups == j.spec.network.securityGroupIds && o.kmsKey == j.spec.kmsKeyId
            && o.parameterGroup == j.name + "-" + j.uid && o.subnetGroup == j.name + "-" + j.uid
            && o.passwordSecret == Key(Secret, j.name, "jira-database-secret") && o.passwordKey == "password"
            && o.connectionSecret == Key(Secret, j.name, j.name + "-db-secret")
            && (o.restoreFrom == None <==> j.spec.database.snapshotId == "")
            && (o.restoreFrom == Some(j.spec.database.snapshotId) <==> j.spec.database.snapshotId != "")
            && o.deletion == (if j.spec.retainOnDelete then Orphan else Default)
  {
    hide SteadyReachable, WorldText, TextOf;
    var p, d := Built(m, j, Rds);
  }

  lemma AccountContents(m: M, j: Jira)
    requires SteadyReachable(m, j) && Made(m, j, ResetAccount)
    ensures ItemKey(ResetAccount, j) in m.w.store
    ensures var o := BodyOf(m, j, ResetAccount);
            && o.ServiceAccountBody? && o.roleArn == j.spec.rdsRoleArn
  {
    hide SteadyReachable, WorldText, TextOf;
    var p, d := Built(m, j, ResetAccount);
  }

  lemma ResetJobContents(m: M, j: Jira)
    requires SteadyReachable(m, j) && Made(m, j, ResetJob)
    ensures ItemKey(ResetJob, j) in m.w.store
    ensures var o := BodyOf(m, j, ResetJob);
            && o.ResetJobBody? && o.serviceAccount == "rds-reset-password-sa"
            && o.dbInstance == j.name + "-" + j.uid && o.region == j.spec.region && o.passwordSecretName == "jira-database-secret"
  {
    hide SteadyReachable, WorldText, TextOf;
    var p, d := Built(m, j, ResetJob);
  }

  lemma LiquibaseJobContents(m: M, j: Jira)
    requires SteadyReachable(m, j) && Made(m, j, LiquibaseJob)
    ensures ItemKey(LiquibaseJob, j) in m.w.store
    ensures var o := BodyOf(m, j, LiquibaseJob);
            && o.LiquibaseJobBody? && o.secretName == "jira-database-secret"
            && o.configMapName == j.name + "-liquibase-changelog"
  {
    hide SteadyReachable, WorldText, TextOf;
    var p, d := Built(m, j, LiquibaseJob);
  }

  lemma VolumeContents(m: M, j: Jira)
    requires SteadyReachable(m, j) && Made(m, j, Volume)
    requires j.spec.sharedFs.ebs.snapshotId != ""
    ensures ItemKey(Volume, j) in m.w.store
    ensures var o := BodyOf(m, j, Volume);
            && o.EbsVolumeBody? && o.region == j.spec.region && o.provider == j.spec.provider
            && o.zone == j.spec.region + j.spec.sharedFs.ebs.zone && o.size == j.spec.sharedFs.volumeSize
            && o.snapshotId == j.spec.sharedFs.ebs.snapshotId && o.kmsKey == j.spec.kmsKeyId
            && (o.encrypted <==> j.spec.kmsKeyId != "")
            && o.deletion == (if j.spec.retainOnDelete then Orphan else Default)
  {
    hide SteadyReachable, WorldText, TextOf;
    var p, d := Built(m, j, Volume);
  }

  /** The volume of the NFS server is the one that the provider made. */
  lemma ServerVolumeContents(m: M, j: Jira)
    requires SteadyReachable(m, j) && Made(m, j, NfsPv)
    requires j.spec.sharedFs.ebs.snapshotId != ""
    ensures ItemKey(NfsPv, j) in m.w.store
    ensures var o := BodyOf(m, j, NfsPv);
            && o.PvBody? && o.size == j.spec.sharedFs.volumeSize && o.mode == ReadWriteOnce
            && o.source.AwsEbs? && o.source.fsType == j.spec.sharedFs.ebs.fsType && o.source.volumeId != ""
            && o.claim == Key(PersistentVolumeClaim, j.name, j.name + "-nfs-server")
            && o.storageClass == j.spec.sharedFs.ebs.storageClass
            && o.zones == [j.spec.region + j.spec.sharedFs.ebs.zone, j.spec.region]
    ensures && ItemKey(Volume, j) in m.w.store
            && var live := m.w.store[ItemKey(Volume, j)].live;
               live.volumeId == Some(BodyOf(m, j, NfsPv).source.volumeId)
  {
    hide SteadyReachable, TextOf;
    var p, d := Built(m, j, NfsPv);
  }

  lemma ServerClaimContents(m: M, j: Jira)
    requires SteadyReachable(m, j) && Made(m, j, NfsPvc)
    requires j.spec.sharedFs.ebs.snapshotId != ""
    ensures ItemKey(NfsPvc, j) in m.w.store
    ensures var o := BodyOf(m, j, NfsPvc);
            && o.PvcBody? && o.size == j.spec.sharedFs.volumeSize && o.mode == ReadWriteOnce
            && o.volumeName == j.name + "-nfs-server" + "-" + j.uid && o.storageClass == j.spec.sharedFs.ebs.storageClass
            && o.dataSource == None
  {
    hide SteadyReachable, WorldText, TextOf;
    var p, d := Built(m, j, NfsPvc);
  }

  lemma ServiceContents(m: M, j: Jira)
    requires SteadyReachable(m, j) && Made(m, j, NfsService)
    requires j.spec.sharedFs.ebs.snapshotId != ""
    ensures ItemKey(NfsService, j) in m.w.store
    ensures var o := BodyOf(m, j, NfsService);
            && o.ServiceBody? && o.port == 2049
  {
    hide SteadyReachable, WorldText, TextOf;
    var p, d := Built(m, j, NfsService);
  }

  lemma ServerContents(m: M, j: Jira)
    requires SteadyReachable(m, j) && Made(m, j, NfsStatefulSet)
    requires j.spec.sharedFs.ebs.snapshotId != ""
    ensures ItemKey(NfsStatefulSet, j) in m.w.store
    ensures var o := BodyOf(m, j, NfsStatefulSet);
            && o.StatefulSetBody? && o.claimName == j.name + "-nfs-server" && o.serviceName == "nfs-server"
            && o.zones == [j.spec.region + j.spec.sharedFs.ebs.zone, j.spec.region]
  {
    hide SteadyReachable, WorldText, TextOf;
    var p, d := Built(m, j, NfsStatefulSet);
  }

  /** The shared home on NFS is reached at the address of the service. */
  lemma NfsVolumeContents(m: M, j: Jira)
    requires SteadyReachable(m, j) && Made(m, j, SharedNfsPv)
    requires j.spec.sharedFs.ebs.snapshotId != ""
    ensures ItemKey(SharedNfsPv, j) in m.w.store
    ensures var o := BodyOf(m, j, SharedNfsPv);
            && o.PvBody? && o.size == j.spec.sharedFs.volumeSize && o.mode == ReadWriteMany
            && o.source.Nfs? && o.source.path == "/srv/nfs" && o.source.server != ""
            && o.claim == Key(PersistentVolumeClaim, j.name, "jira-shared-home")
            && o.storageClass == j.spec.sharedFs.ebs.storageClass && o.zones == []
    ensures && ItemKey(NfsService, j) in m.w.store
            && var live := m.w.store[ItemKey(NfsService, j)].live;
               live.clusterIp == BodyOf(m, j, SharedNfsPv).source.server
  {
    hide SteadyReachable, TextOf;
    var p, d := Built(m, j, SharedNfsPv);
  }

  lemma NfsClaimContents(m: M, j: Jira)
    requires SteadyReachable(m, j) && Made(m, j, SharedNfsPvc)
    requires j.spec.sharedFs.ebs.snapshotId != ""
    ensures ItemKey(SharedNfsPvc, j) in m.w.store
    ensures var o := BodyOf(m, j, SharedNfsPvc);
            && o.PvcBody? && o.size == j.spec.sharedFs.volumeSize && o.mode == ReadWriteMany
            && o.volumeName == "jira-shared-home-pv" + "-" + j.uid && o.storageClass == j.spec.sharedFs.efs.storageClass
            && o.dataSource == None
  {
    hide SteadyReachable, WorldText, TextOf;
    var p, d := Built(m, j, SharedNfsPvc);
  }

  lemma SnapshotContentContents(m: M, j: Jira)
    requires SteadyReachable(m, j) && Made(m, j, SnapshotContent)
    requires j.spec.sharedFs.ebs.snapshotId == "" && j.spec.sharedFs.fsx.snapshotId != ""
    ensures ItemKey(SnapshotContent, j) in m.w.store
    ensures var o := BodyOf(m, j, SnapshotContent);
            && o.SnapshotContentBody? && o.snapshot == Key(VolumeSnapshot, j.name, j.name + "-" + j.uid)
            && o.driver == j.spec.sharedFs.fsx.csiDriver && o.snapshotClass == j.spec.sharedFs.fsx.snapshotClass
            && o.handle == j.spec.sharedFs.fsx.snapshotId
  {
    hide SteadyReachable, WorldText, TextOf;
    var p, d := Built(m, j, SnapshotContent);
  }

  lemma SnapshotContents(m: M, j: Jira)
    requires SteadyReachable(m, j) && Made(m, j, Snapshot)
    requires j.spec.sharedFs.ebs.snapshotId == "" && j.spec.sharedFs.fsx.snapshotId != ""
    ensures ItemKey(Snapshot, j) in m.w.store
    ensures var o := BodyOf(m, j, Snapshot);
            && o.SnapshotBody? && o.contentName == j.name + "-" + j.uid && o.snapshotClass == j.spec.sharedFs.fsx.snapshotClass
  {
    hide SteadyReachable, WorldText, TextOf;
    var p, d := Built(m, j, Snapshot);
  }

  lemma FsxClaimContents(m: M, j: Jira)
    requires SteadyReachable(m, j) && Made(m, j, FsxPvc)
    requires j.spec.sharedFs.ebs.snapshotId == "" && j.spec.sharedFs.fsx.snapshotId != ""
    ensures ItemKey(FsxPvc, j) in m.w.store
    ensures var o := BodyOf(m, j, FsxPvc);
            && o.PvcBody? && o.size == 1 && o.mode == ReadWriteMany && o.volumeName == ""
            && o.storageClass == j.spec.sharedFs.fsx.restoreClass && o.dataSource == Some(j.name + "-" + j.uid)
  {
    hide SteadyReachable, WorldText, TextOf;
    var p, d := Built(m, j, FsxPvc);
  }

  lemma FileSystemContents(m: M, j: Jira)
    requires SteadyReachable(m, j) && Made(m, j, SharedFileSystem)
    requires j.spec.sharedFs.ebs.snapshotId == "" && j.spec.sharedFs.fsx.snapshotId == ""
    ensures ItemKey(SharedFileSystem, j) in m.w.store
    ensures var o := BodyOf(m, j, SharedFileSystem);
            && o.FileSystemBody? && o.region == j.spec.region && o.provider == j.spec.provider && o.kmsKey == j.spec.kmsKeyId
            && o.connectionSecret == Key(Secret, j.name, j.name + "-efs-secret")
            && o.deletion == (if j.spec.retainOnDelete then Orphan else Default)
  {
    hide SteadyReachable, WorldText, TextOf;
    var p, d := Built(m, j, SharedFileSystem);
  }

  /** Mount target i joins the filesystem that the provider made to the i-th subnet. */
  lemma TargetContents(m: M, j: Jira, i: nat)
    requires SteadyReachable(m, j) && Made(m, j, Target(i))
    requires j.spec.sharedFs.ebs.snapshotId == "" && j.spec.sharedFs.fsx.snapshotId == "" && i < |j.spec.network.subnetIds|
    ensures ItemKey(Target(i), j) in m.w.store
    ensures var o := BodyOf(m, j, Target(i));
            && o.MountTargetBody? && o.region == j.spec.region && o.provider == j.spec.provider
            && o.subnetId == j.spec.network.subnetIds[i] && o.securityGroups == j.spec.network.securityGroupIds
            && o.fileSystemId != ""
            && o.deletion == (if j.spec.retainOnDelete then Orphan else Default)
    ensures && ItemKey(SharedFileSystem, j) in m.w.store
            && var live := m.w.store[ItemKey(SharedFileSystem, j)].live;
               live.fileSystemId == Some(BodyOf(m, j, Target(i)).fileSystemId)
  {
    hide SteadyReachable, TextOf;
    var p, d := Built(m, j, Target(i));
  }

  lemma EfsVolumeContents(m: M, j: Jira)
    requires SteadyReachable(m, j) && Made(m, j, EfsPv)
    requires j.spec.sharedFs.ebs.snapshotId == "" && j.spec.sharedFs.fsx.snapshotId == ""
    ensures ItemKey(EfsPv, j) in m.w.store
    ensures var o := BodyOf(m, j, EfsPv);
            && o.PvBody? && o.size == 10 && o.mode == ReadWriteMany
            && o.source.Csi? && o.source.driver == j.spec.sharedFs.efs.csiDriver && o.source.handle != ""
            && o.claim == Key(PersistentVolumeClaim, j.name, "jira-shared-home")
            && o.storageClass == j.spec.sharedFs.efs.storageClass && o.zones == []
    ensures && ItemKey(SharedFileSystem, j) in m.w.store
            && var live := m.w.store[ItemKey(SharedFileSystem, j)].live;
               live.fileSystemId == Some(BodyOf(m, j, EfsPv).source.handle)
  {
    hide SteadyReachable, TextOf;
    var p, d := Built(m, j, EfsPv);
  }

  lemma EfsClaimContents(m: M, j: Jira)
    requires SteadyReachable(m, j) && Made(m, j, EfsPvc)
    requires j.spec.sharedFs.ebs.snapshotId == "" && j.spec.sharedFs.fsx.snapshotId == ""
    ensures ItemKey(EfsPvc, j) in m.w.store
    ensures var o := BodyOf(m, j, EfsPvc);
            && o.PvcBody? && o.size == 10 && o.mode == ReadWriteMany
            && o.volumeName == "jira-shared-home-pv" + "-" + j.uid && o.storageClass == j.spec.sharedFs.efs.storageClass
            && o.dataSource == None
  {
    hide SteadyReachable, WorldText, TextOf;
    var p, d := Built(m, j, EfsPvc);
  }
}
