/** The object builders of packages k8s and crossplane, and of the ApplicationSet template's header. */
module Builders {
  import opened Api
  import opened Text
  import Template

  const SECRET_NAME := "jira-database-secret"
  const SHARED_HOME := "jira-shared-home"
  const SERVICE_ACCOUNT := "rds-reset-password-sa"

  function CloudName(j: Jira): string { j.name + "-" + j.uid }

  function NfsName(j: Jira): string { j.name + "-nfs-server" }

  function SharedVolumeName(j: Jira): string { "jira-shared-home-pv" + "-" + j.uid }

  function MountTargetName(j: Jira, i: nat): string { j.name + Itoa(i) + "-" + j.uid }

  function Owners(j: Jira): seq<OwnerRef>
  {
    [OwnerRef("app.atlassian.com/v1", "Jira", j.name, j.uid, true)]
  }

  function Policy(j: Jira): DeletionPolicy
  {
    if j.spec.retainOnDelete then Orphan else Default
  }

  function Zones(j: Jira): seq<string>
  {
    [j.spec.region + j.spec.sharedFs.ebs.zone, j.spec.region]
  }

  // ---- k8s/namespace.go, crossplane/rds.go, k8s/secret.go --------------------------------

  function GetNamespace(j: Jira): Obj
  {
    Obj(Key(Namespace, "", j.name), Owners(j), NamespaceBody(j.name), FRESH)
  }

  function GetDbParameterGroup(j: Jira): Obj
  {
    Obj(Key(ParameterGroup, "", CloudName(j)), Owners(j),
        ParameterGroupBody(j.spec.region, "postgres" + Before(j.spec.database.engineVersion, '.'), j.spec.provider),
        FRESH)
  }

  function GetDbSubnetGroup(j: Jira): Obj
  {
    Obj(Key(SubnetGroup, "", CloudName(j)), Owners(j),
        SubnetGroupBody(j.spec.region, "DB Subnet group for " + j.name + " RDS instance",
                        j.spec.network.subnetIds, j.spec.provider),
        FRESH)
  }

  function GetRdsSecret(j: Jira, hostname: string, ns: string, d: Draw): Obj
  {
    Obj(Key(Secret, ns, SECRET_NAME), Owners(j),
        SecretBody(SecretData(
                     hostname,
                     "jdbc:postgresql://" + hostname + "/postgres",
                     "jdbc:postgresql://" + hostname + "/jira",
                     "postgres", d.password, d.appPassword, d.appRoPassword)),
        FRESH)
  }

  function GetRdsInstance(j: Jira, subnetGroup: Obj, parameterGroup: Obj, ns: string): Obj
  {
    Obj(Key(RdsInstance, "", CloudName(j)), Owners(j),
        RdsBody(j.spec.region, j.spec.database.allocatedStorage, j.spec.database.instanceClass,
                j.spec.network.securityGroupIds, parameterGroup.key.name, subnetGroup.key.name,
                j.spec.database.engine, j.spec.database.engineVersion, j.spec.kmsKeyId,
                Key(Secret, ns, SECRET_NAME), "password",
                if j.spec.database.snapshotId != "" then Some(j.spec.database.snapshotId) else None,
                Key(Secret, ns, j.name + "-db-secret"), j.spec.provider, Policy(j)),
        FRESH)
  }

  // ---- k8s/liquibase.go: no owner references on the service account and the two jobs -----

  function GetServiceAccount(j: Jira, ns: string): Obj
  {
    Obj(Key(ServiceAccount, ns, SERVICE_ACCOUNT), [], ServiceAccountBody(j.spec.rdsRoleArn), FRESH)
  }

  function GetChangeRootPasswordJob(j: Jira, ns: string, dbInstance: string): Obj
  {
    Obj(Key(Job, ns, j.name + "-reset-rds-credentials"), [],
        ResetJobBody(GetServiceAccount(j, ns).key.name, dbInstance, j.spec.region, SECRET_NAME), FRESH)
  }

  function GetLiquibaseConfigMap(j: Jira, ns: string, changelog: string): Obj
  {
    Obj(Key(ConfigMap, ns, j.name + "-liquibase-changelog"), Owners(j), ConfigMapBody(changelog), FRESH)
  }

  function GetLiquibaseJob(j: Jira, ns: string): Obj
  {
    Obj(Key(Job, ns, j.name + "-liquibase-changeset"), [],
        LiquibaseJobBody(SECRET_NAME, j.name + "-liquibase-changelog"), FRESH)
  }

  // ---- crossplane/ebs.go, k8s/volume.go, k8s/nfs.go --------------------------------------

  function GetEbsVolume(j: Jira): Obj
  {
    Obj(Key(EbsVolume, "", CloudName(j)), Owners(j),
        EbsVolumeBody(j.spec.region, j.spec.region + j.spec.sharedFs.ebs.zone, j.spec.kmsKeyId != "",
                      j.spec.sharedFs.volumeSize, j.spec.sharedFs.ebs.snapshotId, j.spec.kmsKeyId,
                      j.spec.provider, Policy(j)),
        FRESH)
  }

  function GetEbsPersistentVolume(j: Jira, volumeId: string, name: string, size: int, ns: string): Obj
  {
    Obj(Key(PersistentVolume, "", name + "-" + j.uid), Owners(j),
        PvBody(size, AwsEbs(volumeId, j.spec.sharedFs.ebs.fsType), ReadWriteOnce,
               Key(PersistentVolumeClaim, ns, name), j.spec.sharedFs.ebs.storageClass, Zones(j)),
        FRESH)
  }

  function GetNfsPersistentVolume(j: Jira, clusterIp: string, size: int, ns: string): Obj
  {
    Obj(Key(PersistentVolume, "", SharedVolumeName(j)), Owners(j),
        PvBody(size, Nfs(clusterIp, "/srv/nfs"), ReadWriteMany,
               Key(PersistentVolumeClaim, ns, SHARED_HOME), j.spec.sharedFs.ebs.storageClass, []),
        FRESH)
  }

  function GetEfsPersistentVolume(j: Jira, efsId: string, ns: string): Obj
  {
    Obj(Key(PersistentVolume, "", SharedVolumeName(j)), Owners(j),
        PvBody(10, Csi(j.spec.sharedFs.efs.csiDriver, efsId), ReadWriteMany,
               Key(PersistentVolumeClaim, ns, SHARED_HOME), j.spec.sharedFs.efs.storageClass, []),
        FRESH)
  }

  function GetPersistentVolumeClaim(
    j: Jira, name: string, ns: string, volumeName: string, storageClass: string, size: int, mode: AccessMode): Obj
  {
    Obj(Key(PersistentVolumeClaim, ns, name), Owners(j),
        PvcBody(size, mode, volumeName, storageClass, None), FRESH)
  }

  function GetNfsServerService(j: Jira, ns: string): Obj
  {
    Obj(Key(Service, ns, NfsName(j)), Owners(j), ServiceBody(2049), FRESH)
  }

  function GetNfsServerStatefulSet(j: Jira, ns: string): Obj
  {
    Obj(Key(StatefulSet, ns, NfsName(j)), Owners(j), StatefulSetBody(NfsName(j), Zones(j), "nfs-server"), FRESH)
  }

  function GetFsxVolumeSnapshotContent(j: Jira, ns: string): Obj
  {
    Obj(Key(VolumeSnapshotContent, "", CloudName(j)), Owners(j),
        SnapshotContentBody(Key(VolumeSnapshot, ns, CloudName(j)), j.spec.sharedFs.fsx.csiDriver,
                            j.spec.sharedFs.fsx.snapshotClass, j.spec.sharedFs.fsx.snapshotId),
        FRESH)
  }

  function GetFsxVolumeSnapshot(j: Jira, ns: string): Obj
  {
    Obj(Key(VolumeSnapshot, ns, CloudName(j)), Owners(j),
        SnapshotBody(CloudName(j), j.spec.sharedFs.fsx.snapshotClass), FRESH)
  }

  function GetFsxPersistentVolumeClaimFromSnapshot(j: Jira, name: string, ns: string, size: int): Obj
  {
    Obj(Key(PersistentVolumeClaim, ns, name), Owners(j),
        PvcBody(size, ReadWriteMany, "", j.spec.sharedFs.fsx.restoreClass, Some(CloudName(j))), FRESH)
  }

  // ---- crossplane/efs.go -----------------------------------------------------------------

  function GetFileSystem(j: Jira, ns: string): Obj
  {
    Obj(Key(FileSystem, "", CloudName(j)), Owners(j),
        FileSystemBody(j.spec.region, j.spec.kmsKeyId, Key(Secret, ns, j.name + "-efs-secret"),
                       j.spec.provider, Policy(j)),
        FRESH)
  }

  function GetMountTarget(j: Jira, fileSystemId: string, subnetId: string, i: nat): Obj
  {
    Obj(Key(MountTarget, "", MountTargetName(j, i)), Owners(j),
        MountTargetBody(j.spec.region, fileSystemId, subnetId, j.spec.network.securityGroupIds,
                        j.spec.provider, Policy(j)),
        FRESH)
  }

  // ---- argocd/applicationset.go ----------------------------------------------------------

  /** The template emits ownerReferences only when the set is not to be retained. */
  function GetApplicationSet(j: Jira): Obj
  {
    Obj(Key(ApplicationSet, j.spec.argo.namespace, j.name),
        if j.spec.argo.retainOnDelete then [] else Owners(j),
        ApplicationSetBody(Template.Manifest(j)), FRESH)
  }

  function ManifestPath(j: Jira): string { "argocd/applicationset-" + j.name + ".yaml" }
}
