/** The Jira custom resource and the objects of the API server, as the operator sees them. */
module Api {

  datatype Option<+T> = None | Some(value: T)

  // ---- the custom resource -------------------------------------------------------------

  datatype DatabaseSpec = DatabaseSpec(
    instanceClass: string, allocatedStorage: int, engine: string, engineVersion: string, snapshotId: string)

  datatype FsxSpec = FsxSpec(snapshotId: string, restoreClass: string, snapshotClass: string, csiDriver: string)

  datatype EfsSpec = EfsSpec(storageClass: string, csiDriver: string)

  datatype EbsSpec = EbsSpec(storageClass: string, fsType: string, snapshotId: string, zone: string)

  datatype SharedFs = SharedFs(volumeSize: int, ebs: EbsSpec, efs: EfsSpec, fsx: FsxSpec)

  datatype ArgoSpec = ArgoSpec(
    namespace: string, project: string, autoSync: bool, applyOutOfSyncOnly: bool, retainOnDelete: bool,
    chartRepo: string, chartVersion: string, gitRepo: string, gitRevision: string,
    valuesFiles: seq<string>, valueOverrides: string)

  datatype Network = Network(subnetIds: seq<string>, securityGroupIds: seq<string>)

  datatype JiraSpec = JiraSpec(
    region: string, retainOnDelete: bool, database: DatabaseSpec, hostname: string, provider: string,
    argo: ArgoSpec, sharedFs: SharedFs, network: Network, kmsKeyId: string, rdsRoleArn: string)

  datatype JiraStatus = JiraStatus(
    rdsStatus: string, endpoint: string, resetJob: string, liquibaseJob: string,
    ebsId: string, fsxId: string, efsId: string, sync: string, health: string)

  const NO_STATUS := JiraStatus("", "", "", "", "", "", "", "", "")

  /** version is the resourceVersion that guards status updates. */
  datatype Jira = Jira(name: string, uid: string, spec: JiraSpec, status: JiraStatus, version: nat)

  // ---- stored objects ------------------------------------------------------------------

  datatype Kind =
    | Namespace | ParameterGroup | SubnetGroup | Secret | RdsInstance | ServiceAccount | Job | ConfigMap
    | EbsVolume | PersistentVolume | PersistentVolumeClaim | Service | StatefulSet
    | VolumeSnapshotContent | VolumeSnapshot | FileSystem | MountTarget | ApplicationSet

  /** Cluster-scoped objects have the empty namespace. */
  datatype Key = Key(kind: Kind, ns: string, name: string)

  datatype OwnerRef = OwnerRef(apiVersion: string, kind: string, name: string, uid: string, controller: bool)

  datatype DeletionPolicy = Default | Orphan

  datatype AccessMode = ReadWriteOnce | ReadWriteMany

  datatype SecretData = SecretData(
    hostname: string, url: string, jdbcUrl: string, username: string,
    password: string, appPassword: string, appRoPassword: string)

  datatype VolumeSource =
    | Nfs(server: string, path: string)
    | Csi(driver: string, handle: string)
    | AwsEbs(volumeId: string, fsType: string)

  datatype Body =
    | NamespaceBody(ownedBy: string)
    | ParameterGroupBody(region: string, family: string, provider: string)
    | SubnetGroupBody(region: string, description: string, subnetIds: seq<string>, provider: string)
    | SecretBody(data: SecretData)
    | RdsBody(
        region: string, storage: int, instanceClass: string, securityGroups: seq<string>,
        parameterGroup: string, subnetGroup: string, engine: string, engineVersion: string, kmsKey: string,
        passwordSecret: Key, passwordKey: string, restoreFrom: Option<string>, connectionSecret: Key,
        provider: string, deletion: DeletionPolicy)
    | ServiceAccountBody(roleArn: string)
    | ResetJobBody(serviceAccount: string, dbInstance: string, region: string, passwordSecretName: string)
    | ConfigMapBody(changelog: string)
    | LiquibaseJobBody(secretName: string, configMapName: string)
    | EbsVolumeBody(
        region: string, zone: string, encrypted: bool, size: int, snapshotId: string, kmsKey: string,
        provider: string, deletion: DeletionPolicy)
    | PvBody(
        size: int, source: VolumeSource, mode: AccessMode, claim: Key, storageClass: string,
        zones: seq<string>)
    | PvcBody(
        size: int, mode: AccessMode, volumeName: string, storageClass: string, dataSource: Option<string>)
    | ServiceBody(port: int)
    | StatefulSetBody(claimName: string, zones: seq<string>, serviceName: string)
    | SnapshotContentBody(snapshot: Key, driver: string, snapshotClass: string, handle: string)
    | SnapshotBody(contentName: string, snapshotClass: string)
    | FileSystemBody(
        region: string, kmsKey: string, connectionSecret: Key, provider: string, deletion: DeletionPolicy)
    | MountTargetBody(
        region: string, fileSystemId: string, subnetId: string, securityGroups: seq<string>,
        provider: string, deletion: DeletionPolicy)
    | ApplicationSetBody(manifest: string)

  /** What providers and cluster controllers write into an object after its creation. */
  datatype Live = Live(
    rdsStatus: string, endpoint: string, succeeded: int, volumeId: Option<string>,
    fileSystemId: Option<string>, lifeCycle: Option<string>, clusterIp: string, readyReplicas: int,
    phase: string, boundVolume: string)

  const FRESH := Live("", "", 0, None, None, None, "", 0, "", "")

  datatype Obj = Obj(key: Key, owners: seq<OwnerRef>, body: Body, live: Live)

  /** The Argo CD application that the ApplicationSet gives rise to. */
  datatype Application = Application(sync: string, health: string)

  /** Everything that outlives a crash of the manager. files are the rendered manifests on disk. */
  datatype World = World(
    store: map<Key, Obj>, cr: Jira, files: map<string, Obj>, changelog: Option<string>,
    app: Option<Application>)

  /** The three passwords that one call of GetRdsSecret draws. */
  datatype Draw = Draw(password: string, appPassword: string, appRoPassword: string)
}
