/** The program of a pass, position by position, in the order of the statements of Reconcile. */
module Layout {
  import opened Api
  import opened Plan
  import Order
  import CleanPass

  lemma DatabaseInstr(s: JiraSpec, k: nat)
    requires k < |DATABASE| && |Prog(s)| >= 28
    ensures At(s, k) == DATABASE[k]
  {
    hide Prog, LiquibaseAt, StorageAt, PublishAt;
    CleanPass.Piece(s, k);
  }

  lemma DatabaseAt(s: JiraSpec)
    ensures ResetAt(s) == 13
    ensures At(s, 0) == Create(NamespaceItem) && At(s, 1) == Create(ParameterGroupItem) && At(s, 2) == Create(SubnetGroupItem)
    ensures At(s, 3) == Create(DbSecret) && At(s, 4) == Create(Rds)
    ensures At(s, 5) == Read(RdsStatus) && At(s, 6) == Write(RdsStatusField) && At(s, 7) == Wait(RdsAvailable)
    ensures At(s, 8) == Read(RdsEndpoint) && At(s, 9) == Wait(EndpointKnown)
    ensures At(s, 10) == Read(SecretHost) && At(s, 11) == SyncSecret && At(s, 12) == Write(EndpointField)
  {
    hide Prog, LiquibaseAt, StorageAt, PublishAt;
    ProgLength(s);
    hide At;
    DatabaseInstr(s, 0);
    DatabaseInstr(s, 1);
    DatabaseInstr(s, 2);
    DatabaseInstr(s, 3);
    DatabaseInstr(s, 4);
    DatabaseInstr(s, 5);
    DatabaseInstr(s, 6);
    DatabaseInstr(s, 7);
    DatabaseInstr(s, 8);
    DatabaseInstr(s, 9);
    DatabaseInstr(s, 10);
    DatabaseInstr(s, 11);
    DatabaseInstr(s, 12);
  }

  lemma ResetLayout(s: JiraSpec)
    ensures ResetAt(s) == 13 && LiquibaseAt(s) == if s.database.snapshotId != "" then 18 else 13
    ensures s.database.snapshotId != "" ==>
              && At(s, 13) == Create(ResetAccount) && At(s, 14) == Create(ResetJob)
              && At(s, 15) == Read(ResetCount) && At(s, 16) == Wait(ResetDone) && At(s, 17) == Write(ResetField)
  {
    ProgLength(s);
  }

  lemma PieceAt(s: JiraSpec, k: nat)
    requires k < |Prog(s)|
    ensures LiquibaseAt(s) <= k < StorageAt(s) ==> At(s, k) == LIQUIBASE[k - LiquibaseAt(s)]
    ensures PublishAt(s) <= k ==> At(s, k) == PUBLISH[k - PublishAt(s)]
    ensures |Prog(s)| == PublishAt(s) + 7 && StorageAt(s) == LiquibaseAt(s) + 8 <= PublishAt(s)
  {
    CleanPass.Piece(s, k);
    hide Prog, LiquibaseAt, StorageAt, PublishAt;
  }

  lemma LiquibaseLayout(s: JiraSpec)
    ensures var at := LiquibaseAt(s);
            && StorageAt(s) == at + 8
            && At(s, at) == Read(Changelog) && At(s, at + 1) == Create(ChangelogMap)
            && At(s, at + 2) == Read(ChangelogData) && At(s, at + 3) == SyncChangelog
            && At(s, at + 4) == Create(LiquibaseJob) && At(s, at + 5) == Read(LiquibaseCount)
            && At(s, at + 6) == Wait(LiquibaseDone) && At(s, at + 7) == Write(LiquibaseField)
  {
    ProgLength(s);
    hide Prog, At, LiquibaseAt, StorageAt, PublishAt;
    PieceAt(s, 0);
    var at := LiquibaseAt(s);
    PieceAt(s, at);
    PieceAt(s, at + 1);
    PieceAt(s, at + 2);
    PieceAt(s, at + 3);
    PieceAt(s, at + 4);
    PieceAt(s, at + 5);
    PieceAt(s, at + 6);
    PieceAt(s, at + 7);
  }

  lemma PublishLayout(s: JiraSpec)
    ensures var at := PublishAt(s);
            && At(s, at) == RenderManifest && At(s, at + 1) == ApplyManifest
            && At(s, at + 2) == Read(AppSync) && At(s, at + 3) == Write(SyncField)
            && At(s, at + 4) == Read(AppHealth) && At(s, at + 5) == Write(HealthField) && At(s, at + 6) == Finish
  {
    ProgLength(s);
    hide Prog, At, LiquibaseAt, StorageAt, PublishAt;
    var at := PublishAt(s);
    PieceAt(s, at);
    PieceAt(s, at + 1);
    PieceAt(s, at + 2);
    PieceAt(s, at + 3);
    PieceAt(s, at + 4);
    PieceAt(s, at + 5);
    PieceAt(s, at + 6);
  }

  lemma StorageInstr(s: JiraSpec, k: nat)
    requires k < |Storage(s)|
    ensures At(s, StorageAt(s) + k) == Storage(s)[k] && PublishAt(s) == StorageAt(s) + |Storage(s)|
  {
    Order.StorageInProg(s, k);
    hide Prog, Storage;
  }

  lemma StorageIs(s: JiraSpec)
    ensures BackendOf(s) == Ebs ==> Storage(s) == EBS
    ensures BackendOf(s) == Fsx ==> Storage(s) == FSX
  {
  }

  lemma EbsLayout(s: JiraSpec)
    requires BackendOf(s) == Ebs
    ensures var at := StorageAt(s);
            && PublishAt(s) == at + 14
            && At(s, at) == Create(Volume) && At(s, at + 1) == Read(VolumeId) && At(s, at + 2) == Wait(VolumeIdKnown)
            && At(s, at + 3) == Create(NfsPv) && At(s, at + 4) == Create(NfsPvc) && At(s, at + 5) == Create(NfsService)
            && At(s, at + 6) == Read(ServiceIp) && At(s, at + 7) == Wait(ServiceIpKnown)
            && At(s, at + 8) == Create(NfsStatefulSet) && At(s, at + 9) == Read(ReadyReplicas)
            && At(s, at + 10) == Wait(NfsReady) && At(s, at + 11) == Create(SharedNfsPv)
            && At(s, at + 12) == Create(SharedNfsPvc) && At(s, at + 13) == Write(EbsIdField)
  {
    hide Prog, At, Storage, StorageAt, PublishAt;
    StorageIs(s);
    StorageInstr(s, 0);
    StorageInstr(s, 1);
    StorageInstr(s, 2);
    StorageInstr(s, 3);
    StorageInstr(s, 4);
    StorageInstr(s, 5);
    StorageInstr(s, 6);
    StorageInstr(s, 7);
    StorageInstr(s, 8);
    StorageInstr(s, 9);
    StorageInstr(s, 10);
    StorageInstr(s, 11);
    StorageInstr(s, 12);
    StorageInstr(s, 13);
  }

  lemma FsxLayout(s: JiraSpec)
    requires BackendOf(s) == Fsx
    ensures var at := StorageAt(s);
            && PublishAt(s) == at + 8
            && At(s, at) == Create(SnapshotContent) && At(s, at + 1) == Create(Snapshot) && At(s, at + 2) == Create(FsxPvc)
            && At(s, at + 3) == Read(ClaimPhase) && At(s, at + 4) == Wait(ClaimBound)
            && At(s, at + 5) == Read(ClaimVolume) && At(s, at + 6) == Read(VolumeHandle) && At(s, at + 7) == Write(FsxIdField)
  {
    hide Prog, At, Storage, StorageAt, PublishAt;
    StorageIs(s);
    StorageInstr(s, 0);
    StorageInstr(s, 1);
    StorageInstr(s, 2);
    StorageInstr(s, 3);
    StorageInstr(s, 4);
    StorageInstr(s, 5);
    StorageInstr(s, 6);
    StorageInstr(s, 7);
  }

  lemma EfsInstr(s: JiraSpec, k: nat)
    requires BackendOf(s) == Efs && k < 6 + 3 * |s.network.subnetIds|
    ensures PublishAt(s) == StorageAt(s) + 6 + 3 * |s.network.subnetIds|
    ensures var n := |s.network.subnetIds|;
            At(s, StorageAt(s) + k) ==
            if k < 3 then EFS_HEAD[k] else if k < 3 + 3 * n then TargetInstr(k - 3) else EFS_TAIL[k - 3 - 3 * n]
  {
    Order.EfsLength(s);
    EfsLayout(s, k);
    StorageInstr(s, k);
    hide Prog, At, Storage, StorageAt, PublishAt, TargetInstr;
  }

  lemma EfsHeadLayout(s: JiraSpec)
    requires BackendOf(s) == Efs
    ensures var at := StorageAt(s);
            && At(s, at) == Create(SharedFileSystem) && At(s, at + 1) == Read(FileSystemId)
            && At(s, at + 2) == Wait(FileSystemIdKnown)
  {
    hide Prog, At, Storage, StorageAt, PublishAt, TargetInstr;
    EfsInstr(s, 0);
    EfsInstr(s, 1);
    EfsInstr(s, 2);
  }

  lemma EfsTailLayout(s: JiraSpec)
    requires BackendOf(s) == Efs
    ensures var at := StorageAt(s) + 3 + 3 * |s.network.subnetIds|;
            && PublishAt(s) == at + 3
            && At(s, at) == Create(EfsPv) && At(s, at + 1) == Create(EfsPvc) && At(s, at + 2) == Write(EfsIdField)
  {
    hide Prog, At, Storage, StorageAt, PublishAt, TargetInstr;
    var n := |s.network.subnetIds|;
    EfsInstr(s, 3 + 3 * n);
    EfsInstr(s, 4 + 3 * n);
    EfsInstr(s, 5 + 3 * n);
  }

  lemma TargetAt(s: JiraSpec, i: nat)
    requires BackendOf(s) == Efs && i < |s.network.subnetIds|
    ensures var at := StorageAt(s) + 3 + 3 * i;
            && At(s, at) == Create(Target(i)) && At(s, at + 1) == Read(TargetState(i)) && At(s, at + 2) == Wait(TargetAvailable(i))
  {
    Order.TargetLayout(s, i);
    hide Prog, StorageAt, PublishAt, Storage;
  }
}
