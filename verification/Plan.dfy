/** What one pass of Reconcile does, as a straight-line program that the spec determines. */
module Plan {
  import opened Api
  import opened Text
  import opened Builders

  /** The objects a pass creates. */
  datatype Item =
    | NamespaceItem | ParameterGroupItem | SubnetGroupItem | DbSecret | Rds
    | ResetAccount | ResetJob | ChangelogMap | LiquibaseJob
    | Volume | NfsPv | NfsPvc | NfsService | NfsStatefulSet | SharedNfsPv | SharedNfsPvc
    | SnapshotContent | Snapshot | FsxPvc
    | SharedFileSystem | Target(i: nat) | EfsPv | EfsPvc
    | AppSet

  /** What a pass reads. */
  datatype Query =
    | RdsStatus | RdsEndpoint | SecretHost | ResetCount | Changelog | ChangelogData | LiquibaseCount
    | VolumeId | ServiceIp | ReadyReplicas | ClaimPhase | ClaimVolume | VolumeHandle
    | FileSystemId | TargetState(i: nat) | AppSync | AppHealth

  /** The conditions a pass waits for. */
  datatype Gate =
    | RdsAvailable | EndpointKnown | ResetDone | LiquibaseDone | VolumeIdKnown | ServiceIpKnown
    | NfsReady | ClaimBound | FileSystemIdKnown | TargetAvailable(i: nat)

  /** The status fields, one for each of the nine status updates. */
  datatype Field =
    | RdsStatusField | EndpointField | ResetField | LiquibaseField | EbsIdField | FsxIdField | EfsIdField
    | SyncField | HealthField

  datatype Instr =
    | Create(item: Item)
    | Read(query: Query)
    | Wait(gate: Gate)
    | Write(field: Field)
    | SyncSecret
    | SyncChangelog
    | RenderManifest
    | ApplyManifest
    | Finish

  datatype Backend = Ebs | Fsx | Efs

  function BackendOf(s: JiraSpec): Backend
  {
    if s.sharedFs.ebs.snapshotId != "" then Ebs
    else if s.sharedFs.fsx.snapshotId != "" then Fsx
    else Efs
  }

  // ---- the program, in the order of controllers/jira_controller.go -----------------------

  const DATABASE: seq<Instr> := [
    Create(NamespaceItem), Create(ParameterGroupItem), Create(SubnetGroupItem), Create(DbSecret), Create(Rds),
    Read(RdsStatus), Write(RdsStatusField), Wait(RdsAvailable),
    Read(RdsEndpoint), Wait(EndpointKnown),
    Read(SecretHost), SyncSecret, Write(EndpointField)]

  const RESET: seq<Instr> := [
    Create(ResetAccount), Create(ResetJob), Read(ResetCount), Wait(ResetDone), Write(ResetField)]

  const LIQUIBASE: seq<Instr> := [
    Read(Changelog), Create(ChangelogMap), Read(ChangelogData), SyncChangelog,
    Create(LiquibaseJob), Read(LiquibaseCount), Wait(LiquibaseDone), Write(LiquibaseField)]

  const EBS: seq<Instr> := [
    Create(Volume), Read(VolumeId), Wait(VolumeIdKnown),
    Create(NfsPv), Create(NfsPvc), Create(NfsService), Read(ServiceIp), Wait(ServiceIpKnown),
    Create(NfsStatefulSet), Read(ReadyReplicas), Wait(NfsReady),
    Create(SharedNfsPv), Create(SharedNfsPvc), Write(EbsIdField)]

  const FSX: seq<Instr> := [
    Create(SnapshotContent), Create(Snapshot), Create(FsxPvc), Read(ClaimPhase), Wait(ClaimBound),
    Read(ClaimVolume), Read(VolumeHandle), Write(FsxIdField)]

  const EFS_HEAD: seq<Instr> := [Create(SharedFileSystem), Read(FileSystemId), Wait(FileSystemIdKnown)]

  const EFS_TAIL: seq<Instr> := [Create(EfsPv), Create(EfsPvc), Write(EfsIdField)]

  const PUBLISH: seq<Instr> := [
    RenderManifest, ApplyManifest, Read(AppSync), Write(SyncField), Read(AppHealth), Write(HealthField), Finish]

  /** One round of the mount-target loop: create, read, wait. */
  function TargetInstr(k: nat): Instr
  {
    if k % 3 == 0 then Create(Target(k / 3))
    else if k % 3 == 1 then Read(TargetState(k / 3))
    else Wait(TargetAvailable(k / 3))
  }

  function Targets(n: nat): seq<Instr>
  {
    seq(3 * n, (k: nat) => TargetInstr(k))
  }

  function Storage(s: JiraSpec): seq<Instr>
  {
    match BackendOf(s)
    case Ebs => EBS
    case Fsx => FSX
    case Efs => EFS_HEAD + Targets(|s.network.subnetIds|) + EFS_TAIL
  }

  function Reset(s: JiraSpec): seq<Instr>
  {
    if s.database.snapshotId != "" then RESET else []
  }

  function Prog(s: JiraSpec): seq<Instr>
  {
    DATABASE + Reset(s) + LIQUIBASE + Storage(s) + PUBLISH
  }

  function At(s: JiraSpec, pos: nat): Instr
  {
    if pos < |Prog(s)| then Prog(s)[pos] else Finish
  }

  function ResetAt(s: JiraSpec): nat { |DATABASE| }
  function LiquibaseAt(s: JiraSpec): nat { ResetAt(s) + |Reset(s)| }
  function StorageAt(s: JiraSpec): nat { LiquibaseAt(s) + |LIQUIBASE| }
  function PublishAt(s: JiraSpec): nat { StorageAt(s) + |Storage(s)| }

  // ---- names ---------------------------------------------------------------------------

  function ItemKey(item: Item, j: Jira): Key
  {
    match item
    case NamespaceItem => Key(Namespace, "", j.name)
    case ParameterGroupItem => Key(ParameterGroup, "", CloudName(j))
    case SubnetGroupItem => Key(SubnetGroup, "", CloudName(j))
    case DbSecret => Key(Secret, j.name, SECRET_NAME)
    case Rds => Key(RdsInstance, "", CloudName(j))
    case ResetAccount => Key(ServiceAccount, j.name, SERVICE_ACCOUNT)
    case ResetJob => Key(Job, j.name, j.name + "-reset-rds-credentials")
    case ChangelogMap => Key(ConfigMap, j.name, j.name + "-liquibase-changelog")
    case LiquibaseJob => Key(Job, j.name, j.name + "-liquibase-changeset")
    case Volume => Key(EbsVolume, "", CloudName(j))
    case NfsPv => Key(PersistentVolume, "", NfsName(j) + "-" + j.uid)
    case NfsPvc => Key(PersistentVolumeClaim, j.name, NfsName(j))
    case NfsService => Key(Service, j.name, NfsName(j))
    case NfsStatefulSet => Key(StatefulSet, j.name, NfsName(j))
    case SharedNfsPv => Key(PersistentVolume, "", SharedVolumeName(j))
    case SharedNfsPvc => Key(PersistentVolumeClaim, j.name, SHARED_HOME)
    case SnapshotContent => Key(VolumeSnapshotContent, "", CloudName(j))
    case Snapshot => Key(VolumeSnapshot, j.name, CloudName(j))
    case FsxPvc => Key(PersistentVolumeClaim, j.name, SHARED_HOME)
    case SharedFileSystem => Key(FileSystem, "", CloudName(j))
    case Target(i) => Key(MountTarget, "", MountTargetName(j, i))
    case EfsPv => Key(PersistentVolume, "", SharedVolumeName(j))
    case EfsPvc => Key(PersistentVolumeClaim, j.name, SHARED_HOME)
    case AppSet => Key(ApplicationSet, j.spec.argo.namespace, j.name)
  }

  /** The item an instruction brings into being, if any. */
  function Makes(i: Instr): Option<Item>
  {
    match i
    case Create(item) => Some(item)
    case ApplyManifest => Some(AppSet)
    case _ => None
  }

  /** The backends whose branch creates an item. */
  predicate BelongsTo(item: Item, b: Backend)
  {
    match item
    case Volume => b == Ebs
    case NfsPv => b == Ebs
    case NfsPvc => b == Ebs
    case NfsService => b == Ebs
    case NfsStatefulSet => b == Ebs
    case SharedNfsPv => b == Ebs
    case SharedNfsPvc => b == Ebs
    case SnapshotContent => b == Fsx
    case Snapshot => b == Fsx
    case FsxPvc => b == Fsx
    case SharedFileSystem => b == Efs
    case Target(_) => b == Efs
    case EfsPv => b == Efs
    case EfsPvc => b == Efs
    case _ => true
  }

  /** The key and the name of each item do not depend on the spec, except for the ApplicationSet's namespace. */
  predicate SameIdentity(a: Jira, b: Jira)
  {
    a.name == b.name && a.uid == b.uid
  }

  lemma KeyDependsOnIdentity(item: Item, a: Jira, b: Jira)
    requires SameIdentity(a, b) && a.spec.argo.namespace == b.spec.argo.namespace
    ensures ItemKey(item, a) == ItemKey(item, b)
  {
  }

  // ---- layout --------------------------------------------------------------------------

  lemma EfsLayout(s: JiraSpec, k: nat)
    requires BackendOf(s) == Efs && k < |Storage(s)|
    ensures var n := |s.network.subnetIds|;
            && |Storage(s)| == 6 + 3 * n
            && Storage(s)[k] ==
               if k < 3 then EFS_HEAD[k]
               else if k < 3 + 3 * n then TargetInstr(k - 3)
               else EFS_TAIL[k - 3 - 3 * n]
  {
  }

  /** An instruction's segment, for case analysis. */
  lemma Segments(s: JiraSpec, n: nat)
    requires n < |Prog(s)|
    ensures var i := Prog(s)[n];
            if n < ResetAt(s) then i == DATABASE[n]
            else if n < LiquibaseAt(s) then s.database.snapshotId != "" && i == RESET[n - ResetAt(s)]
            else if n < StorageAt(s) then i == LIQUIBASE[n - LiquibaseAt(s)]
            else if n < PublishAt(s) then i == Storage(s)[n - StorageAt(s)]
            else i == PUBLISH[n - PublishAt(s)]
  {
  }

  lemma ProgLength(s: JiraSpec)
    ensures |Prog(s)| == PublishAt(s) + 7 >= 28
  {
  }

  // ---- every item of one program has its own key -----------------------------------------

  lemma SuffixesDiffer(a: string, x: string, b: string, post: string)
    requires |x| > 0 && |b| > 0 && x[|x| - 1] != b[|b| - 1]
    ensures a + x + post != b + post
  {
    if |a + x| == |b| {
      assert (a + x + post)[|b| - 1] == x[|x| - 1];
      assert (b + post)[|b| - 1] == b[|b| - 1];
    }
  }

  lemma TargetNamesDiffer(j: Jira, i: nat, k: nat)
    requires MountTargetName(j, i) == MountTargetName(j, k)
    ensures i == k
  {
    assert j.name + Itoa(i) + ("-" + j.uid) == MountTargetName(j, i);
    assert j.name + Itoa(k) + ("-" + j.uid) == MountTargetName(j, k);
    MiddleCancels(j.name, Itoa(i), Itoa(k), "-" + j.uid);
    ItoaInjective(i, k);
  }

  lemma TargetKey(j: Jira, i: nat)
    ensures ItemKey(Target(i), j) == Key(MountTarget, "", j.name + Itoa(i) + "-" + j.uid)
  {
  }

  /** The name of a mount target carries its index in decimal. */
  lemma TargetNamed(j: Jira, i: nat, digits: string)
    requires Decimal(digits, i)
    ensures ItemKey(Target(i), j) == Key(MountTarget, "", j.name + digits + "-" + j.uid)
  {
    hide ItemKey, Decimal, Value, Itoa;
    TargetKey(j, i);
    ItoaIsDecimal(i);
    OneDecimal(digits, Itoa(i), i);
  }

  lemma DatabaseNames(j: Jira)
    ensures var n, cloud := j.name, j.name + "-" + j.uid;
            && ItemKey(NamespaceItem, j) == Key(Namespace, "", n)
            && ItemKey(ParameterGroupItem, j) == Key(ParameterGroup, "", cloud)
            && ItemKey(SubnetGroupItem, j) == Key(SubnetGroup, "", cloud)
            && ItemKey(DbSecret, j) == Key(Secret, n, "jira-database-secret")
            && ItemKey(Rds, j) == Key(RdsInstance, "", cloud)
            && ItemKey(ResetAccount, j) == Key(ServiceAccount, n, "rds-reset-password-sa")
            && ItemKey(AppSet, j) == Key(ApplicationSet, j.spec.argo.namespace, n)
  {
  }

  lemma JobNames(j: Jira)
    ensures var n := j.name;
            && ItemKey(ResetJob, j) == Key(Job, n, n + "-reset-rds-credentials")
            && ItemKey(ChangelogMap, j) == Key(ConfigMap, n, n + "-liquibase-changelog")
            && ItemKey(LiquibaseJob, j) == Key(Job, n, n + "-liquibase-changeset")
  {
  }

  lemma NfsNames(j: Jira)
    ensures var n, cloud := j.name, j.name + "-" + j.uid;
            && ItemKey(Volume, j) == Key(EbsVolume, "", cloud)
            && ItemKey(NfsPv, j) == Key(PersistentVolume, "", n + "-nfs-server" + "-" + j.uid)
            && ItemKey(NfsPvc, j) == Key(PersistentVolumeClaim, n, n + "-nfs-server")
            && ItemKey(NfsService, j) == Key(Service, n, n + "-nfs-server")
            && ItemKey(NfsStatefulSet, j) == Key(StatefulSet, n, n + "-nfs-server")
  {
  }

  lemma SharedNames(j: Jira)
    ensures var n, cloud := j.name, j.name + "-" + j.uid;
            && ItemKey(SharedNfsPv, j) == Key(PersistentVolume, "", "jira-shared-home-pv" + "-" + j.uid)
            && ItemKey(SharedNfsPvc, j) == Key(PersistentVolumeClaim, n, "jira-shared-home")
            && ItemKey(SnapshotContent, j) == Key(VolumeSnapshotContent, "", cloud)
            && ItemKey(Snapshot, j) == Key(VolumeSnapshot, n, cloud)
            && ItemKey(FsxPvc, j) == Key(PersistentVolumeClaim, n, "jira-shared-home")
            && ItemKey(SharedFileSystem, j) == Key(FileSystem, "", cloud)
            && ItemKey(EfsPv, j) == Key(PersistentVolume, "", "jira-shared-home-pv" + "-" + j.uid)
            && ItemKey(EfsPvc, j) == Key(PersistentVolumeClaim, n, "jira-shared-home")
  {
  }

  /** The kind, namespace and name of every other object, in full. */
  lemma NamesOfPlan(j: Jira)
    ensures var n, cloud := j.name, j.name + "-" + j.uid;
            && ItemKey(NamespaceItem, j) == Key(Namespace, "", n)
            && ItemKey(ParameterGroupItem, j) == Key(ParameterGroup, "", cloud)
            && ItemKey(SubnetGroupItem, j) == Key(SubnetGroup, "", cloud)
            && ItemKey(DbSecret, j) == Key(Secret, n, "jira-database-secret")
            && ItemKey(Rds, j) == Key(RdsInstance, "", cloud)
            && ItemKey(ResetAccount, j) == Key(ServiceAccount, n, "rds-reset-password-sa")
            && ItemKey(AppSet, j) == Key(ApplicationSet, j.spec.argo.namespace, n)
            && ItemKey(ResetJob, j) == Key(Job, n, n + "-reset-rds-credentials")
            && ItemKey(ChangelogMap, j) == Key(ConfigMap, n, n + "-liquibase-changelog")
            && ItemKey(LiquibaseJob, j) == Key(Job, n, n + "-liquibase-changeset")
            && ItemKey(Volume, j) == Key(EbsVolume, "", cloud)
            && ItemKey(NfsPv, j) == Key(PersistentVolume, "", n + "-nfs-server" + "-" + j.uid)
            && ItemKey(NfsPvc, j) == Key(PersistentVolumeClaim, n, n + "-nfs-server")
            && ItemKey(NfsService, j) == Key(Service, n, n + "-nfs-server")
            && ItemKey(NfsStatefulSet, j) == Key(StatefulSet, n, n + "-nfs-server")
            && ItemKey(SharedNfsPv, j) == Key(PersistentVolume, "", "jira-shared-home-pv" + "-" + j.uid)
            && ItemKey(SharedNfsPvc, j) == Key(PersistentVolumeClaim, n, "jira-shared-home")
            && ItemKey(SnapshotContent, j) == Key(VolumeSnapshotContent, "", cloud)
            && ItemKey(Snapshot, j) == Key(VolumeSnapshot, n, cloud)
            && ItemKey(FsxPvc, j) == Key(PersistentVolumeClaim, n, "jira-shared-home")
            && ItemKey(SharedFileSystem, j) == Key(FileSystem, "", cloud)
            && ItemKey(EfsPv, j) == Key(PersistentVolume, "", "jira-shared-home-pv" + "-" + j.uid)
            && ItemKey(EfsPvc, j) == Key(PersistentVolumeClaim, n, "jira-shared-home")
  {
    hide ItemKey;
    DatabaseNames(j);
    JobNames(j);
    NfsNames(j);
    SharedNames(j);
  }

  lemma KeysDistinct(a: Item, b: Item, j: Jira, backend: Backend)
    requires BelongsTo(a, backend) && BelongsTo(b, backend)
    requires ItemKey(a, j) == ItemKey(b, j)
    ensures a == b
  {
    SuffixesDiffer(j.name, "-nfs-server", "jira-shared-home-pv", "-" + j.uid);
    SuffixesDiffer(j.name, "-nfs-server", SHARED_HOME, "");
    assert j.name + "-nfs-server" + "" == NfsName(j);
    assert SHARED_HOME + "" == SHARED_HOME;
    assert j.name + "-nfs-server" + ("-" + j.uid) == NfsName(j) + "-" + j.uid;
    assert "jira-shared-home-pv" + ("-" + j.uid) == SharedVolumeName(j);
    assert |j.name + "-reset-rds-credentials"| != |j.name + "-liquibase-changeset"|;
    if a.Target? && b.Target? {
      TargetNamesDiffer(j, a.i, b.i);
    }
  }

  /** What an instruction of the program looks like: no item is foreign to the backend. */
  ghost predicate Fits(i: Instr, s: JiraSpec)
  {
    && (Makes(i).Some? ==> BelongsTo(Makes(i).value, BackendOf(s)))
    && i != Create(AppSet)
    && (i == Write(EbsIdField) ==> BackendOf(s) == Ebs)
    && (i == Write(FsxIdField) ==> BackendOf(s) == Fsx)
    && (i == Write(EfsIdField) ==> BackendOf(s) == Efs)
  }

  lemma StorageFits(s: JiraSpec, k: nat)
    requires k < |Storage(s)|
    ensures Fits(Storage(s)[k], s)
  {
    match BackendOf(s)
    case Ebs => assert EBS[k] == Storage(s)[k];
    case Fsx => assert FSX[k] == Storage(s)[k];
    case Efs => EfsLayout(s, k);
  }

  lemma ItemsFit(s: JiraSpec, n: nat)
    requires n < |Prog(s)|
    ensures Fits(Prog(s)[n], s)
  {
    Segments(s, n);
    hide Prog, Storage;
    if StorageAt(s) <= n < PublishAt(s) {
      StorageFits(s, n - StorageAt(s));
    } else {
      hide BackendOf, StorageAt, PublishAt, LiquibaseAt;
    }
  }

  /** Only the last instruction finishes a pass. */
  lemma FinishIsLast(s: JiraSpec, n: nat)
    requires n < |Prog(s)|
    ensures Prog(s)[n] == Finish <==> n + 1 == |Prog(s)|
  {
    Segments(s, n);
    if StorageAt(s) <= n < PublishAt(s) {
      StorageKind(s, n - StorageAt(s));
    }
  }

  lemma StorageKind(s: JiraSpec, k: nat)
    requires k < |Storage(s)|
    ensures Storage(s)[k] != Finish && Storage(s)[k] != ApplyManifest && Storage(s)[k] != RenderManifest
  {
    match BackendOf(s)
    case Ebs => assert EBS[k] == Storage(s)[k];
    case Fsx => assert FSX[k] == Storage(s)[k];
    case Efs => EfsLayout(s, k);
  }

  // ---- no instruction occurs twice -------------------------------------------------------

  /** A number that tells the instructions of one program apart and grows along it. */
  function Rank(i: Instr, s: JiraSpec): int
  {
    match i
    case Create(item) =>
      (match item
       case NamespaceItem => 0
       case ParameterGroupItem => 1
       case SubnetGroupItem => 2
       case DbSecret => 3
       case Rds => 4
       case ResetAccount => 13
       case ResetJob => 14
       case ChangelogMap => LiquibaseAt(s) + 1
       case LiquibaseJob => LiquibaseAt(s) + 4
       case Volume => StorageAt(s)
       case NfsPv => StorageAt(s) + 3
       case NfsPvc => StorageAt(s) + 4
       case NfsService => StorageAt(s) + 5
       case NfsStatefulSet => StorageAt(s) + 8
       case SharedNfsPv => StorageAt(s) + 11
       case SharedNfsPvc => StorageAt(s) + 12
       case SnapshotContent => StorageAt(s)
       case Snapshot => StorageAt(s) + 1
       case FsxPvc => StorageAt(s) + 2
       case SharedFileSystem => StorageAt(s)
       case Target(i) => StorageAt(s) + 3 + 3 * i
       case EfsPv => PublishAt(s) - 3
       case EfsPvc => PublishAt(s) - 2
       case AppSet => PublishAt(s) + 1)
    case Read(q) =>
      (match q
       case RdsStatus => 5
       case RdsEndpoint => 8
       case SecretHost => 10
       case ResetCount => 15
       case Changelog => LiquibaseAt(s)
       case ChangelogData => LiquibaseAt(s) + 2
       case LiquibaseCount => LiquibaseAt(s) + 5
       case VolumeId => StorageAt(s) + 1
       case ServiceIp => StorageAt(s) + 6
       case ReadyReplicas => StorageAt(s) + 9
       case ClaimPhase => StorageAt(s) + 3
       case ClaimVolume => StorageAt(s) + 5
       case VolumeHandle => StorageAt(s) + 6
       case FileSystemId => StorageAt(s) + 1
       case TargetState(i) => StorageAt(s) + 4 + 3 * i
       case AppSync => PublishAt(s) + 2
       case AppHealth => PublishAt(s) + 4)
    case Wait(g) =>
      (match g
       case RdsAvailable => 7
       case EndpointKnown => 9
       case ResetDone => 16
       case LiquibaseDone => LiquibaseAt(s) + 6
       case VolumeIdKnown => StorageAt(s) + 2
       case ServiceIpKnown => StorageAt(s) + 7
       case NfsReady => StorageAt(s) + 10
       case ClaimBound => StorageAt(s) + 4
       case FileSystemIdKnown => StorageAt(s) + 2
       case TargetAvailable(i) => StorageAt(s) + 5 + 3 * i)
    case Write(f) =>
      (match f
       case RdsStatusField => 6
       case EndpointField => 12
       case ResetField => 17
       case LiquibaseField => LiquibaseAt(s) + 7
       case EbsIdField => StorageAt(s) + 13
       case FsxIdField => StorageAt(s) + 7
       case EfsIdField => PublishAt(s) - 1
       case SyncField => PublishAt(s) + 3
       case HealthField => PublishAt(s) + 5)
    case SyncSecret => 11
    case SyncChangelog => LiquibaseAt(s) + 3
    case RenderManifest => PublishAt(s)
    case ApplyManifest => PublishAt(s) + 1
    case Finish => PublishAt(s) + 6
  }

  lemma TargetRank(s: JiraSpec, k: nat)
    ensures Rank(TargetInstr(k), s) == StorageAt(s) + 3 + k
  {
    hide StorageAt, PublishAt, LiquibaseAt;
    assert k == 3 * (k / 3) + k % 3;
  }

  lemma EbsRank(s: JiraSpec, k: nat)
    requires k < |EBS|
    ensures Rank(EBS[k], s) == StorageAt(s) + k
  {
    hide StorageAt, PublishAt, LiquibaseAt;
  }

  lemma FsxRank(s: JiraSpec, k: nat)
    requires k < |FSX|
    ensures Rank(FSX[k], s) == StorageAt(s) + k
  {
    hide StorageAt, PublishAt, LiquibaseAt;
  }

  lemma EfsRank(s: JiraSpec, k: nat)
    requires BackendOf(s) == Efs && k < |Storage(s)|
    ensures Rank(Storage(s)[k], s) == StorageAt(s) + k
  {
    EfsLayout(s, k);
    hide Storage, StorageAt;
    if 3 <= k < 3 + 3 * |s.network.subnetIds| {
      TargetRank(s, k - 3);
    }
  }

  lemma StorageRank(s: JiraSpec, k: nat)
    requires k < |Storage(s)|
    ensures Rank(Storage(s)[k], s) == StorageAt(s) + k
  {
    hide Rank, StorageAt;
    match BackendOf(s)
    case Ebs => EbsRank(s, k);
    case Fsx => FsxRank(s, k);
    case Efs => EfsRank(s, k);
  }

  lemma RankAt(s: JiraSpec, n: nat)
    requires n < |Prog(s)|
    ensures Rank(Prog(s)[n], s) == n
  {
    Segments(s, n);
    if StorageAt(s) <= n < PublishAt(s) {
      StorageRank(s, n - StorageAt(s));
    }
  }

  lemma ProgDistinct(s: JiraSpec, a: nat, b: nat)
    requires a < |Prog(s)| && b < |Prog(s)| && Prog(s)[a] == Prog(s)[b]
    ensures a == b
  {
    RankAt(s, a);
    RankAt(s, b);
  }
}
