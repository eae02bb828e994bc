/** What the invariant of Safety means: prefix safety, gate safety, mount targets, one backend only. */
module Order {
  import opened Api
  import opened Builders
  import opened Plan
  import opened Machine
  import opened Safety

  /** The machine after any benign history that starts before anything was created. */
  ghost predicate Reachable(m: M, j: Jira)
  {
    exists m0: M, es: seq<Event> :: Clean(m0, j) && AllBenign(es, j) && m == Run(m0, es)
  }

  lemma ReachableInv(m: M, j: Jira)
    requires Reachable(m, j)
    ensures Inv(m, j)
  {
    hide Inv, Run;
    var m0: M, es: seq<Event> :| Clean(m0, j) && AllBenign(es, j) && m == Run(m0, es);
    CleanIsInv(m0, j);
    RunKeepsInv(m0, es, j);
  }

  // ---- prefix safety -------------------------------------------------------------------

  ghost predicate MadeBefore(k: Key, j: Jira, n: nat)
  {
    exists i: nat :: i < n && i < |Prog(j.spec)| && MakesKey(Prog(j.spec)[i], k, j)
  }

  /** The first instruction at or after n whose item does not exist. */
  ghost function FirstMissing(prog: seq<Instr>, m: M, j: Jira, n: nat): (r: nat)
    requires n <= |prog|
    ensures n <= r <= |prog|
    ensures forall i: nat | n <= i < r && Makes(prog[i]).Some? :: Done(prog[i], m, j)
    ensures r < |prog| ==> Makes(prog[r]).Some? && !Done(prog[r], m, j)
    decreases |prog| - n
  {
    if n == |prog| || (Makes(prog[n]).Some? && !Done(prog[n], m, j)) then n
    else FirstMissing(prog, m, j, n + 1)
  }

  /** In every reachable state the operator's objects are exactly those of a prefix of the plan. */
  lemma PrefixSafety(m: M, j: Jira) returns (n: nat)
    requires Reachable(m, j)
    ensures n <= |Prog(j.spec)|
    ensures forall k :: k in m.births <==> MadeBefore(k, j, n)
    ensures forall k :: PlanKey(k, j) ==> (k in m.w.store <==> k in m.births)
  {
    hide Prog, ItemKey, GetApplicationSet, Reachable;
    ReachableInv(m, j);
    n := FirstMissing(Prog(j.spec), m, j, 0);
    forall k
      ensures k in m.births <==> MadeBefore(k, j, n)
    {
      if k in m.births {
        var i: nat :| i < |Prog(j.spec)| && MakesKey(Prog(j.spec)[i], k, j);
        MakerDone(m, j, i, k);
        if n <= i {
          NothingAfterMissing(m, j, n, i);
        }
      }
      if MadeBefore(k, j, n) {
        var i: nat :| i < n && i < |Prog(j.spec)| && MakesKey(Prog(j.spec)[i], k, j);
        assert Done(Prog(j.spec)[i], m, j);
      }
    }
  }

  lemma MakerDone(m: M, j: Jira, i: nat, k: Key)
    requires i < |Prog(j.spec)| && MakesKey(Prog(j.spec)[i], k, j) && k in m.births
    ensures Done(Prog(j.spec)[i], m, j)
  {
    hide Prog, ItemKey;
  }

  lemma NothingAfterMissing(m: M, j: Jira, n: nat, i: nat)
    requires Inv(m, j)
    requires n <= i < |Prog(j.spec)| && Makes(Prog(j.spec)[n]).Some? && !Done(Prog(j.spec)[n], m, j)
    requires Makes(Prog(j.spec)[i]).Some?
    ensures !Done(Prog(j.spec)[i], m, j)
  {
    hide Prog, ItemKey, GetApplicationSet;
    assert Done(Prog(j.spec)[i], m, j) ==> Upto(m, j, i);
  }

  // ---- gate safety ---------------------------------------------------------------------

  /** Whatever precedes an existing object in the plan has been done. */
  lemma Behind(m: M, j: Jira, i: nat, k: Key)
    requires Inv(m, j) && i < |Prog(j.spec)| && MakesKey(Prog(j.spec)[i], k, j) && k in m.births
    ensures Upto(m, j, i)
  {
    hide Prog, ItemKey, GetApplicationSet;
    MakerDone(m, j, i, k);
  }

  lemma GateBehind(m: M, j: Jira, n: nat, i: nat)
    requires Upto(m, j, n) && i < n && i < |Prog(j.spec)| && Prog(j.spec)[i].Wait?
    ensures Prog(j.spec)[i].gate in m.seen
  {
    hide Prog, ItemKey;
    assert Done(Prog(j.spec)[i], m, j);
  }

  lemma ItemBehind(m: M, j: Jira, n: nat, i: nat)
    requires Upto(m, j, n) && i < n && i < |Prog(j.spec)| && Makes(Prog(j.spec)[i]).Some?
    ensures ItemKey(Makes(Prog(j.spec)[i]).value, j) in m.births
  {
    hide Prog, ItemKey;
    assert Done(Prog(j.spec)[i], m, j);
  }

  /** The database was seen available with an endpoint, and its password was reset when it came from a snapshot. */
  ghost predicate DatabaseSeen(m: M, j: Jira)
  {
    && RdsAvailable in m.seen && EndpointKnown in m.seen
    && (j.spec.database.snapshotId != "" ==> ResetDone in m.seen)
  }

  lemma DatabaseGates(m: M, j: Jira, n: nat)
    requires Upto(m, j, n) && LiquibaseAt(j.spec) <= n
    ensures DatabaseSeen(m, j)
  {
    var s := j.spec;
    ProgLength(s);
    assert Prog(s)[7] == Wait(RdsAvailable);
    assert Prog(s)[9] == Wait(EndpointKnown);
    assert s.database.snapshotId != "" ==> LiquibaseAt(s) == 18 && Prog(s)[16] == Wait(ResetDone);
    hide Prog;
    GateBehind(m, j, n, 7);
    GateBehind(m, j, n, 9);
    if s.database.snapshotId != "" {
      GateBehind(m, j, n, 16);
    }
  }

  lemma LiquibaseGate(m: M, j: Jira, n: nat)
    requires Upto(m, j, n) && StorageAt(j.spec) <= n
    ensures LiquibaseDone in m.seen
  {
    var i := LiquibaseAt(j.spec) + 6;
    ProgLength(j.spec);
    assert Prog(j.spec)[i] == Wait(LiquibaseDone);
    hide Prog;
    GateBehind(m, j, n, i);
  }

  lemma LiquibaseLayout(s: JiraSpec)
    ensures LiquibaseAt(s) + 4 < |Prog(s)|
    ensures Prog(s)[LiquibaseAt(s) + 1] == Create(ChangelogMap)
    ensures Prog(s)[LiquibaseAt(s) + 4] == Create(LiquibaseJob)
  {
    ProgLength(s);
  }

  /** No liquibase object exists before the database was seen ready. */
  lemma LiquibaseSafety(m: M, j: Jira)
    requires Reachable(m, j)
    requires ItemKey(ChangelogMap, j) in m.births || ItemKey(LiquibaseJob, j) in m.births
    ensures DatabaseSeen(m, j)
  {
    hide Prog, LiquibaseAt, ItemKey, Inv, Upto, Reachable;
    ReachableInv(m, j);
    var s := j.spec;
    LiquibaseLayout(s);
    var at := LiquibaseAt(s);
    if ItemKey(LiquibaseJob, j) in m.births {
      assert MakesKey(Prog(s)[at + 4], ItemKey(LiquibaseJob, j), j);
      Behind(m, j, at + 4, ItemKey(LiquibaseJob, j));
      DatabaseGates(m, j, at + 4);
    } else {
      assert MakesKey(Prog(s)[at + 1], ItemKey(ChangelogMap, j), j);
      Behind(m, j, at + 1, ItemKey(ChangelogMap, j));
      DatabaseGates(m, j, at + 1);
    }
  }

  predicate StorageKind(k: Kind)
  {
    match k
    case EbsVolume => true
    case PersistentVolume => true
    case PersistentVolumeClaim => true
    case Service => true
    case StatefulSet => true
    case VolumeSnapshotContent => true
    case VolumeSnapshot => true
    case FileSystem => true
    case MountTarget => true
    case _ => false
  }

  lemma StorageMakersComeLate(s: JiraSpec, n: nat, j: Jira)
    requires n < |Prog(s)| && Makes(Prog(s)[n]).Some? && StorageKind(ItemKey(Makes(Prog(s)[n]).value, j).kind)
    ensures StorageAt(s) <= n
  {
    RankAt(s, n);
    hide Prog;
  }

  /** No shared-filesystem object exists before the liquibase job was seen succeeded. */
  lemma StorageSafety(m: M, j: Jira, k: Key)
    requires Reachable(m, j) && k in m.births && StorageKind(k.kind)
    ensures DatabaseSeen(m, j) && LiquibaseDone in m.seen
  {
    ReachableInv(m, j);
    hide Prog, ItemKey, GetApplicationSet, Upto, Reachable, Ordered;
    var i: nat :| i < |Prog(j.spec)| && MakesKey(Prog(j.spec)[i], k, j);
    Behind(m, j, i, k);
    StorageMakersComeLate(j.spec, i, j);
    DatabaseGates(m, j, i);
    LiquibaseGate(m, j, i);
  }

  /** The gates of the branch in front of the ApplicationSet. */
  ghost predicate StorageSeen(m: M, j: Jira)
  {
    match BackendOf(j.spec)
    case Ebs => VolumeIdKnown in m.seen && ServiceIpKnown in m.seen && NfsReady in m.seen
    case Fsx => ClaimBound in m.seen
    case Efs =>
      && FileSystemIdKnown in m.seen
      && (forall i: nat | i < |j.spec.network.subnetIds| :: TargetAvailable(i) in m.seen)
  }

  lemma EbsGates(m: M, j: Jira, n: nat)
    requires BackendOf(j.spec) == Ebs && Upto(m, j, n) && PublishAt(j.spec) <= n
    ensures StorageSeen(m, j) && Key(PersistentVolumeClaim, j.name, SHARED_HOME) in m.births
  {
    var s := j.spec;
    var at := StorageAt(s);
    ProgLength(s);
    assert Prog(s)[at + 2] == Wait(VolumeIdKnown);
    assert Prog(s)[at + 7] == Wait(ServiceIpKnown);
    assert Prog(s)[at + 10] == Wait(NfsReady);
    assert Prog(s)[at + 12] == Create(SharedNfsPvc);
    assert at + 14 <= n;
    hide Prog, StorageAt, PublishAt;
    GateBehind(m, j, n, at + 2);
    GateBehind(m, j, n, at + 7);
    GateBehind(m, j, n, at + 10);
    ItemBehind(m, j, n, at + 12);
  }

  lemma FsxGates(m: M, j: Jira, n: nat)
    requires BackendOf(j.spec) == Fsx && Upto(m, j, n) && PublishAt(j.spec) <= n
    ensures StorageSeen(m, j) && Key(PersistentVolumeClaim, j.name, SHARED_HOME) in m.births
  {
    var s := j.spec;
    var at := StorageAt(s);
    ProgLength(s);
    assert Prog(s)[at + 4] == Wait(ClaimBound);
    assert Prog(s)[at + 2] == Create(FsxPvc);
    assert at + 8 <= n;
    hide Prog, StorageAt, PublishAt;
    GateBehind(m, j, n, at + 4);
    ItemBehind(m, j, n, at + 2);
  }

  lemma TargetInStorage(s: JiraSpec, k: nat)
    requires BackendOf(s) == Efs && k < 3 * |s.network.subnetIds|
    ensures 3 + k < |Storage(s)| == 6 + 3 * |s.network.subnetIds|
    ensures 3 + k + StorageAt(s) < |Prog(s)| && Prog(s)[StorageAt(s) + (3 + k)] == TargetInstr(k)
  {
    EfsLength(s);
    EfsLayout(s, 3 + k);
    StorageInProg(s, 3 + k);
    hide Prog, Storage, StorageAt, TargetInstr;
  }

  lemma EfsLength(s: JiraSpec)
    requires BackendOf(s) == Efs
    ensures |Storage(s)| == 6 + 3 * |s.network.subnetIds|
  {
  }

  /** Where the mount-target loop puts the instructions of target i. */
  lemma TargetLayout(s: JiraSpec, i: nat)
    requires BackendOf(s) == Efs && i < |s.network.subnetIds|
    ensures var at := StorageAt(s) + 3 + 3 * i;
            && at + 3 <= PublishAt(s) - 3 < |Prog(s)|
            && Prog(s)[at] == Create(Target(i))
            && Prog(s)[at + 1] == Read(TargetState(i))
            && Prog(s)[at + 2] == Wait(TargetAvailable(i))
  {
    ProgLength(s);
    hide Prog, Storage, StorageAt;
    TargetInStorage(s, 3 * i);
    TargetInStorage(s, 3 * i + 1);
    TargetInStorage(s, 3 * i + 2);
  }

  lemma StorageInProg(s: JiraSpec, k: nat)
    requires k < |Storage(s)|
    ensures StorageAt(s) + k < |Prog(s)| && Prog(s)[StorageAt(s) + k] == Storage(s)[k]
  {
    hide Storage;
  }

  lemma EfsEnds(s: JiraSpec)
    requires BackendOf(s) == Efs
    ensures StorageAt(s) + 6 <= PublishAt(s) < |Prog(s)|
    ensures Prog(s)[StorageAt(s) + 2] == Wait(FileSystemIdKnown)
    ensures Prog(s)[PublishAt(s) - 3] == Create(EfsPv)
    ensures Prog(s)[PublishAt(s) - 2] == Create(EfsPvc)
  {
    ProgLength(s);
    var n := |s.network.subnetIds|;
    EfsLayout(s, 2);
    EfsLayout(s, 3 + 3 * n);
    EfsLayout(s, 4 + 3 * n);
    StorageInProg(s, 2);
    StorageInProg(s, 3 + 3 * n);
    StorageInProg(s, 4 + 3 * n);
  }

  lemma TargetsBehind(m: M, j: Jira, n: nat, i: nat)
    requires BackendOf(j.spec) == Efs && Upto(m, j, n) && i < |j.spec.network.subnetIds|
    requires StorageAt(j.spec) + 3 + 3 * i + 3 <= n
    ensures ItemKey(Target(i), j) in m.births && TargetAvailable(i) in m.seen
  {
    hide Prog, StorageAt, PublishAt, ItemKey, Upto, Storage;
    TargetLayout(j.spec, i);
    var at := StorageAt(j.spec) + 3 + 3 * i;
    ItemBehind(m, j, n, at);
    GateBehind(m, j, n, at + 2);
  }

  lemma EfsGates(m: M, j: Jira, n: nat)
    requires BackendOf(j.spec) == Efs && Upto(m, j, n) && PublishAt(j.spec) <= n
    ensures StorageSeen(m, j) && Key(PersistentVolumeClaim, j.name, SHARED_HOME) in m.births
  {
    EfsEnds(j.spec);
    forall i: nat | i < |j.spec.network.subnetIds|
      ensures TargetAvailable(i) in m.seen
    {
      TargetLayout(j.spec, i);
      TargetsBehind(m, j, n, i);
    }
    hide Prog, StorageAt, PublishAt;
    GateBehind(m, j, n, StorageAt(j.spec) + 2);
    ItemBehind(m, j, n, PublishAt(j.spec) - 2);
  }

  /** The ApplicationSet comes last: it exists only when the shared home exists and every gate was seen open. */
  lemma PublishSafety(m: M, j: Jira)
    requires Reachable(m, j) && ItemKey(AppSet, j) in m.births
    ensures DatabaseSeen(m, j) && LiquibaseDone in m.seen && StorageSeen(m, j)
    ensures Key(PersistentVolumeClaim, j.name, SHARED_HOME) in m.births
    ensures forall k | PlanKey(k, j) :: k in m.births
  {
    ReachableInv(m, j);
    var s := j.spec;
    ProgLength(s);
    var at := PublishAt(s) + 1;
    assert Prog(s)[at] == ApplyManifest;
    hide Prog, ItemKey, Upto, Reachable, Inv, LiquibaseAt;
    assert MakesKey(Prog(s)[at], ItemKey(AppSet, j), j);
    Behind(m, j, at, ItemKey(AppSet, j));
    DatabaseGates(m, j, at);
    LiquibaseGate(m, j, at);
    match BackendOf(s) {
      case Ebs => EbsGates(m, j, at);
      case Fsx => FsxGates(m, j, at);
      case Efs => EfsGates(m, j, at);
    }
    forall k | PlanKey(k, j)
      ensures k in m.births
    {
      LastMaker(m, j, k);
    }
  }

  lemma LastMaker(m: M, j: Jira, k: Key)
    requires PlanKey(k, j) && Upto(m, j, PublishAt(j.spec) + 1) && ItemKey(AppSet, j) in m.births
    ensures k in m.births
  {
    hide ItemKey, Prog, PublishAt;
    var i: nat :| i < |Prog(j.spec)| && MakesKey(Prog(j.spec)[i], k, j);
    MakersBeforeApply(j.spec, i);
    if i <= PublishAt(j.spec) {
      assert Done(Prog(j.spec)[i], m, j);
    }
  }

  lemma MakersBeforeApply(s: JiraSpec, i: nat)
    requires i < |Prog(s)| && Makes(Prog(s)[i]).Some?
    ensures i <= PublishAt(s) || Makes(Prog(s)[i]) == Some(AppSet)
  {
    Segments(s, i);
    hide Prog, Storage, LiquibaseAt;
  }

  /** Mount target i exists only after targets 0..i-1 exist and were seen available, and the volume of
      the filesystem only after all of them, for any number of subnets. */
  lemma MountTargetSafety(m: M, j: Jira, i: nat)
    requires Reachable(m, j) && BackendOf(j.spec) == Efs
    ensures i < |j.spec.network.subnetIds| && ItemKey(Target(i), j) in m.births ==>
              FileSystemIdKnown in m.seen
              && forall k: nat | k < i :: ItemKey(Target(k), j) in m.births && TargetAvailable(k) in m.seen
    ensures ItemKey(EfsPv, j) in m.births ==>
              forall k: nat | k < |j.spec.network.subnetIds| ::
                ItemKey(Target(k), j) in m.births && TargetAvailable(k) in m.seen
  {
    hide Prog, ItemKey, StorageAt, PublishAt, Inv, Upto, Reachable;
    ReachableInv(m, j);
    EfsEnds(j.spec);
    var at := StorageAt(j.spec) + 3 + 3 * i;
    if i < |j.spec.network.subnetIds| && ItemKey(Target(i), j) in m.births {
      TargetLayout(j.spec, i);
      assert MakesKey(Prog(j.spec)[at], ItemKey(Target(i), j), j);
      Behind(m, j, at, ItemKey(Target(i), j));
      GateBehind(m, j, at, StorageAt(j.spec) + 2);
      forall k: nat | k < i
        ensures ItemKey(Target(k), j) in m.births && TargetAvailable(k) in m.seen
      {
        TargetsBehind(m, j, at, k);
      }
    }
    if ItemKey(EfsPv, j) in m.births {
      var end := PublishAt(j.spec) - 3;
      assert MakesKey(Prog(j.spec)[end], ItemKey(EfsPv, j), j);
      Behind(m, j, end, ItemKey(EfsPv, j));
      forall k: nat | k < |j.spec.network.subnetIds|
        ensures ItemKey(Target(k), j) in m.births && TargetAvailable(k) in m.seen
      {
        TargetLayout(j.spec, k);
        TargetsBehind(m, j, end, k);
      }
    }
  }

  // ---- one backend ---------------------------------------------------------------------

  lemma KindsOfBackend(item: Item, j: Jira, b: Backend)
    requires BelongsTo(item, b)
    ensures var k := ItemKey(item, j);
            && (k.kind in {EbsVolume, Service, StatefulSet} ==> b == Ebs)
            && (k.kind in {VolumeSnapshotContent, VolumeSnapshot} ==> b == Fsx)
            && (k.kind in {FileSystem, MountTarget} ==> b == Efs)
            && (k.kind == PersistentVolume ==> b != Fsx && (k != ItemKey(SharedNfsPv, j) ==> b == Ebs))
            && (k.kind == PersistentVolumeClaim ==> k.name == SHARED_HOME || (k == ItemKey(NfsPvc, j) && b == Ebs))
  {
  }

  /** With EBS before FSx before EFS, only the chosen backend's objects ever exist, and all three branches
      end in the same claim. */
  lemma BackendExclusivity(m: M, j: Jira, k: Key)
    requires Reachable(m, j) && k in m.births
    ensures k.kind in {EbsVolume, Service, StatefulSet} ==> j.spec.sharedFs.ebs.snapshotId != ""
    ensures k.kind in {VolumeSnapshotContent, VolumeSnapshot} ==>
              j.spec.sharedFs.ebs.snapshotId == "" && j.spec.sharedFs.fsx.snapshotId != ""
    ensures k.kind in {FileSystem, MountTarget} ==>
              j.spec.sharedFs.ebs.snapshotId == "" && j.spec.sharedFs.fsx.snapshotId == ""
    ensures k.kind == PersistentVolume ==>
              BackendOf(j.spec) != Fsx && (k != ItemKey(SharedNfsPv, j) ==> BackendOf(j.spec) == Ebs)
    ensures k.kind == PersistentVolumeClaim ==>
              k.name == SHARED_HOME || (k == ItemKey(NfsPvc, j) && BackendOf(j.spec) == Ebs)
  {
    ReachableInv(m, j);
    hide Prog, GetApplicationSet, Reachable, Ordered, InPass, ItemKey;
    var i: nat :| i < |Prog(j.spec)| && MakesKey(Prog(j.spec)[i], k, j);
    ItemsFit(j.spec, i);
    KindsOfBackend(Makes(Prog(j.spec)[i]).value, j, BackendOf(j.spec));
  }
}
