/** When an undisturbed pass comes back: the exit it takes, read off the stored objects from top to bottom. */
module Schedule {
  import opened Api
  import opened Text
  import opened Plan
  import opened Machine
  import opened Ideal
  import opened Layout
  import opened Opening

  // ---- the exit, phase by phase ----------------------------------------------------------------

  function DatabaseDue(w: World): Option<Exit>
  {
    var db := Key(RdsInstance, "", w.cr.name + "-" + w.cr.uid);
    if db !in w.store || w.store[db].live.rdsStatus != "available" then Some(Returned(30, false))
    else if w.store[db].live.endpoint == "" then Some(Returned(10, false))
    else None
  }

  /** Only a database restored from a snapshot has its password reset. */
  function ResetDue(w: World): Option<Exit>
  {
    var job := Key(Job, w.cr.name, w.cr.name + "-reset-rds-credentials");
    if w.cr.spec.database.snapshotId == "" then None
    else if job in w.store && w.store[job].live.succeeded >= 1 then None
    else Some(Returned(5, false))
  }

  function LiquibaseDue(w: World): Option<Exit>
  {
    var job := Key(Job, w.cr.name, w.cr.name + "-liquibase-changeset");
    if w.changelog.None? then Some(Returned(600, true))
    else if job in w.store && w.store[job].live.succeeded >= 1 then None
    else Some(Returned(5, false))
  }

  function EbsDue(w: World): Option<Exit>
  {
    var volume := Key(EbsVolume, "", w.cr.name + "-" + w.cr.uid);
    var service := Key(Service, w.cr.name, w.cr.name + "-nfs-server");
    var server := Key(StatefulSet, w.cr.name, w.cr.name + "-nfs-server");
    if volume !in w.store || w.store[volume].live.volumeId == None || w.store[volume].live.volumeId == Some("")
    then Some(Returned(5, false))
    else if service !in w.store || w.store[service].live.clusterIp == "" then Some(Returned(30, false))
    else if server !in w.store || w.store[server].live.readyReplicas < 1 then Some(Returned(10, false))
    else None
  }

  function FsxDue(w: World): Option<Exit>
  {
    var claim := Key(PersistentVolumeClaim, w.cr.name, "jira-shared-home");
    var volume := Key(PersistentVolume, "", BoundVolume(w));
    if claim !in w.store || w.store[claim].live.phase != "Bound" then Some(Returned(30, false))
    else if BoundVolume(w) == "" || volume !in w.store then Some(Returned(30, true))
    else if w.store[volume].body.PvBody? && w.store[volume].body.source.Csi? then None
    else Some(Panicked)
  }

  /** From the i-th subnet on. */
  function TargetsDue(w: World, i: nat): Option<Exit>
    decreases |w.cr.spec.network.subnetIds| - i
  {
    var target := Key(MountTarget, "", w.cr.name + Itoa(i) + "-" + w.cr.uid);
    if i >= |w.cr.spec.network.subnetIds| then None
    else if target !in w.store || w.store[target].live.lifeCycle == None then Some(Panicked)
    else if w.store[target].live.lifeCycle != Some("available") then Some(Returned(10, false))
    else TargetsDue(w, i + 1)
  }

  function EfsDue(w: World): Option<Exit>
  {
    var fs := Key(FileSystem, "", w.cr.name + "-" + w.cr.uid);
    if fs !in w.store || w.store[fs].live.fileSystemId == None then Some(Panicked)
    else if w.store[fs].live.fileSystemId == Some("") then Some(Returned(5, false))
    else TargetsDue(w, 0)
  }

  function StorageDue(w: World): Option<Exit>
  {
    if w.cr.spec.sharedFs.ebs.snapshotId != "" then EbsDue(w)
    else if w.cr.spec.sharedFs.fsx.snapshotId != "" then FsxDue(w)
    else EfsDue(w)
  }

  function Due(w: World): Exit
  {
    if DatabaseDue(w).Some? then DatabaseDue(w).value
    else if ResetDue(w).Some? then ResetDue(w).value
    else if LiquibaseDue(w).Some? then LiquibaseDue(w).value
    else if StorageDue(w).Some? then StorageDue(w).value
    else Returned(300, w.app.None?)
  }

  // ---- it is the exit of the plan ----------------------------------------------------------------

  /** Nothing is in the way in front of position n. */
  ghost predicate Until(w: World, n: nat)
  {
    n < |Prog(w.cr.spec)| && forall k: nat | k < n :: Blocked(Prog(w.cr.spec)[k], w).None?
  }

  ghost predicate Leaves(w: World, e: Exit)
  {
    Blocked(At(w.cr.spec, Stop(w)), w) == Some(e)
  }

  lemma Go(w: World, n: nat)
    requires Until(w, n) && Blocked(At(w.cr.spec, n), w).None?
    ensures Until(w, n + 1)
  {
    EndBlocks(w.cr.spec, w);
    hide Prog, Blocked;
  }

  lemma End(w: World, n: nat, e: Exit)
    requires Until(w, n) && Blocked(At(w.cr.spec, n), w) == Some(e)
    ensures Leaves(w, e)
  {
    hide Prog, Blocked, StopIn;
    var stop := Stop(w);
    assert stop == n;
  }

  predicate Plain(i: Instr)
  {
    !i.Wait? && i != Finish && (i.Read? ==> i.query !in {Changelog, VolumeHandle, AppSync, AppHealth})
  }

  /** The next instructions are no gates. */
  lemma Skip(w: World, n: nat, m: nat)
    requires Until(w, n) && n <= m && forall k: nat | n <= k < m :: Plain(At(w.cr.spec, k))
    ensures Until(w, m)
    decreases m - n
  {
    hide Until, Blocked, At;
    if n < m {
      NoGate(At(w.cr.spec, n), w);
      Go(w, n);
      Skip(w, n + 1, m);
    }
  }

  lemma Start(w: World)
    ensures Until(w, 0)
  {
    EndBlocks(w.cr.spec, w);
    hide Prog, Blocked;
  }

  lemma DatabasePhase(w: World)
    ensures if DatabaseDue(w).None? then Until(w, 13) else Leaves(w, DatabaseDue(w).value)
  {
    hide Until, Leaves, Blocked, At, Prog, LiquibaseAt, StorageAt, PublishAt;
    var s := w.cr.spec;
    DatabaseAt(s);
    AvailableGate(w);
    EndpointGate(w);
    Start(w);
    Skip(w, 0, 7);
    if Blocked(Wait(RdsAvailable), w).Some? {
      End(w, 7, Returned(30, false));
    } else {
      Go(w, 7);
      Skip(w, 8, 9);
      if Blocked(Wait(EndpointKnown), w).Some? {
        End(w, 9, Returned(10, false));
      } else {
        Go(w, 9);
        Skip(w, 10, 13);
      }
    }
  }

  lemma ResetPhase(w: World)
    requires Until(w, 13)
    ensures if ResetDue(w).None? then Until(w, LiquibaseAt(w.cr.spec)) else Leaves(w, ResetDue(w).value)
  {
    hide Until, Leaves, Blocked, At, Prog, LiquibaseAt, StorageAt, PublishAt;
    ResetLayout(w.cr.spec);
    ResetGate(w);
    if w.cr.spec.database.snapshotId != "" {
      Skip(w, 13, 16);
      if Blocked(Wait(ResetDone), w).Some? {
        End(w, 16, Returned(5, false));
      } else {
        Go(w, 16);
        Skip(w, 17, 18);
      }
    }
  }

  lemma LiquibasePhase(w: World)
    requires Until(w, LiquibaseAt(w.cr.spec))
    ensures if LiquibaseDue(w).None? then Until(w, StorageAt(w.cr.spec)) else Leaves(w, LiquibaseDue(w).value)
  {
    hide Until, Leaves, Blocked, At, Prog, LiquibaseAt, StorageAt, PublishAt;
    var at := LiquibaseAt(w.cr.spec);
    LiquibaseLayout(w.cr.spec);
    ChangelogGate(w);
    LiquibaseGate(w);
    if Blocked(Read(Changelog), w).Some? {
      End(w, at, Returned(600, true));
    } else {
      Go(w, at);
      Skip(w, at + 1, at + 6);
      if Blocked(Wait(LiquibaseDone), w).Some? {
        End(w, at + 6, Returned(5, false));
      } else {
        Go(w, at + 6);
        Skip(w, at + 7, at + 8);
      }
    }
  }

  lemma EbsPhase(w: World)
    requires Until(w, StorageAt(w.cr.spec)) && BackendOf(w.cr.spec) == Ebs
    ensures if EbsDue(w).None? then Until(w, PublishAt(w.cr.spec)) else Leaves(w, EbsDue(w).value)
  {
    hide Until, Leaves, Blocked, At, Prog, LiquibaseAt, StorageAt, PublishAt;
    var at := StorageAt(w.cr.spec);
    EbsLayout(w.cr.spec);
    VolumeGate(w);
    ServiceGate(w);
    ServerGate(w);
    Skip(w, at, at + 2);
    if Blocked(Wait(VolumeIdKnown), w).Some? {
      End(w, at + 2, Returned(5, false));
      return;
    }
    Go(w, at + 2);
    Skip(w, at + 3, at + 7);
    if Blocked(Wait(ServiceIpKnown), w).Some? {
      End(w, at + 7, Returned(30, false));
      return;
    }
    Go(w, at + 7);
    Skip(w, at + 8, at + 10);
    if Blocked(Wait(NfsReady), w).Some? {
      End(w, at + 10, Returned(10, false));
      return;
    }
    Go(w, at + 10);
    Skip(w, at + 11, at + 14);
  }

  lemma FsxPhase(w: World)
    requires Until(w, StorageAt(w.cr.spec)) && BackendOf(w.cr.spec) == Fsx
    ensures if FsxDue(w).None? then Until(w, PublishAt(w.cr.spec)) else Leaves(w, FsxDue(w).value)
  {
    hide Until, Leaves, Blocked, At, Prog, LiquibaseAt, StorageAt, PublishAt;
    var at := StorageAt(w.cr.spec);
    FsxLayout(w.cr.spec);
    ClaimGate(w);
    HandleGate(w);
    Skip(w, at, at + 4);
    if Blocked(Wait(ClaimBound), w).Some? {
      End(w, at + 4, Returned(30, false));
      return;
    }
    Go(w, at + 4);
    Skip(w, at + 5, at + 6);
    if Blocked(Read(VolumeHandle), w).Some? {
      End(w, at + 6, Blocked(Read(VolumeHandle), w).value);
      return;
    }
    Go(w, at + 6);
    Skip(w, at + 7, at + 8);
  }

  lemma TargetsPhase(w: World, i: nat)
    requires BackendOf(w.cr.spec) == Efs && i <= |w.cr.spec.network.subnetIds|
    requires Until(w, StorageAt(w.cr.spec) + 3 + 3 * i)
    ensures if TargetsDue(w, i).None? then Until(w, StorageAt(w.cr.spec) + 3 + 3 * |w.cr.spec.network.subnetIds|)
            else Leaves(w, TargetsDue(w, i).value)
    decreases |w.cr.spec.network.subnetIds| - i
  {
    hide Until, Leaves, Blocked, At, Prog, LiquibaseAt, StorageAt, PublishAt, Itoa;
    if i < |w.cr.spec.network.subnetIds| {
      var at := StorageAt(w.cr.spec) + 3 + 3 * i;
      TargetAt(w.cr.spec, i);
      TargetKey(w.cr, i);
      TargetGate(w, i);
      hide ItemKey;
      Skip(w, at, at + 2);
      if Blocked(Wait(TargetAvailable(i)), w).Some? {
        End(w, at + 2, Blocked(Wait(TargetAvailable(i)), w).value);
      } else {
        Go(w, at + 2);
        TargetsPhase(w, i + 1);
      }
    }
  }

  lemma EfsPhase(w: World)
    requires Until(w, StorageAt(w.cr.spec)) && BackendOf(w.cr.spec) == Efs
    ensures if EfsDue(w).None? then Until(w, PublishAt(w.cr.spec)) else Leaves(w, EfsDue(w).value)
  {
    hide Until, Leaves, Blocked, At, Prog, LiquibaseAt, StorageAt, PublishAt;
    var at := StorageAt(w.cr.spec);
    EfsHeadLayout(w.cr.spec);
    EfsTailLayout(w.cr.spec);
    FileSystemGate(w);
    Skip(w, at, at + 2);
    if Blocked(Wait(FileSystemIdKnown), w).Some? {
      End(w, at + 2, Blocked(Wait(FileSystemIdKnown), w).value);
      return;
    }
    Go(w, at + 2);
    TargetsPhase(w, 0);
    if TargetsDue(w, 0).None? {
      var end := at + 3 + 3 * |w.cr.spec.network.subnetIds|;
      Skip(w, end, end + 3);
    }
  }

  lemma PublishPhase(w: World)
    requires Until(w, PublishAt(w.cr.spec))
    ensures Leaves(w, Returned(300, w.app.None?))
  {
    hide Until, Leaves, Blocked, At, Prog, LiquibaseAt, StorageAt, PublishAt;
    var at := PublishAt(w.cr.spec);
    PublishLayout(w.cr.spec);
    ApplicationGate(w);
    EndGate(w);
    Skip(w, at, at + 2);
    if w.app.None? {
      End(w, at + 2, Returned(300, true));
    } else {
      Go(w, at + 2);
      Skip(w, at + 3, at + 4);
      Go(w, at + 4);
      Skip(w, at + 5, at + 6);
      End(w, at + 6, Returned(300, false));
    }
  }

  lemma StoragePhase(w: World)
    requires Until(w, StorageAt(w.cr.spec))
    ensures if StorageDue(w).None? then Until(w, PublishAt(w.cr.spec)) else Leaves(w, StorageDue(w).value)
  {
    hide Until, Leaves, StorageAt, PublishAt, EbsDue, FsxDue, EfsDue;
    match BackendOf(w.cr.spec)
    case Ebs => EbsPhase(w);
    case Fsx => FsxPhase(w);
    case Efs => EfsPhase(w);
  }

  /** An undisturbed pass takes that exit. */
  lemma LeavesWhenDue(w: World)
    ensures Blocked(At(w.cr.spec, Stop(w)), w) == Some(Due(w))
  {
    hide Until, StorageAt, PublishAt, LiquibaseAt, DatabaseDue, ResetDue, LiquibaseDue, StorageDue;
    hide Blocked, At, Stop;
    DatabasePhase(w);
    if DatabaseDue(w).None? {
      ResetPhase(w);
      if ResetDue(w).None? {
        LiquibasePhase(w);
        if LiquibaseDue(w).None? {
          StoragePhase(w);
          if StorageDue(w).None? {
            PublishPhase(w);
          }
        }
      }
    }
  }
}
