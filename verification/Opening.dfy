/** What each gate of the plan waits for, in terms of the stored objects alone, and the delay with which a pass
    comes back when it finds the gate closed; and with that, what a whole undisturbed pass returns. */
module Opening {
  import opened Api
  import opened Plan
  import opened Machine
  import opened Ideal
  import Refinement

  // ---- the ten waits -------------------------------------------------------------------------

  lemma AvailableGate(w: World)
    ensures var k := Key(RdsInstance, "", w.cr.name + "-" + w.cr.uid);
            Blocked(Wait(RdsAvailable), w) ==
            if k in w.store && w.store[k].live.rdsStatus == "available" then None else Some(Returned(30, false))
  {
    DatabaseNames(w.cr);
    Refinement.SightOfObject(RdsStatus, w);
    BuildKey(Rds, Pass(w.cr, map[], false), NO_DRAW);
    hide ItemKey, Build, Sight;
  }

  lemma EndpointGate(w: World)
    ensures var k := Key(RdsInstance, "", w.cr.name + "-" + w.cr.uid);
            Blocked(Wait(EndpointKnown), w) ==
            if k in w.store && w.store[k].live.endpoint != "" then None else Some(Returned(10, false))
  {
    DatabaseNames(w.cr);
    Refinement.SightOfObject(RdsEndpoint, w);
    BuildKey(Rds, Pass(w.cr, map[], false), NO_DRAW);
    hide ItemKey, Build, Sight;
  }

  lemma ResetGate(w: World)
    ensures var k := Key(Job, w.cr.name, w.cr.name + "-reset-rds-credentials");
            Blocked(Wait(ResetDone), w) ==
            if k in w.store && w.store[k].live.succeeded >= 1 then None else Some(Returned(5, false))
  {
    JobNames(w.cr);
    Refinement.SightOfObject(ResetCount, w);
    BuildKey(ResetJob, Pass(w.cr, map[], false), NO_DRAW);
    hide ItemKey, Build, Sight;
  }

  lemma LiquibaseGate(w: World)
    ensures var k := Key(Job, w.cr.name, w.cr.name + "-liquibase-changeset");
            Blocked(Wait(LiquibaseDone), w) ==
            if k in w.store && w.store[k].live.succeeded >= 1 then None else Some(Returned(5, false))
  {
    JobNames(w.cr);
    Refinement.SightOfObject(LiquibaseCount, w);
    BuildKey(LiquibaseJob, Pass(w.cr, map[], false), NO_DRAW);
    hide ItemKey, Build, Sight;
  }

  lemma VolumeGate(w: World)
    ensures var k := Key(EbsVolume, "", w.cr.name + "-" + w.cr.uid);
            Blocked(Wait(VolumeIdKnown), w) ==
            if k in w.store && w.store[k].live.volumeId.Some? && w.store[k].live.volumeId.value != "" then None
            else Some(Returned(5, false))
  {
    NfsNames(w.cr);
    Refinement.SightOfObject(VolumeId, w);
    BuildKey(Volume, Pass(w.cr, map[], false), NO_DRAW);
    hide ItemKey, Build, Sight;
  }

  lemma ServiceGate(w: World)
    ensures var k := Key(Service, w.cr.name, w.cr.name + "-nfs-server");
            Blocked(Wait(ServiceIpKnown), w) ==
            if k in w.store && w.store[k].live.clusterIp != "" then None else Some(Returned(30, false))
  {
    NfsNames(w.cr);
    Refinement.SightOfObject(ServiceIp, w);
    BuildKey(NfsService, Pass(w.cr, map[], false), NO_DRAW);
    hide ItemKey, Build, Sight;
  }

  lemma ServerGate(w: World)
    ensures var k := Key(StatefulSet, w.cr.name, w.cr.name + "-nfs-server");
            Blocked(Wait(NfsReady), w) ==
            if k in w.store && w.store[k].live.readyReplicas >= 1 then None else Some(Returned(10, false))
  {
    NfsNames(w.cr);
    Refinement.SightOfObject(ReadyReplicas, w);
    BuildKey(NfsStatefulSet, Pass(w.cr, map[], false), NO_DRAW);
    hide ItemKey, Build, Sight;
  }

  lemma ClaimGate(w: World)
    ensures var k := Key(PersistentVolumeClaim, w.cr.name, "jira-shared-home");
            Blocked(Wait(ClaimBound), w) ==
            if k in w.store && w.store[k].live.phase == "Bound" then None else Some(Returned(30, false))
  {
    SharedNames(w.cr);
    Refinement.SightOfObject(ClaimPhase, w);
    BuildKey(FsxPvc, Pass(w.cr, map[], false), NO_DRAW);
    hide ItemKey, Build, Sight;
  }

  /** Not set and empty are different: a pass panics at the one and waits at the other. */
  lemma FileSystemGate(w: World)
    ensures var k := Key(FileSystem, "", w.cr.name + "-" + w.cr.uid);
            Blocked(Wait(FileSystemIdKnown), w) ==
            if k !in w.store || w.store[k].live.fileSystemId == None then Some(Panicked)
            else if w.store[k].live.fileSystemId == Some("") then Some(Returned(5, false))
            else None
  {
    SharedNames(w.cr);
    Refinement.SightOfObject(FileSystemId, w);
    BuildKey(SharedFileSystem, Pass(w.cr, map[], false), NO_DRAW);
    hide ItemKey, Build, Sight;
  }

  lemma TargetGate(w: World, i: nat)
    ensures var k := ItemKey(Target(i), w.cr);
            Blocked(Wait(TargetAvailable(i)), w) ==
            if k !in w.store || w.store[k].live.lifeCycle == None then Some(Panicked)
            else if w.store[k].live.lifeCycle == Some("available") then None
            else Some(Returned(10, false))
  {
    Refinement.SightOfObject(TargetState(i), w);
    BuildKey(Target(i), Pass(w.cr, map[], false), NO_DRAW);
    hide ItemKey, Build, Sight;
  }

  // ---- the four reads of what others provide ---------------------------------------------------

  lemma ChangelogGate(w: World)
    ensures Blocked(Read(Changelog), w) == if w.changelog.Some? then None else Some(Returned(600, true))
  {
  }

  lemma ApplicationGate(w: World)
    ensures Blocked(Read(AppSync), w) == if w.app.Some? then None else Some(Returned(300, true))
    ensures Blocked(Read(AppHealth), w) == if w.app.Some? then None else Some(Returned(300, true))
  {
  }

  /** The volume that the claim of the shared home names or was bound to. */
  function BoundVolume(w: World): string
  {
    var k := Key(PersistentVolumeClaim, w.cr.name, "jira-shared-home");
    if k !in w.store then ""
    else if w.store[k].body.PvcBody? && w.store[k].body.volumeName != "" then w.store[k].body.volumeName
    else w.store[k].live.boundVolume
  }

  lemma BoundVolumeIs(w: World)
    ensures ClaimedVolume(ObjectOf(FsxPvc, w)) == BoundVolume(w)
  {
    SharedNames(w.cr);
    FreshClaim(w.cr);
    hide ItemKey, Build;
  }

  lemma FreshClaim(j: Jira)
    ensures ClaimedVolume(Build(FsxPvc, Pass(j, map[], false), NO_DRAW)) == ""
  {
  }

  lemma HandleGate(w: World)
    ensures var k := Key(PersistentVolume, "", BoundVolume(w));
            Blocked(Read(VolumeHandle), w) ==
            if BoundVolume(w) == "" || k !in w.store then Some(Returned(30, true))
            else if w.store[k].body.PvBody? && w.store[k].body.source.Csi? then None
            else Some(Panicked)
  {
    BoundVolumeIs(w);
    hide ObjectOf, BoundVolume, ItemKey;
  }

  /** Nothing else stops a pass before its end. */
  lemma NoGate(i: Instr, w: World)
    requires !i.Wait? && i != Finish && (i.Read? ==> i.query !in {Changelog, VolumeHandle, AppSync, AppHealth})
    ensures Blocked(i, w).None?
  {
    if i.Read? && QueryItem(i.query).Some? {
      Refinement.SightOfObject(i.query, w);
      hide Sight, ObjectOf;
    }
  }

  lemma EndGate(w: World)
    ensures Blocked(Finish, w) == Some(Returned(300, false))
  {
  }
}
