/** The getters of controllers/status.go: one or two reads each, and what is taken from the object. */
module Observations {
  import opened Api
  import opened Plan
  import opened Machine
  import opened Client
  import opened Ideal
  import opened Frame

  /** A value, or the error that was returned in its place. */
  function Fetched(err: Error, v: Reading): Outcome
  {
    if err == Nil then Got(v) else Missing
  }

  lemma NamedKey(q: Query, p: Pass)
    requires QueryItem(q).Some?
    ensures QueryKey(q, p) == Some(ItemKey(QueryItem(q).value, p.jira))
    ensures ItemKey(QueryItem(q).value, p.jira).name != ""
  {
  }

  method GetRdsStatus(r: Cluster, key: Key) returns (status: string, err: Error)
    requires r.Facing(Read(RdsStatus)) && key == ItemKey(Rds, r.model.ctl.p.jira)
    modifies r`w, r`tick, r`events, r`model, r`log
    ensures r.tick == old(r.tick) + 1 && r.Valid()
    ensures r.model.ctl == Answer(old(r.model.ctl.pos), old(r.model.ctl.p), RdsStatus, Fetched(err, Text(status)))
    ensures r.w == old(r.Met()) && err != AlreadyExists
    ensures err == Nil <==> old(r.Luck()) == NoFault && key in r.w.store
    ensures err == Nil ==> status == r.w.store[key].live.rdsStatus
    ensures r.log == Log(if err == Nil then old(r.log.seen)[RdsStatus := Text(status)] else old(r.log.seen),
        Some(Read(RdsStatus)), err != Nil)
  {
    hide Run, Versioned, At, FailAfter;
    NamedKey(RdsStatus, r.model.ctl.p);
    hide ItemKey, QueryKey;
    var rdsInstance := r.Get(key, RdsStatus);
    if rdsInstance.None? {
      return "", Failed;
    }
    status := rdsInstance.value.live.rdsStatus;
    return status, Nil;
  }

  method GetRdsEndpoint(r: Cluster, key: Key) returns (endpoint: string, err: Error)
    requires r.Facing(Read(RdsEndpoint)) && key == ItemKey(Rds, r.model.ctl.p.jira)
    modifies r`w, r`tick, r`events, r`model, r`log
    ensures r.tick == old(r.tick) + 1 && r.Valid()
    ensures r.model.ctl == Answer(old(r.model.ctl.pos), old(r.model.ctl.p), RdsEndpoint, Fetched(err, Text(endpoint)))
    ensures r.w == old(r.Met()) && err != AlreadyExists
    ensures err == Nil <==> old(r.Luck()) == NoFault && key in r.w.store
    ensures err == Nil ==> endpoint == r.w.store[key].live.endpoint
    ensures r.log == Log(if err == Nil then old(r.log.seen)[RdsEndpoint := Text(endpoint)] else old(r.log.seen),
        Some(Read(RdsEndpoint)), err != Nil)
  {
    hide Run, Versioned, At, FailAfter;
    NamedKey(RdsEndpoint, r.model.ctl.p);
    hide ItemKey, QueryKey;
    var rdsInstance := r.Get(key, RdsEndpoint);
    if rdsInstance.None? {
      return "", Failed;
    }
    endpoint := rdsInstance.value.live.endpoint;
    return endpoint, Nil;
  }

  /** The "hostname" entry of the secret; empty when the secret could not be read. */
  method GetSecretHostname(r: Cluster, key: Key) returns (hostname: string, err: Error)
    requires r.Facing(Read(SecretHost)) && key == ItemKey(DbSecret, r.model.ctl.p.jira)
    modifies r`w, r`tick, r`events, r`model, r`log
    ensures r.tick == old(r.tick) + 1 && r.Valid()
    ensures r.model.ctl == Running(old(r.model.ctl.pos) + 1,
        old(r.model.ctl.p).(obs := old(r.model.ctl.p.obs)[SecretHost := Text(hostname)]))
    ensures r.w == old(r.Met())
    ensures err == Nil <==> old(r.Luck()) == NoFault && key in r.w.store
    ensures hostname == if err == Nil && r.w.store[key].body.SecretBody? then r.w.store[key].body.data.hostname else ""
    ensures r.log == Log(old(r.log.seen)[SecretHost := Text(hostname)], Some(Read(SecretHost)), err != Nil)
  {
    hide Run, Versioned, At, FailAfter;
    NamedKey(SecretHost, r.model.ctl.p);
    hide ItemKey, QueryKey;
    var secret := r.Get(key, SecretHost);
    if secret.None? {
      return "", Failed;
    }
    hostname := if secret.value.body.SecretBody? then secret.value.body.data.hostname else "";
    return hostname, Nil;
  }

  method GetJobSucceededReplicas(r: Cluster, key: Key, ghost q: Query) returns (replicas: int, err: Error)
    requires r.Facing(Read(q)) && (q == ResetCount || q == LiquibaseCount)
    requires key == ItemKey(if q == ResetCount then ResetJob else LiquibaseJob, r.model.ctl.p.jira)
    modifies r`w, r`tick, r`events, r`model, r`log
    ensures r.tick == old(r.tick) + 1 && r.Valid()
    ensures r.model.ctl == Answer(old(r.model.ctl.pos), old(r.model.ctl.p), q, Fetched(err, Count(replicas)))
    ensures r.w == old(r.Met()) && err != AlreadyExists
    ensures err == Nil <==> old(r.Luck()) == NoFault && key in r.w.store
    ensures err == Nil ==> replicas == r.w.store[key].live.succeeded
    ensures r.log == Log(if err == Nil then old(r.log.seen)[q := Count(replicas)] else old(r.log.seen),
        Some(Read(q)), err != Nil)
  {
    hide Run, Versioned, At, FailAfter;
    NamedKey(q, r.model.ctl.p);
    hide ItemKey, QueryKey;
    var job := r.Get(key, q);
    if job.None? {
      return 0, Failed;
    }
    replicas := job.value.live.succeeded;
    return replicas, Nil;
  }

  method GetConfigMapData(r: Cluster, key: Key) returns (changelog: string, err: Error)
    requires r.Facing(Read(ChangelogData)) && key == ItemKey(ChangelogMap, r.model.ctl.p.jira) && r.model.ctl.p.existed
    modifies r`w, r`tick, r`events, r`model, r`log
    ensures r.tick == old(r.tick) + 1 && r.Valid()
    ensures r.model.ctl == Answer(old(r.model.ctl.pos), old(r.model.ctl.p), ChangelogData, Fetched(err, Text(changelog)))
    ensures r.w == old(r.Met()) && err != AlreadyExists
    ensures err == Nil <==> old(r.Luck()) == NoFault && key in r.w.store
    ensures err == Nil ==> changelog == (if r.w.store[key].body.ConfigMapBody? then r.w.store[key].body.changelog else "")
    ensures r.log == Log(if err == Nil then old(r.log.seen)[ChangelogData := Text(changelog)] else old(r.log.seen),
        Some(Read(ChangelogData)), err != Nil)
  {
    hide Run, Versioned, At, FailAfter;
    NamedKey(ChangelogData, r.model.ctl.p);
    hide ItemKey, QueryKey;
    var cm := r.Get(key, ChangelogData);
    if cm.None? {
      return "", Failed;
    }
    changelog := if cm.value.body.ConfigMapBody? then cm.value.body.changelog else "";
    return changelog, Nil;
  }

  /** An identifier that the provider has not set yet reads as the empty string. */
  method GetEbsVolumeId(r: Cluster, key: Key) returns (volumeId: string, err: Error)
    requires r.Facing(Read(VolumeId)) && key == ItemKey(Volume, r.model.ctl.p.jira)
    modifies r`w, r`tick, r`events, r`model, r`log
    ensures r.tick == old(r.tick) + 1 && r.Valid()
    ensures r.model.ctl == Answer(old(r.model.ctl.pos), old(r.model.ctl.p), VolumeId, Fetched(err, Text(volumeId)))
    ensures r.w == old(r.Met()) && err != AlreadyExists
    ensures err == Nil <==> old(r.Luck()) == NoFault && key in r.w.store
    ensures err == Nil ==> volumeId == (if r.w.store[key].live.volumeId.Some? then r.w.store[key].live.volumeId.value else "")
    ensures r.log == Log(if err == Nil then old(r.log.seen)[VolumeId := Text(volumeId)] else old(r.log.seen),
        Some(Read(VolumeId)), err != Nil)
  {
    hide Run, Versioned, At, FailAfter;
    NamedKey(VolumeId, r.model.ctl.p);
    hide ItemKey, QueryKey;
    var volume := r.Get(key, VolumeId);
    if volume.None? {
      return "", Failed;
    }
    if volume.value.live.volumeId.Some? {
      volumeId := volume.value.live.volumeId.value;
      return volumeId, Nil;
    }
    return "", Nil;
  }

  method GetSvcClusterIp(r: Cluster, key: Key) returns (ip: string, err: Error)
    requires r.Facing(Read(ServiceIp)) && key == ItemKey(NfsService, r.model.ctl.p.jira)
    modifies r`w, r`tick, r`events, r`model, r`log
    ensures r.tick == old(r.tick) + 1 && r.Valid()
    ensures r.model.ctl == Answer(old(r.model.ctl.pos), old(r.model.ctl.p), ServiceIp, Fetched(err, Text(ip)))
    ensures r.w == old(r.Met()) && err != AlreadyExists
    ensures err == Nil <==> old(r.Luck()) == NoFault && key in r.w.store
    ensures err == Nil ==> ip == r.w.store[key].live.clusterIp
    ensures r.log == Log(if err == Nil then old(r.log.seen)[ServiceIp := Text(ip)] else old(r.log.seen),
        Some(Read(ServiceIp)), err != Nil)
  {
    hide Run, Versioned, At, FailAfter;
    NamedKey(ServiceIp, r.model.ctl.p);
    hide ItemKey, QueryKey;
    var svc := r.Get(key, ServiceIp);
    if svc.None? {
      return "", Failed;
    }
    ip := svc.value.live.clusterIp;
    return ip, Nil;
  }

  method GetStsReadyReplicas(r: Cluster, key: Key) returns (readyReplicas: int, err: Error)
    requires r.Facing(Read(ReadyReplicas)) && key == ItemKey(NfsStatefulSet, r.model.ctl.p.jira)
    modifies r`w, r`tick, r`events, r`model, r`log
    ensures r.tick == old(r.tick) + 1 && r.Valid()
    ensures r.model.ctl == Answer(old(r.model.ctl.pos), old(r.model.ctl.p), ReadyReplicas, Fetched(err,
        Count(readyReplicas)))
    ensures r.w == old(r.Met()) && err != AlreadyExists
    ensures err == Nil <==> old(r.Luck()) == NoFault && key in r.w.store
    ensures err == Nil ==> readyReplicas == r.w.store[key].live.readyReplicas
    ensures r.log == Log(if err == Nil then old(r.log.seen)[ReadyReplicas := Count(readyReplicas)]
        else old(r.log.seen), Some(Read(ReadyReplicas)), err != Nil)
  {
    hide Run, Versioned, At, FailAfter;
    NamedKey(ReadyReplicas, r.model.ctl.p);
    hide ItemKey, QueryKey;
    var sts := r.Get(key, ReadyReplicas);
    if sts.None? {
      return 0, Failed;
    }
    readyReplicas := sts.value.live.readyReplicas;
    return readyReplicas, Nil;
  }

  method GetPvcStatus(r: Cluster, key: Key) returns (status: string, err: Error)
    requires r.Facing(Read(ClaimPhase)) && key == ItemKey(FsxPvc, r.model.ctl.p.jira)
    modifies r`w, r`tick, r`events, r`model, r`log
    ensures r.tick == old(r.tick) + 1 && r.Valid()
    ensures r.model.ctl == Answer(old(r.model.ctl.pos), old(r.model.ctl.p), ClaimPhase, Fetched(err, Text(status)))
    ensures r.w == old(r.Met()) && err != AlreadyExists
    ensures err == Nil <==> old(r.Luck()) == NoFault && key in r.w.store
    ensures err == Nil ==> status == r.w.store[key].live.phase
    ensures r.log == Log(if err == Nil then old(r.log.seen)[ClaimPhase := Text(status)] else old(r.log.seen),
        Some(Read(ClaimPhase)), err != Nil)
  {
    hide Run, Versioned, At, FailAfter;
    NamedKey(ClaimPhase, r.model.ctl.p);
    hide ItemKey, QueryKey;
    var pvc := r.Get(key, ClaimPhase);
    if pvc.None? {
      return "", Failed;
    }
    status := pvc.value.live.phase;
    return status, Nil;
  }

  /** A pointer: nil until the provider has set it. */
  method GetFilesystemId(r: Cluster, key: Key) returns (id: Option<string>, err: Error)
    requires r.Facing(Read(FileSystemId)) && key == ItemKey(SharedFileSystem, r.model.ctl.p.jira)
    modifies r`w, r`tick, r`events, r`model, r`log
    ensures r.tick == old(r.tick) + 1 && r.Valid()
    ensures r.model.ctl == Answer(old(r.model.ctl.pos), old(r.model.ctl.p), FileSystemId, Fetched(err, Pointer(id)))
    ensures r.w == old(r.Met()) && err != AlreadyExists
    ensures err == Nil <==> old(r.Luck()) == NoFault && key in r.w.store
    ensures err == Nil ==> id == r.w.store[key].live.fileSystemId
    ensures r.log == Log(if err == Nil then old(r.log.seen)[FileSystemId := Pointer(id)] else old(r.log.seen),
        Some(Read(FileSystemId)), err != Nil)
  {
    hide Run, Versioned, At, FailAfter;
    NamedKey(FileSystemId, r.model.ctl.p);
    hide ItemKey, QueryKey;
    var fileSystem := r.Get(key, FileSystemId);
    if fileSystem.None? {
      return None, Failed;
    }
    id := fileSystem.value.live.fileSystemId;
    return id, Nil;
  }

  method GetMountTargetStatus(r: Cluster, key: Key, ghost i: nat) returns (status: Option<string>, err: Error)
    requires r.Facing(Read(TargetState(i))) && key == ItemKey(Target(i), r.model.ctl.p.jira)
    modifies r`w, r`tick, r`events, r`model, r`log
    ensures r.tick == old(r.tick) + 1 && r.Valid()
    ensures r.model.ctl == Answer(old(r.model.ctl.pos), old(r.model.ctl.p), TargetState(i), Fetched(err, Pointer(status)))
    ensures r.w == old(r.Met()) && err != AlreadyExists
    ensures err == Nil <==> old(r.Luck()) == NoFault && key in r.w.store
    ensures err == Nil ==> status == r.w.store[key].live.lifeCycle
    ensures r.log == Log(if err == Nil then old(r.log.seen)[TargetState(i) := Pointer(status)] else old(r.log.seen),
        Some(Read(TargetState(i))), err != Nil)
  {
    hide Run, Versioned, At, FailAfter;
    NamedKey(TargetState(i), r.model.ctl.p);
    hide ItemKey, QueryKey;
    var mountTarget := r.Get(key, TargetState(i));
    if mountTarget.None? {
      return None, Failed;
    }
    status := mountTarget.value.live.lifeCycle;
    return status, Nil;
  }

  /** Two reads: the claim, then the volume it is bound to. A volume without a CSI source is a nil
      pointer that this getter dereferences. */
  method GetFsxVolumeName(r: Cluster, key: Key) returns (handle: string, err: Error, nilPointer: bool, ghost claimed: string)
    requires r.Facing(Read(ClaimVolume)) && key == ItemKey(FsxPvc, r.model.ctl.p.jira)
    requires At(r.model.ctl.p.jira.spec, r.model.ctl.pos + 1) == Read(VolumeHandle)
    modifies r`w, r`tick, r`events, r`model, r`log
    ensures r.tick == old(r.tick) + (if r.log.latest == Some(Read(ClaimVolume)) then 1 else 2) && r.Valid()
    ensures r.model.ctl ==
            if nilPointer then Idle(Panicked)
            else if err != Nil then Idle(Returned(30, true))
            else Running(old(r.model.ctl.pos) + 2,
                         old(r.model.ctl.p).(obs := old(r.model.ctl.p.obs)[ClaimVolume := Text(claimed)][VolumeHandle := Text(handle)]))
    ensures r.log.latest == Some(Read(ClaimVolume)) || r.log.latest == Some(Read(VolumeHandle))
    ensures r.log.failed <==> err != Nil && !nilPointer
    ensures r.log.latest == Some(Read(VolumeHandle)) ==>
              && key in old(r.Met()).store
              && var claim := old(r.Met()).store[key];
                 claimed == if claim.body.PvcBody? && claim.body.volumeName != "" then claim.body.volumeName
                            else claim.live.boundVolume
    ensures nilPointer || err == Nil ==> claimed != "" && Key(PersistentVolume, "", claimed) in r.w.store
    ensures nilPointer || err == Nil ==>
              var body := r.w.store[Key(PersistentVolume, "", claimed)].body;
              && (nilPointer <==> !(body.PvBody? && body.source.Csi?))
              && (!nilPointer ==> err == Nil && handle == body.source.handle)
    ensures err == Nil ==> r.log.seen == old(r.log.seen)[ClaimVolume := Text(claimed)][VolumeHandle := Text(handle)]
    ensures nilPointer ==> r.log.seen == old(r.log.seen)[ClaimVolume := Text(claimed)]
    ensures err != Nil ==> r.log.seen == old(r.log.seen) || r.log.seen == old(r.log.seen)[ClaimVolume := Text(claimed)]
  {
    hide Run, Versioned, At;
    NamedKey(ClaimVolume, r.model.ctl.p);
    hide ItemKey;
    handle, err, nilPointer, claimed := "", Failed, false, "";
    var pvc := r.Get(key, ClaimVolume);
    if pvc.None? {
      return;
    }
    var k8sPvName := ClaimedVolume(pvc.value);
    claimed := k8sPvName;
    var pv := r.Get(Key(PersistentVolume, "", k8sPvName), VolumeHandle);
    if pv.None? {
      return;
    }
    var body := pv.value.body;
    if !(body.PvBody? && body.source.Csi?) {
      nilPointer := true;
      return;
    }
    handle, err := body.source.handle, Nil;
  }
}
