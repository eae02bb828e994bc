/** How the stored objects, the status and the custom resource refer to each other in every reachable state. */
module Coherence {
  import opened Api
  import opened Text
  import opened Builders
  import opened Plan
  import opened Machine
  import opened Safety
  import opened Frame
  import opened Soundness
  import opened Order
  import Template

  // ---- status --------------------------------------------------------------------------

  /** Every status field that a reader may rely on is true of the world. */
  lemma StatusSoundness(m: M, j: Jira)
    requires SteadyReachable(m, j)
    ensures var st := m.w.cr.status;
            && (st.endpoint != "" ==>
                  && ItemKey(Rds, j) in m.w.store && m.w.store[ItemKey(Rds, j)].live.endpoint == st.endpoint
                  && HostOf(m.w, j) == st.endpoint)
            && (st.resetJob == "Succeeded" ==>
                  ItemKey(ResetJob, j) in m.w.store && m.w.store[ItemKey(ResetJob, j)].live.succeeded >= 1)
            && (st.liquibaseJob == "Succeeded" ==>
                  ItemKey(LiquibaseJob, j) in m.w.store && m.w.store[ItemKey(LiquibaseJob, j)].live.succeeded >= 1)
            && (st.ebsId != "" ==>
                  BackendOf(j.spec) == Ebs && SharedHomeExists(m.w, j)
                  && ItemKey(Volume, j) in m.w.store
                  && m.w.store[ItemKey(Volume, j)].live.volumeId == Some(st.ebsId))
            && (st.fsxId != "" ==>
                  BackendOf(j.spec) == Fsx && SharedHomeExists(m.w, j)
                  && st.fsxId == HandleText(m.w, ClaimedVolume(m.w.store[ItemKey(FsxPvc, j)])))
            && (st.efsId != "" ==>
                  BackendOf(j.spec) == Efs && SharedHomeExists(m.w, j)
                  && ItemKey(SharedFileSystem, j) in m.w.store
                  && m.w.store[ItemKey(SharedFileSystem, j)].live.fileSystemId == Some(st.efsId))
  {
    SteadySound(m, j);
    assert ItemKey(FsxPvc, j) == Key(PersistentVolumeClaim, j.name, SHARED_HOME);
    hide Inv, Versioned, Intact, BirthsSound, PassSound, HostOf, HandleText, ItemKey, SteadyReachable;
  }

  /** Whatever comes after the database in the plan exists only when the secret carries the endpoint that the
      provider gave the database. */
  lemma SecretCarriesEndpoint(m: M, j: Jira, k: Key)
    requires SteadyReachable(m, j) && k in m.births
    requires k.kind !in {Namespace, ParameterGroup, SubnetGroup, Secret, RdsInstance}
    ensures ItemKey(DbSecret, j) in m.w.store && ItemKey(Rds, j) in m.w.store
    ensures m.w.store[ItemKey(DbSecret, j)].body.SecretBody?
    ensures var data := m.w.store[ItemKey(DbSecret, j)].body.data;
            data.hostname != "" && data.hostname == m.w.store[ItemKey(Rds, j)].live.endpoint
  {
    hide SteadyReachable, InPass, Ordered, Versioned, Intact, StatusSound, PassSound, BirthSound, PlanKey;
    SteadySound(m, j);
    LaterItem(m.births[k].item, j);
    assert BirthFits(m.births[k], k, j);
  }

  lemma LaterItem(item: Item, j: Jira)
    ensures DatabaseItem(item) ==> ItemKey(item, j).kind in {Namespace, ParameterGroup, SubnetGroup, Secret, RdsInstance}
  {
  }

  // ---- bindings ------------------------------------------------------------------------

  /** A stored object of the plan, with its builder's inputs. */
  lemma Built(m: M, j: Jira, item: Item) returns (p: Pass, d: Draw)
    requires SteadyReachable(m, j) && ItemKey(item, j) in m.births && BelongsTo(item, BackendOf(j.spec))
    requires !Updated(ItemKey(item, j).kind)
    ensures SameIdentity(p.jira, j) && p.jira.spec == j.spec
    ensures ItemKey(item, j) in m.w.store && m.w.store[ItemKey(item, j)].body == Build(item, p, d).body
    ensures m.w.store[ItemKey(item, j)].owners == Build(item, p, d).owners
    ensures Needs(item).Some? ==>
              TextOf(p, Needs(item).value) != "" && TextOf(p, Needs(item).value) == WorldText(Needs(item).value, m.w, j)
  {
    SteadySound(m, j);
    var k := ItemKey(item, j);
    p, d := m.births[k].p, m.births[k].d;
    hide SteadyReachable, Build, Versioned, WorldText, StatusSound, PassSound, InPass, Ordered, TextOf, PlanKey, Synced;
    assert BirthFits(m.births[k], k, j);
    KeysDistinct(m.births[k].item, item, j, BackendOf(j.spec));
    hide ItemKey, BelongsTo;
  }

  /** The EBS volume and the claim of the NFS server name each other, agree in size, mode and class, and the
      volume carries the provider's id; the server mounts that claim in the volume's zone. */
  lemma NfsServerBinding(m: M, j: Jira)
    requires SteadyReachable(m, j) && BackendOf(j.spec) == Ebs
    requires ItemKey(NfsPv, j) in m.births && ItemKey(NfsPvc, j) in m.births
    ensures ItemKey(NfsPv, j) in m.w.store && ItemKey(NfsPvc, j) in m.w.store
    ensures var pv, pvc := m.w.store[ItemKey(NfsPv, j)].body, m.w.store[ItemKey(NfsPvc, j)].body;
            && pv.PvBody? && pvc.PvcBody?
            && pv.claim == ItemKey(NfsPvc, j) && Key(PersistentVolume, "", pvc.volumeName) == ItemKey(NfsPv, j)
            && pv.size == pvc.size && pv.mode == pvc.mode && pv.storageClass == pvc.storageClass
            && pv.source.AwsEbs? && pv.source.volumeId == WorldText(VolumeId, m.w, j) != ""
            && (ItemKey(NfsStatefulSet, j) in m.births ==>
                  && ItemKey(NfsStatefulSet, j) in m.w.store
                  && var set_ := m.w.store[ItemKey(NfsStatefulSet, j)].body;
                     set_.StatefulSetBody? && set_.claimName == ItemKey(NfsPvc, j).name && set_.zones == pv.zones)
  {
    hide SteadyReachable, WorldText, TextOf;
    var p1, d1 := Built(m, j, NfsPv);
    var p2, d2 := Built(m, j, NfsPvc);
    if ItemKey(NfsStatefulSet, j) in m.births {
      var p3, d3 := Built(m, j, NfsStatefulSet);
    }
  }

  /** The same for the shared home on NFS, whose storage classes agree exactly when the two are configured alike. */
  lemma SharedNfsBinding(m: M, j: Jira)
    requires SteadyReachable(m, j) && BackendOf(j.spec) == Ebs
    requires ItemKey(SharedNfsPv, j) in m.births && ItemKey(SharedNfsPvc, j) in m.births
    ensures ItemKey(SharedNfsPv, j) in m.w.store && ItemKey(SharedNfsPvc, j) in m.w.store
    ensures var pv, pvc := m.w.store[ItemKey(SharedNfsPv, j)].body, m.w.store[ItemKey(SharedNfsPvc, j)].body;
            && pv.PvBody? && pvc.PvcBody?
            && pv.claim == ItemKey(SharedNfsPvc, j)
            && Key(PersistentVolume, "", pvc.volumeName) == ItemKey(SharedNfsPv, j)
            && pv.size == pvc.size && pv.mode == pvc.mode
            && (pv.storageClass == pvc.storageClass <==>
                  j.spec.sharedFs.ebs.storageClass == j.spec.sharedFs.efs.storageClass)
            && pv.source.Nfs? && pv.source.server == WorldText(ServiceIp, m.w, j) != ""
  {
    hide SteadyReachable, WorldText, TextOf;
    var p1, d1 := Built(m, j, SharedNfsPv);
    var p2, d2 := Built(m, j, SharedNfsPvc);
  }

  lemma EfsBinding(m: M, j: Jira)
    requires SteadyReachable(m, j) && BackendOf(j.spec) == Efs
    requires ItemKey(EfsPv, j) in m.births && ItemKey(EfsPvc, j) in m.births
    ensures ItemKey(EfsPv, j) in m.w.store && ItemKey(EfsPvc, j) in m.w.store
    ensures var pv, pvc := m.w.store[ItemKey(EfsPv, j)].body, m.w.store[ItemKey(EfsPvc, j)].body;
            && pv.PvBody? && pvc.PvcBody?
            && pv.claim == ItemKey(EfsPvc, j) && Key(PersistentVolume, "", pvc.volumeName) == ItemKey(EfsPv, j)
            && pv.size == pvc.size && pv.mode == pvc.mode && pv.storageClass == pvc.storageClass
            && pv.source.Csi? && pv.source.handle == WorldText(FileSystemId, m.w, j) != ""
  {
    hide SteadyReachable, WorldText, TextOf;
    var p1, d1 := Built(m, j, EfsPv);
    var p2, d2 := Built(m, j, EfsPvc);
  }

  /** Each mount target joins the filesystem of the shared volume to its own subnet, across all passes. */
  lemma TargetBinding(m: M, j: Jira, i: nat)
    requires SteadyReachable(m, j) && BackendOf(j.spec) == Efs && i < |j.spec.network.subnetIds|
    requires ItemKey(Target(i), j) in m.births
    ensures ItemKey(Target(i), j) in m.w.store
    ensures var t := m.w.store[ItemKey(Target(i), j)].body;
            && t.MountTargetBody? && t.subnetId == j.spec.network.subnetIds[i]
            && t.fileSystemId == WorldText(FileSystemId, m.w, j) != ""
  {
    hide SteadyReachable, WorldText, TextOf;
    var p, d := Built(m, j, Target(i));
  }

  /** Snapshot content, snapshot and claim form a chain. */
  lemma SnapshotBinding(m: M, j: Jira)
    requires SteadyReachable(m, j) && BackendOf(j.spec) == Fsx
    requires ItemKey(SnapshotContent, j) in m.births && ItemKey(Snapshot, j) in m.births && ItemKey(FsxPvc, j) in m.births
    ensures ItemKey(SnapshotContent, j) in m.w.store && ItemKey(Snapshot, j) in m.w.store && ItemKey(FsxPvc, j) in m.w.store
    ensures var content, snapshot, claim := m.w.store[ItemKey(SnapshotContent, j)].body,
                                            m.w.store[ItemKey(Snapshot, j)].body, m.w.store[ItemKey(FsxPvc, j)].body;
            && content.SnapshotContentBody? && snapshot.SnapshotBody? && claim.PvcBody?
            && content.snapshot == ItemKey(Snapshot, j) && content.snapshotClass == snapshot.snapshotClass
            && snapshot.contentName == ItemKey(SnapshotContent, j).name
            && claim.dataSource == Some(ItemKey(Snapshot, j).name)
            && content.handle == j.spec.sharedFs.fsx.snapshotId
  {
    hide SteadyReachable, WorldText, TextOf;
    var p1, d1 := Built(m, j, SnapshotContent);
    var p2, d2 := Built(m, j, Snapshot);
    var p3, d3 := Built(m, j, FsxPvc);
  }

  /** The database instance names the parameter group, the subnet group and the secret of the same plan. It is
      restored from the snapshot of the database, if there is one, and is otherwise as the spec says. */
  lemma DatabaseBinding(m: M, j: Jira)
    requires SteadyReachable(m, j) && ItemKey(Rds, j) in m.births
    ensures ItemKey(Rds, j) in m.w.store
    ensures var db := m.w.store[ItemKey(Rds, j)].body;
            && db.RdsBody?
            && Key(ParameterGroup, "", db.parameterGroup) == ItemKey(ParameterGroupItem, j)
            && Key(SubnetGroup, "", db.subnetGroup) == ItemKey(SubnetGroupItem, j)
            && db.passwordSecret == ItemKey(DbSecret, j) && db.passwordKey == "password"
            && db.restoreFrom ==
               (if j.spec.database.snapshotId == "" then None else Some(j.spec.database.snapshotId))
            && db.engine == j.spec.database.engine && db.engineVersion == j.spec.database.engineVersion
            && db.instanceClass == j.spec.database.instanceClass && db.storage == j.spec.database.allocatedStorage
            && db.kmsKey == j.spec.kmsKeyId && db.connectionSecret == Key(Secret, j.name, j.name + "-db-secret")
  {
    hide SteadyReachable, WorldText, TextOf;
    var p, d := Built(m, j, Rds);
  }

  /** The job that resets the password runs against that instance, with that secret, under the account of the plan. */
  lemma ResetBinding(m: M, j: Jira)
    requires SteadyReachable(m, j) && ItemKey(ResetJob, j) in m.births
    ensures ItemKey(ResetJob, j) in m.w.store
    ensures var job := m.w.store[ItemKey(ResetJob, j)].body;
            && job.ResetJobBody? && job.dbInstance == ItemKey(Rds, j).name
            && job.passwordSecretName == ItemKey(DbSecret, j).name
            && job.serviceAccount == ItemKey(ResetAccount, j).name
  {
    hide SteadyReachable, WorldText, TextOf;
    var p, d := Built(m, j, ResetJob);
  }

  /** The EBS volume is restored from the snapshot of the spec, as large as the volume of the NFS server, in the
      zone to which that volume and the server are bound, and encrypted exactly when there is a key. */
  lemma EbsVolumeBinding(m: M, j: Jira)
    requires SteadyReachable(m, j) && BackendOf(j.spec) == Ebs
    requires ItemKey(NfsPv, j) in m.births && ItemKey(Volume, j) in m.births
    ensures ItemKey(NfsPv, j) in m.w.store && ItemKey(Volume, j) in m.w.store
    ensures var pv, v := m.w.store[ItemKey(NfsPv, j)].body, m.w.store[ItemKey(Volume, j)].body;
            && pv.PvBody? && v.EbsVolumeBody?
            && v.size == pv.size && [v.zone, v.region] == pv.zones
            && v.snapshotId == j.spec.sharedFs.ebs.snapshotId != "" && (v.encrypted <==> v.kmsKey != "")
            && (pv.source.AwsEbs? && m.w.store[ItemKey(Volume, j)].live.volumeId == Some(pv.source.volumeId))
  {
    hide SteadyReachable, TextOf;
    var p1, d1 := Built(m, j, NfsPv);
    var p2, d2 := Built(m, j, Volume);
  }

  /** The parameter group is of the family of the instance's major version: what stands before the first dot. */
  lemma FamilyBinding(m: M, j: Jira)
    requires SteadyReachable(m, j) && ItemKey(ParameterGroupItem, j) in m.births && ItemKey(Rds, j) in m.births
    ensures ItemKey(ParameterGroupItem, j) in m.w.store && ItemKey(Rds, j) in m.w.store
    ensures var pg, db := m.w.store[ItemKey(ParameterGroupItem, j)].body, m.w.store[ItemKey(Rds, j)].body;
            && pg.ParameterGroupBody? && db.RdsBody? && pg.region == db.region
            && |"postgres"| <= |pg.family| && pg.family[..|"postgres"|] == "postgres"
            && var major := pg.family[|"postgres"|..];
               && major <= db.engineVersion && '.' !in major
               && (major == db.engineVersion || db.engineVersion[|major|] == '.')
  {
    hide SteadyReachable, TextOf, WorldText;
    var p1, d1 := Built(m, j, ParameterGroupItem);
    var p2, d2 := Built(m, j, Rds);
    FamilySplits(j);
  }

  lemma FamilySplits(j: Jira)
    ensures var f := GetDbParameterGroup(j).body.family;
            && |"postgres"| <= |f| && f[..|"postgres"|] == "postgres"
            && f[|"postgres"|..] == Before(j.spec.database.engineVersion, '.')
  {
  }

  /** The Liquibase job mounts the secret and the config map that the plan creates in front of it. */
  lemma LiquibaseBinding(m: M, j: Jira)
    requires SteadyReachable(m, j) && ItemKey(LiquibaseJob, j) in m.births
    ensures ItemKey(LiquibaseJob, j) in m.w.store && m.w.store[ItemKey(LiquibaseJob, j)].body.LiquibaseJobBody?
    ensures var job := m.w.store[ItemKey(LiquibaseJob, j)].body;
            && Key(Secret, j.name, job.secretName) == ItemKey(DbSecret, j) && ItemKey(DbSecret, j) in m.w.store
            && Key(ConfigMap, j.name, job.configMapName) == ItemKey(ChangelogMap, j) && ItemKey(ChangelogMap, j) in m.w.store
  {
    hide SteadyReachable, TextOf, WorldText;
    var p, d := Built(m, j, LiquibaseJob);
    JobInputsExist(m, j);
  }

  lemma JobInputsExist(m: M, j: Jira)
    requires SteadyReachable(m, j) && ItemKey(LiquibaseJob, j) in m.births
    ensures ItemKey(DbSecret, j) in m.w.store && ItemKey(ChangelogMap, j) in m.w.store
  {
    hide Prog, ItemKey, LiquibaseAt, StorageAt, PublishAt, SteadyReachable, GetApplicationSet, Sound, Versioned,
        Upto, Ordered, InPass;
    SteadySound(m, j);
    LiquibaseLayout(j.spec);
    SecretMaker(j.spec);
    var at := LiquibaseAt(j.spec);
    assert MakesKey(Prog(j.spec)[at + 4], ItemKey(LiquibaseJob, j), j);
    Behind(m, j, at + 4, ItemKey(LiquibaseJob, j));
    ItemBehind(m, j, at + 4, at + 1);
    ItemBehind(m, j, at + 4, 3);
  }

  lemma SecretMaker(s: JiraSpec)
    ensures |Prog(s)| > 3 && Prog(s)[3] == Create(DbSecret) && 13 <= LiquibaseAt(s)
  {
    ProgLength(s);
  }

  /** The database and the mount targets are in one region, behind the same security groups and provider
      configuration, and target i is in the i-th subnet of the database's group. */
  lemma NetworkBinding(m: M, j: Jira, i: nat)
    requires SteadyReachable(m, j) && BackendOf(j.spec) == Efs && i < |j.spec.network.subnetIds|
    requires ItemKey(Target(i), j) in m.births && ItemKey(Rds, j) in m.births && ItemKey(SubnetGroupItem, j) in m.births
    ensures ItemKey(Target(i), j) in m.w.store && ItemKey(Rds, j) in m.w.store && ItemKey(SubnetGroupItem, j) in m.w.store
    ensures var t, db, g := m.w.store[ItemKey(Target(i), j)].body, m.w.store[ItemKey(Rds, j)].body,
                            m.w.store[ItemKey(SubnetGroupItem, j)].body;
            && t.MountTargetBody? && db.RdsBody? && g.SubnetGroupBody?
            && t.region == db.region == g.region && t.provider == db.provider == g.provider
            && t.securityGroups == db.securityGroups
            && i < |g.subnetIds| && t.subnetId == g.subnetIds[i]
  {
    hide SteadyReachable, TextOf, WorldText;
    var p1, d1 := Built(m, j, Target(i));
    var p2, d2 := Built(m, j, Rds);
    var p3, d3 := Built(m, j, SubnetGroupItem);
  }

  // ---- deletion ------------------------------------------------------------------------

  /** The owners of every operator-created object are those its builder gave it. */
  ghost predicate OwnersKept(m: M, j: Jira)
  {
    forall k | k in m.births && k in m.w.store :: m.w.store[k].owners == OwnersOf(m.births[k].item, j)
  }

  function OwnersOf(item: Item, j: Jira): seq<OwnerRef>
  {
    match item
    case ResetAccount => []
    case ResetJob => []
    case LiquibaseJob => []
    case AppSet => if j.spec.argo.retainOnDelete then [] else Owners(j)
    case _ => Owners(j)
  }

  lemma BuildOwners(item: Item, p: Pass, d: Draw, j: Jira)
    requires SameIdentity(p.jira, j) && p.jira.spec == j.spec
    ensures Build(item, p, d).owners == OwnersOf(item, j)
  {
    hide Template.Manifest;
  }

  lemma UpdatedKeepsOwners(m: M, f: Fault, d: Draw, j: Jira, k: Key)
    requires Inv(m, j) && OwnersKept(m, j) && m.ctl.Running? && k in m.births
    requires At(m.ctl.p.jira.spec, m.ctl.pos) != ApplyManifest
    ensures var m' := Exec(m, m.ctl.pos, m.ctl.p, f, d);
            k in m.w.store && k in m'.w.store && m'.w.store[k].owners == m.w.store[k].owners
  {
    hide Exec, At, Prog, Build, GetApplicationSet, FailAfter, TextOf, Ordered, InPass;
    hide DoRead, DoWait, DoWrite, DoCreate, DoSyncSecret, DoSyncChangelog, PlanKey, BirthFits;
    var pos, p := m.ctl.pos, m.ctl.p;
    UnfoldCall(m, pos, p, f, d);
    match At(p.jira.spec, pos)
    case Create(item) => CreateKeeps(m, pos, p, item, f, d, k);
    case Read(q) => StatusStepsKeepStore(m, pos, p, q, RdsAvailable, SyncField, f);
    case Wait(g) => StatusStepsKeepStore(m, pos, p, Changelog, g, SyncField, f);
    case Write(fld) => StatusStepsKeepStore(m, pos, p, Changelog, RdsAvailable, fld, f);
    case SyncSecret => SyncKeepsOwners(m, pos, p, f, d, k);
    case SyncChangelog => SyncKeepsOwners(m, pos, p, f, d, k);
    case RenderManifest =>
    case Finish =>
  }

  /** No call changes the owners of an object that exists. */
  lemma CallKeepsOwners(m: M, f: Fault, d: Draw, j: Jira, k: Key)
    requires Inv(m, j) && OwnersKept(m, j) && m.ctl.Running? && k in m.births
    ensures var m' := Exec(m, m.ctl.pos, m.ctl.p, f, d);
            k in m'.w.store && m'.w.store[k].owners == m.w.store[k].owners && k in m'.births && m'.births[k] == m.births[k]
  {
    hide Exec, At, Prog, Build, GetApplicationSet, FailAfter, Ordered, InPass, PlanKey, BirthFits, DoApply;
    var pos, p := m.ctl.pos, m.ctl.p;
    FilesAreSets(m, j);
    CallIsFrugal(m, pos, p, f, d);
    if At(p.jira.spec, pos) == ApplyManifest {
      UnfoldCall(m, pos, p, f, d);
      InstrAt(m, j);
      ApplyKeepsOwners(m, f, d, j, k);
    } else {
      UpdatedKeepsOwners(m, f, d, j, k);
    }
  }

  lemma UpdateKeepsOwners(m: M, pos: nat, p: Pass, i: Instr, o: Obj, f: Fault, k: Key)
    requires k in m.w.store
    ensures var m' := DoUpdate(m, pos, p, i, o, f); k in m'.w.store && m'.w.store[k].owners == m.w.store[k].owners
  {
    hide FailAfter;
  }

  lemma SyncKeepsOwners(m: M, pos: nat, p: Pass, f: Fault, d: Draw, k: Key)
    requires k in m.w.store
    ensures var m' := DoSyncSecret(m, pos, p, f, d); k in m'.w.store && m'.w.store[k].owners == m.w.store[k].owners
    ensures var m' := DoSyncChangelog(m, pos, p, f); k in m'.w.store && m'.w.store[k].owners == m.w.store[k].owners
  {
    hide TextOf, GetRdsSecret, GetLiquibaseConfigMap, DoUpdate;
    UpdateKeepsOwners(m, pos, p, SyncSecret, GetRdsSecret(p.jira, TextOf(p, RdsEndpoint), p.jira.name, d), f, k);
    UpdateKeepsOwners(m, pos, p, SyncChangelog, GetLiquibaseConfigMap(p.jira, p.jira.name, TextOf(p, Changelog)), f, k);
  }

  lemma SetOwners(j: Jira)
    ensures GetApplicationSet(j).owners == OwnersOf(AppSet, j)
  {
    hide Template.Manifest;
  }

  lemma SetKinds(b: Birth, k: Key, j: Jira)
    requires BirthFits(b, k, j)
    ensures k.kind == ApplicationSet <==> b.item == AppSet
    ensures b.item == AppSet ==> k == ItemKey(AppSet, j)
  {
    hide BelongsTo;
  }

  /** What kubectl apply does to the owners, for a manifest whose own key and owners are known. */
  lemma ApplyShape(m: M, pos: nat, p: Pass, f: Fault, d: Draw, k: Key, o: Obj)
    requires ManifestPath(p.jira) in m.w.files ==> m.w.files[ManifestPath(p.jira)] == o
    ensures var m' := DoApply(m, pos, p, f, d);
            && (k in m.w.store ==>
                  && k in m'.w.store
                  && (m'.w.store[k].owners == m.w.store[k].owners || (k == o.key && m'.w.store[k].owners == o.owners)))
            && (k !in m.w.store && k in m'.w.store ==> m'.w.store[k].owners == o.owners)
  {
    hide FailAfter, ManifestPath;
  }

  /** kubectl apply gives the ApplicationSet the owners of its manifest. */
  lemma ApplyKeepsOwners(m: M, f: Fault, d: Draw, j: Jira, k: Key)
    requires Inv(m, j) && m.ctl.Running?
    ensures var m' := DoApply(m, m.ctl.pos, m.ctl.p, f, d);
            && (k in m.births && m.w.store[k].owners == OwnersOf(m.births[k].item, j) ==>
                  k in m'.w.store && m'.w.store[k].owners == m.w.store[k].owners)
            && (k !in m.w.store && k in m'.w.store ==> m'.w.store[k].owners == OwnersOf(AppSet, j))
  {
    SetOwners(j);
    AppSetKey(j);
    hide GetApplicationSet, OwnersOf;
    if k in m.births {
      assert BirthFits(m.births[k], k, j) by { hide PlanKey, BirthFits, InPass, Ordered; }
      SetKinds(m.births[k], k, j);
    }
    assert ItemKey(AppSet, j).kind == ApplicationSet;
    hide ItemKey, PlanKey, BirthFits, InPass, Ordered, ManifestPath, DoApply;
    ApplyShape(m, m.ctl.pos, m.ctl.p, f, d, k, GetApplicationSet(j));
  }

  lemma CallOwners(m: M, f: Fault, d: Draw, j: Jira)
    requires Inv(m, j) && OwnersKept(m, j) && m.ctl.Running?
    ensures OwnersKept(Exec(m, m.ctl.pos, m.ctl.p, f, d), j)
  {
    var pos, p := m.ctl.pos, m.ctl.p;
    var m' := Exec(m, pos, p, f, d);
    FilesAreSets(m, j);
    CallIsFrugal(m, pos, p, f, d);
    InstrAt(m, j);
    ExecKeepsInv(m, f, d, j);
    hide Exec, Build, Prog, OwnersOf, Rank, At, PlanKey, InPass, Ordered, GetApplicationSet, BirthFits;
    forall k | k in m'.births && k in m'.w.store
      ensures m'.w.store[k].owners == OwnersOf(m'.births[k].item, j)
    {
      if k in m.births {
        hide Inv, Frugal;
        CallKeepsOwners(m, f, d, j, k);
      } else {
        NewOwners(m, f, d, j, k);
      }
    }
  }

  lemma NewOwners(m: M, f: Fault, d: Draw, j: Jira, k: Key)
    requires Inv(m, j) && m.ctl.Running? && k !in m.births
    requires Inv(Exec(m, m.ctl.pos, m.ctl.p, f, d), j)
    requires k in Exec(m, m.ctl.pos, m.ctl.p, f, d).births && k in Exec(m, m.ctl.pos, m.ctl.p, f, d).w.store
    ensures var m' := Exec(m, m.ctl.pos, m.ctl.p, f, d); m'.w.store[k].owners == OwnersOf(m'.births[k].item, j)
  {
    var pos, p := m.ctl.pos, m.ctl.p;
    var m' := Exec(m, pos, p, f, d);
    FilesAreSets(m, j);
    CallIsFrugal(m, pos, p, f, d);
    InstrAt(m, j);
    hide Prog, Rank, PlanKey, InPass, Ordered, GetApplicationSet;
    assert BirthFits(m'.births[k], k, j) by { hide Exec, Frugal, BirthFits; }
    SetKinds(m'.births[k], k, j);
    BuildOwners(m'.births[k].item, p, m'.births[k].d, j);
    hide BirthFits, Build, OwnersOf, ItemKey;
    if k.kind == ApplicationSet {
      hide Frugal;
      OnlyApplyMakesSets(m, f, d, j, k);
      UnfoldCall(m, pos, p, f, d);
      ApplyKeepsOwners(m, f, d, j, k);
      assert k !in m.w.store by { OldOrNew(m, f, d, j, k); }
    }
  }

  lemma OldOrNew(m: M, f: Fault, d: Draw, j: Jira, k: Key)
    requires Inv(m, j) && m.ctl.Running? && k !in m.births && k in Exec(m, m.ctl.pos, m.ctl.p, f, d).births
    ensures k !in m.w.store
  {
    FilesAreSets(m, j);
    CallIsFrugal(m, m.ctl.pos, m.ctl.p, f, d);
    hide Exec, Build, Inv;
  }

  lemma OnlyApplyMakesSets(m: M, f: Fault, d: Draw, j: Jira, k: Key)
    requires Inv(m, j) && m.ctl.Running? && k !in m.births && k.kind == ApplicationSet
    requires k in Exec(m, m.ctl.pos, m.ctl.p, f, d).births
    ensures At(m.ctl.p.jira.spec, m.ctl.pos) == ApplyManifest
  {
    var pos, p := m.ctl.pos, m.ctl.p;
    InstrAt(m, j);
    ExecQuiet(m, pos, p, f, d);
    match At(p.jira.spec, pos)
    case Create(item) =>
      hide Prog, Rank, Inv, Build, DoCreate;
      UnfoldCall(m, pos, p, f, d);
      CreateMayBear(m, pos, p, item, f, d);
      SetOnlyFromAppSet(item, p.jira);
      hide ItemKey, At;
    case ApplyManifest =>
    case _ => hide Prog, Rank, Inv, Exec, At;
  }

  lemma SetOnlyFromAppSet(item: Item, j: Jira)
    ensures ItemKey(item, j).kind == ApplicationSet ==> item == AppSet
  {
  }

  lemma ActOwners(m: M, a: Action, j: Jira)
    requires Accounted(m, j) && OwnersKept(m, j) && Benign(Env(a), j)
    ensures OwnersKept(Act(m, a), j)
  {
    hide OwnersOf, PlanKey, BirthFits, GetApplicationSet, ItemKey;
  }

  lemma StepOwners(m: M, e: Event, j: Jira)
    requires Inv(m, j) && OwnersKept(m, j) && Benign(e, j)
    ensures OwnersKept(Step(m, e), j)
  {
    match e
    case Call(f, d) =>
      if m.ctl.Running? {
        hide Exec, Inv, OwnersKept;
        CallOwners(m, f, d, j);
      }
    case Env(a) =>
      hide Act, OwnersKept, InPass, Ordered, Accounted;
      ActOwners(m, a, j);
    case Begin(_) => hide Inv, OwnersOf;
    case Crash => hide Inv, OwnersOf;
  }

  lemma {:induction false} RunOwners(m: M, es: seq<Event>, j: Jira)
    requires Inv(m, j) && OwnersKept(m, j) && AllBenign(es, j)
    ensures Inv(Run(m, es), j) && OwnersKept(Run(m, es), j)
  {
    hide Inv, OwnersKept, Step;
    if es != [] {
      var init := es[..|es| - 1];
      assert forall e | e in init :: e in es;
      RunOwners(m, init, j);
      assert es[|es| - 1] in es;
      StepKeepsInv(Run(m, init), es[|es| - 1], j);
      StepOwners(Run(m, init), es[|es| - 1], j);
    }
  }

  lemma ReachableOwners(m: M, j: Jira)
    requires Reachable(m, j)
    ensures Inv(m, j) && OwnersKept(m, j)
  {
    hide Inv, OwnersOf, Run;
    var m0: M, es: seq<Event> :| Clean(m0, j) && AllBenign(es, j) && m == Run(m0, es);
    CleanIsInv(m0, j);
    assert OwnersKept(m0, j) by { NobodyOwned(m0, j); }
    RunOwners(m0, es, j);
  }

  lemma NobodyOwned(m: M, j: Jira)
    requires Clean(m, j)
    ensures OwnersKept(m, j)
  {
    hide PlanKey;
  }

  /** Every object of the plan is owned by the resource alone, except the account and the two jobs, which nobody owns,
      and a retained ApplicationSet. */
  lemma OwnersAre(m: M, j: Jira, item: Item)
    requires Reachable(m, j) && ItemKey(item, j) in m.births && BelongsTo(item, BackendOf(j.spec))
    ensures ItemKey(item, j) in m.w.store
    ensures m.w.store[ItemKey(item, j)].owners ==
            if item == ResetAccount || item == ResetJob || item == LiquibaseJob
               || (item == AppSet && j.spec.argo.retainOnDelete)
            then [] else [OwnerRef("app.atlassian.com/v1", "Jira", j.name, j.uid, true)]
  {
    hide Prog, Reachable, BelongsTo, PlanKey, InPass, Ordered;
    var k := ItemKey(item, j);
    ReachableOwners(m, j);
    assert BirthFits(m.births[k], k, j);
    hide ItemKey;
    KeysDistinct(m.births[k].item, item, j, BackendOf(j.spec));
    NamespaceFirst(m, j, k);
  }

  /** Kubernetes collects what the resource owns, and everything in a namespace it owns. */
  ghost predicate Collected(k: Key, w: World, j: Jira)
  {
    || (k in w.store && w.store[k].owners == Owners(j))
    || (&& k.ns == j.name
        && ItemKey(NamespaceItem, j) in w.store && w.store[ItemKey(NamespaceItem, j)].owners == Owners(j))
  }

  /** Deleting the resource collects every object the operator created, except the ApplicationSet exactly
      when it is to be retained (and does not live in the collected namespace). */
  lemma DeletionClosure(m: M, j: Jira, k: Key)
    requires Reachable(m, j) && k in m.births
    ensures Collected(k, m.w, j) <==>
              !(k.kind == ApplicationSet && j.spec.argo.retainOnDelete && j.spec.argo.namespace != j.name)
  {
    var m0: M, es: seq<Event> :| Clean(m0, j) && AllBenign(es, j) && m == Run(m0, es);
    CleanIsInv(m0, j);
    assert OwnersKept(m0, j);
    RunOwners(m0, es, j);
    assert BirthFits(m.births[k], k, j) by { hide PlanKey, BirthFits, InPass, Ordered, GetApplicationSet, Run; }
    SetKinds(m.births[k], k, j);
    NamespaceFirst(m, j, k);
    hide Inv, Run, Clean, Reachable, AllBenign;
    OrphansLiveInNamespace(m.births[k].item, j);
    assert m.w.store[k].owners == OwnersOf(m.births[k].item, j);
    assert m.w.store[ItemKey(NamespaceItem, j)].owners == Owners(j) by { NamespaceOwned(m, j); }
    hide ItemKey, BelongsTo, OwnersKept;
  }

  lemma OrphansLiveInNamespace(item: Item, j: Jira)
    ensures OwnersOf(item, j) == Owners(j) || ItemKey(item, j).ns == j.name || item == AppSet
    ensures item != AppSet ==> OwnersOf(item, j) == Owners(j) || ItemKey(item, j).ns == j.name
  {
  }

  /** The namespace is the first object of the plan. */
  lemma NamespaceFirst(m: M, j: Jira, k: Key)
    requires Inv(m, j) && k in m.births
    ensures ItemKey(NamespaceItem, j) in m.births && ItemKey(NamespaceItem, j) in m.w.store
    ensures k in m.w.store
  {
    ProgLength(j.spec);
    assert Prog(j.spec)[0] == Create(NamespaceItem);
    hide Prog, ItemKey, GetApplicationSet, InPass, BirthFits;
    var i: nat :| i < |Prog(j.spec)| && MakesKey(Prog(j.spec)[i], k, j);
    Behind(m, j, i, k);
    if i > 0 {
      assert Done(Prog(j.spec)[0], m, j);
    }
  }

  lemma NamespaceOwned(m: M, j: Jira)
    requires Inv(m, j) && OwnersKept(m, j)
    requires ItemKey(NamespaceItem, j) in m.births && ItemKey(NamespaceItem, j) in m.w.store
    ensures m.w.store[ItemKey(NamespaceItem, j)].owners == Owners(j)
  {
    var k := ItemKey(NamespaceItem, j);
    assert BirthFits(m.births[k], k, j) by { hide PlanKey, BirthFits, InPass, Ordered, GetApplicationSet; }
    assert m.births[k].item == NamespaceItem by { hide Inv, OwnersKept; }
    hide Inv;
  }

  /** The cloud resources survive the deletion exactly when the resource asks for it. */
  lemma OrphanPolicy(m: M, j: Jira, item: Item)
    requires SteadyReachable(m, j) && ItemKey(item, j) in m.births && BelongsTo(item, BackendOf(j.spec))
    requires item.Rds? || item.Volume? || item.SharedFileSystem? || item.Target?
    ensures ItemKey(item, j) in m.w.store
    ensures var body := m.w.store[ItemKey(item, j)].body;
            && (body.RdsBody? || body.EbsVolumeBody? || body.FileSystemBody? || body.MountTargetBody?)
            && (body.deletion == Orphan <==> j.spec.retainOnDelete)
  {
    hide SteadyReachable, WorldText, TextOf;
    var p, d := Built(m, j, item);
  }
}
