/** What an undisturbed pass leaves behind, in terms of the stored objects it met. */
module Results {
  import opened Api
  import opened Plan
  import opened Machine
  import opened Ideal
  import opened Layout
  import opened Opening
  import opened Schedule
  import Fixpoint
  import Template

  // ---- how far the pass gets ---------------------------------------------------------------------

  predicate PastDatabase(w: World)
  {
    DatabaseDue(w).None?
  }

  predicate PastReset(w: World)
  {
    PastDatabase(w) && ResetDue(w).None?
  }

  predicate PastLiquibase(w: World)
  {
    PastReset(w) && LiquibaseDue(w).None?
  }

  predicate PastStorage(w: World)
  {
    PastLiquibase(w) && StorageDue(w).None?
  }

  lemma Reaches(w: World, n: nat)
    requires Until(w, n)
    ensures Stop(w) >= n
  {
    hide Prog, Blocked, StopIn;
  }

  lemma ReachesReset(w: World)
    requires PastDatabase(w)
    ensures Until(w, 13)
  {
    hide Until, DatabaseDue;
    DatabasePhase(w);
  }

  lemma ReachesLiquibase(w: World)
    requires PastReset(w)
    ensures Until(w, LiquibaseAt(w.cr.spec))
  {
    hide Until, DatabaseDue, ResetDue, LiquibaseAt;
    DatabasePhase(w);
    ResetPhase(w);
  }

  lemma ReachesStorage(w: World)
    requires PastLiquibase(w)
    ensures Until(w, StorageAt(w.cr.spec))
  {
    hide Until, DatabaseDue, ResetDue, LiquibaseDue, LiquibaseAt, StorageAt;
    DatabasePhase(w);
    ResetPhase(w);
    LiquibasePhase(w);
  }

  lemma ReachesPublish(w: World)
    requires PastStorage(w)
    ensures Until(w, PublishAt(w.cr.spec))
  {
    hide Until, DatabaseDue, ResetDue, LiquibaseDue, StorageDue, LiquibaseAt, StorageAt, PublishAt;
    ReachesStorage(w);
    StoragePhase(w);
  }

  // ---- what it leaves ------------------------------------------------------------------------------

  lemma Recorded(w: World, d: nat -> Draw, k: nat, f: Field)
    requires k < Stop(w) && At(w.cr.spec, k) == Write(f)
    ensures Get(After(w, Stop(w), d).cr.status, f) == FieldValue(f, w)
  {
    hide Prog, FieldValue, Get, After;
    Fixpoint.FieldHeld(w, Stop(w), d, k, f);
  }

  lemma DatabaseTexts(w: World)
    ensures var db := Key(RdsInstance, "", w.cr.name + "-" + w.cr.uid);
            && SightText(RdsStatus, w) == (if db in w.store then w.store[db].live.rdsStatus else "")
            && SightText(RdsEndpoint, w) == (if db in w.store then w.store[db].live.endpoint else "")
  {
    DatabaseNames(w.cr);
    BuildKey(Rds, Pass(w.cr, map[], false), NO_DRAW);
    hide ItemKey, Build;
  }

  /** Every pass records the status of the database, also while the database is not there yet. */
  lemma RecordsStatus(w: World, d: nat -> Draw)
    ensures var db := Key(RdsInstance, "", w.cr.name + "-" + w.cr.uid);
            After(w, Stop(w), d).cr.status.rdsStatus == if db in w.store then w.store[db].live.rdsStatus else ""
  {
    hide Until, After, Blocked, At, Prog, SightText;
    DatabaseAt(w.cr.spec);
    Start(w);
    Skip(w, 0, 7);
    Reaches(w, 7);
    Recorded(w, d, 6, RdsStatusField);
    DatabaseTexts(w);
  }

  /** Once the database is available, the status and the secret carry its endpoint. */
  lemma RecordsEndpoint(w: World, d: nat -> Draw)
    requires PastDatabase(w)
    ensures var db, secret := Key(RdsInstance, "", w.cr.name + "-" + w.cr.uid), Key(Secret, w.cr.name, "jira-database-secret");
            var w' := After(w, Stop(w), d);
            && db in w.store && w'.cr.status.endpoint == w.store[db].live.endpoint
            && secret in w'.store && w'.store[secret].body.SecretBody?
            && w'.store[secret].body.data.hostname == w.store[db].live.endpoint
  {
    hide Until, After, Blocked, At, Prog, SightText, ItemKey;
    DatabaseAt(w.cr.spec);
    ReachesReset(w);
    Reaches(w, 13);
    Recorded(w, d, 12, EndpointField);
    DatabaseTexts(w);
    DatabaseNames(w.cr);
    Fixpoint.SecretHeld(w, Stop(w), d);
  }

  lemma RecordsReset(w: World, d: nat -> Draw)
    requires PastReset(w) && w.cr.spec.database.snapshotId != ""
    ensures After(w, Stop(w), d).cr.status.resetJob == "Succeeded"
  {
    hide Until, After, Blocked, At, Prog;
    ResetLayout(w.cr.spec);
    hide LiquibaseAt;
    ReachesLiquibase(w);
    Reaches(w, 18);
    Recorded(w, d, 17, ResetField);
  }

  /** The config map holds what the file holds, whether or not the job has run. */
  lemma RecordsChangelog(w: World, d: nat -> Draw)
    requires PastReset(w) && w.changelog.Some? && w.changelog.value != ""
    ensures var k := Key(ConfigMap, w.cr.name, w.cr.name + "-liquibase-changelog");
            var w' := After(w, Stop(w), d);
            k in w'.store && w'.store[k].body == ConfigMapBody(w.changelog.value)
  {
    hide Until, After, Blocked, At, Prog, ItemKey, LiquibaseAt, StorageAt;
    var at := LiquibaseAt(w.cr.spec);
    LiquibaseLayout(w.cr.spec);
    ReachesLiquibase(w);
    ChangelogGate(w);
    Go(w, at);
    Schedule.Skip(w, at + 1, at + 6);
    Reaches(w, at + 6);
    JobNames(w.cr);
    Fixpoint.ChangelogHeld(w, Stop(w), d);
  }

  lemma RecordsLiquibase(w: World, d: nat -> Draw)
    requires PastLiquibase(w)
    ensures After(w, Stop(w), d).cr.status.liquibaseJob == "Succeeded"
  {
    hide Until, After, Blocked, At, Prog, LiquibaseAt, StorageAt;
    LiquibaseLayout(w.cr.spec);
    ReachesStorage(w);
    Reaches(w, StorageAt(w.cr.spec));
    Recorded(w, d, LiquibaseAt(w.cr.spec) + 7, LiquibaseField);
  }

  lemma RecordsVolume(w: World, d: nat -> Draw)
    requires PastStorage(w) && w.cr.spec.sharedFs.ebs.snapshotId != ""
    ensures var k := Key(EbsVolume, "", w.cr.name + "-" + w.cr.uid);
            k in w.store && w.store[k].live.volumeId == Some(After(w, Stop(w), d).cr.status.ebsId)
  {
    hide Until, After, Blocked, At, Prog, StorageAt, PublishAt, LiquibaseDue, ResetDue, DatabaseDue, LiquibaseAt;
    EbsLayout(w.cr.spec);
    ReachesPublish(w);
    Reaches(w, PublishAt(w.cr.spec));
    Recorded(w, d, StorageAt(w.cr.spec) + 13, EbsIdField);
    NfsNames(w.cr);
    hide ItemKey;
  }

  lemma RecordsHandle(w: World, d: nat -> Draw)
    requires PastStorage(w) && w.cr.spec.sharedFs.ebs.snapshotId == "" && w.cr.spec.sharedFs.fsx.snapshotId != ""
    ensures var k := Key(PersistentVolume, "", BoundVolume(w));
            && k in w.store && w.store[k].body.PvBody? && w.store[k].body.source.Csi?
            && After(w, Stop(w), d).cr.status.fsxId == w.store[k].body.source.handle
  {
    hide Until, After, Blocked, At, Prog, StorageAt, PublishAt, LiquibaseDue, ResetDue, DatabaseDue, LiquibaseAt;
    FsxLayout(w.cr.spec);
    ReachesPublish(w);
    Reaches(w, PublishAt(w.cr.spec));
    Recorded(w, d, StorageAt(w.cr.spec) + 7, FsxIdField);
    BoundVolumeIs(w);
    hide ItemKey, ObjectOf, BoundVolume;
  }

  lemma RecordsFileSystem(w: World, d: nat -> Draw)
    requires PastStorage(w) && w.cr.spec.sharedFs.ebs.snapshotId == "" && w.cr.spec.sharedFs.fsx.snapshotId == ""
    ensures var k := Key(FileSystem, "", w.cr.name + "-" + w.cr.uid);
            k in w.store && w.store[k].live.fileSystemId == Some(After(w, Stop(w), d).cr.status.efsId)
  {
    hide Until, After, Blocked, At, Prog, StorageAt, PublishAt, LiquibaseDue, ResetDue, DatabaseDue, LiquibaseAt;
    EfsTailLayout(w.cr.spec);
    ReachesPublish(w);
    Reaches(w, PublishAt(w.cr.spec));
    Recorded(w, d, PublishAt(w.cr.spec) - 1, EfsIdField);
    SharedNames(w.cr);
    hide ItemKey;
  }

  /** With every gate of the plan open, the ApplicationSet is there with the manifest rendered now, kept apart from
      what Argo CD wrote into it; and what Argo CD says of the application, if there is one, is recorded. */
  lemma RecordsApplication(w: World, d: nat -> Draw)
    requires PastStorage(w)
    ensures var k := Key(ApplicationSet, w.cr.spec.argo.namespace, w.cr.name);
            var w' := After(w, Stop(w), d);
            && k in w'.store && w'.store[k].body == ApplicationSetBody(Template.Manifest(w.cr))
            && w'.store[k].owners ==
               (if w.cr.spec.argo.retainOnDelete then []
                else [OwnerRef("app.atlassian.com/v1", "Jira", w.cr.name, w.cr.uid, true)])
            && (k in w.store ==> w'.store[k].live == w.store[k].live)
            && (w.app.Some? ==> w'.cr.status.sync == w.app.value.sync && w'.cr.status.health == w.app.value.health)
  {
    hide Until, After, Blocked, At, Prog, StorageAt, PublishAt, LiquibaseAt, Template.Manifest, PastStorage, ItemKey, SightText;
    var at := PublishAt(w.cr.spec);
    PublishLayout(w.cr.spec);
    ReachesPublish(w);
    Schedule.Skip(w, at, at + 2);
    Reaches(w, at + 2);
    SetApplied(w, d, at + 1);
    SetLiveKept(w, d);
    ApplicationGate(w);
    if w.app.Some? {
      Go(w, at + 2);
      Schedule.Skip(w, at + 3, at + 4);
      Go(w, at + 4);
      Schedule.Skip(w, at + 5, at + 6);
      Reaches(w, at + 6);
      Recorded(w, d, at + 3, SyncField);
      Recorded(w, d, at + 5, HealthField);
      ApplicationTexts(w);
    }
  }

  lemma ApplicationTexts(w: World)
    requires w.app.Some?
    ensures SightText(AppSync, w) == w.app.value.sync && SightText(AppHealth, w) == w.app.value.health
  {
  }

  lemma SetApplied(w: World, d: nat -> Draw, k: nat)
    requires k < Stop(w) && At(w.cr.spec, k) == ApplyManifest
    ensures var key := Key(ApplicationSet, w.cr.spec.argo.namespace, w.cr.name);
            var w' := After(w, Stop(w), d);
            && key in w'.store && w'.store[key].body == ApplicationSetBody(Template.Manifest(w.cr))
            && w'.store[key].owners ==
               (if w.cr.spec.argo.retainOnDelete then []
                else [OwnerRef("app.atlassian.com/v1", "Jira", w.cr.name, w.cr.uid, true)])
  {
    hide Prog, After, Template.Manifest;
    Fixpoint.SetHeld(w, Stop(w), d, k);
  }

  lemma SetLiveKept(w: World, d: nat -> Draw)
    ensures var key := Key(ApplicationSet, w.cr.spec.argo.namespace, w.cr.name);
            key in w.store ==> key in After(w, Stop(w), d).store && After(w, Stop(w), d).store[key].live == w.store[key].live
  {
    hide Prog, Effect, Stop;
    AfterKeeps(w, 0, Stop(w), d);
  }
}
