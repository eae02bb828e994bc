/** What was waited for is still there: while providers take nothing back, an object of a later phase exists only
    beside the successful jobs and the identifiers of the earlier ones. */
module Standing {
  import opened Api
  import opened Plan
  import opened Machine
  import opened Safety
  import opened Frame
  import Builders
  import opened Soundness
  import Order

  // ---- when a gate counts as seen ----------------------------------------------------------------

  /** What the pass read shows that the gate is open. */
  predicate Shows(g: Gate, r: Reading)
  {
    match g
    case RdsAvailable => r == Text("available")
    case EndpointKnown => r.Text? && r.s != ""
    case ResetDone => r.Count? && r.n >= 1
    case LiquibaseDone => r.Count? && r.n >= 1
    case VolumeIdKnown => r.Text? && r.s != ""
    case ServiceIpKnown => r.Text? && r.s != ""
    case NfsReady => r.Count? && r.n >= 1
    case ClaimBound => r == Text("Bound")
    case FileSystemIdKnown => r.Pointer? && r.p.Some? && r.p.value != ""
    case TargetAvailable(_) => r == Pointer(Some("available"))
  }

  lemma OpenShows(g: Gate, r: Reading)
    ensures Judge(g, r) == Open <==> Shows(g, r)
  {
  }

  /** The history of the gates grows in the call of a pass that waits at a gate and has read that it is open, and in
      no other event. */
  lemma SeenMeansOpen(m: M, e: Event, g: Gate)
    ensures g in Step(m, e).seen <==>
              || g in m.seen
              || (&& e.Call? && m.ctl.Running? && At(m.ctl.p.jira.spec, m.ctl.pos) == Wait(g)
                  && GateQuery(g) in m.ctl.p.obs && Shows(g, m.ctl.p.obs[GateQuery(g)]))
  {
    hide Exec, At, Act, Shows, Judge, GateQuery;
    match e
    case Call(f, d) =>
      if m.ctl.Running? {
        CallSees(m, m.ctl.pos, m.ctl.p, f, d, g);
      }
    case Env(a) => ActSees(m, a);
    case _ =>
  }

  lemma ActSees(m: M, a: Action)
    ensures Act(m, a).seen == m.seen
  {
  }

  lemma StoreStepsSeeNothing(m: M, pos: nat, p: Pass, item: Item, q: Query, fld: Field, f: Fault, d: Draw)
    ensures DoCreate(m, pos, p, item, f, d).seen == m.seen && DoRead(m, pos, p, q, f).seen == m.seen
    ensures DoWrite(m, pos, p, fld, f).seen == m.seen
  {
    hide Build, FailAfter, Peek, ValueOf, Set, Machine.Get;
  }

  lemma SyncStepsSeeNothing(m: M, pos: nat, p: Pass, f: Fault, d: Draw)
    ensures DoSyncSecret(m, pos, p, f, d).seen == m.seen && DoSyncChangelog(m, pos, p, f).seen == m.seen
    ensures DoRender(m, pos, p, f).seen == m.seen && DoApply(m, pos, p, f, d).seen == m.seen
  {
    hide FailAfter, TextOf, Builders.GetRdsSecret, Builders.GetLiquibaseConfigMap, Builders.GetApplicationSet, Builders.ManifestPath;
  }

  lemma CallSees(m: M, pos: nat, p: Pass, f: Fault, d: Draw, g: Gate)
    ensures g in Exec(m, pos, p, f, d).seen <==>
              || g in m.seen
              || (At(p.jira.spec, pos) == Wait(g) && GateQuery(g) in p.obs && Shows(g, p.obs[GateQuery(g)]))
  {
    hide Exec, At, Shows, Judge, GateQuery, DoCreate, DoRead, DoWrite, DoSyncSecret, DoSyncChangelog, DoRender, DoApply;
    UnfoldCall(m, pos, p, f, d);
    match At(p.jira.spec, pos)
    case Create(item) => StoreStepsSeeNothing(m, pos, p, item, Changelog, SyncField, f, d);
    case Read(q) => StoreStepsSeeNothing(m, pos, p, AppSet, q, SyncField, f, d);
    case Write(fld) => StoreStepsSeeNothing(m, pos, p, AppSet, Changelog, fld, f, d);
    case Wait(h) =>
      if GateQuery(h) in p.obs {
        OpenShows(h, p.obs[GateQuery(h)]);
      }
    case Finish =>
    case _ => SyncStepsSeeNothing(m, pos, p, f, d);
  }

  // ---- what is still there -------------------------------------------------------------------------

  /** The fact behind a gate, for those that providers write once. */
  ghost predicate Stands(g: Gate, w: World, j: Jira)
  {
    match g
    case EndpointKnown =>
      var k := Key(RdsInstance, "", j.name + "-" + j.uid); k in w.store && w.store[k].live.endpoint != ""
    case ResetDone =>
      var k := Key(Job, j.name, j.name + "-reset-rds-credentials"); k in w.store && w.store[k].live.succeeded >= 1
    case LiquibaseDone =>
      var k := Key(Job, j.name, j.name + "-liquibase-changeset"); k in w.store && w.store[k].live.succeeded >= 1
    case VolumeIdKnown =>
      var k := Key(EbsVolume, "", j.name + "-" + j.uid); k in w.store && OrEmpty(w.store[k].live.volumeId) != ""
    case ServiceIpKnown =>
      var k := Key(Service, j.name, j.name + "-nfs-server"); k in w.store && w.store[k].live.clusterIp != ""
    case FileSystemIdKnown =>
      var k := Key(FileSystem, "", j.name + "-" + j.uid); k in w.store && OrEmpty(w.store[k].live.fileSystemId) != ""
    case _ => true
  }

  lemma StandsKept(g: Gate, w: World, w': World, j: Jira)
    requires Stands(g, w, j) && Extends(w, w')
    ensures Stands(g, w', j)
  {
  }

  lemma TextStands(q: Query, w: World, j: Jira)
    requires WorldText(q, w, j) != ""
    ensures q == RdsEndpoint ==> Stands(EndpointKnown, w, j)
    ensures q == VolumeId ==> Stands(VolumeIdKnown, w, j)
    ensures q == ServiceIp ==> Stands(ServiceIpKnown, w, j)
    ensures q == FileSystemId ==> Stands(FileSystemIdKnown, w, j)
  {
    DatabaseNames(j);
    NfsNames(j);
    SharedNames(j);
    hide ItemKey, ClaimText, HandleText;
  }

  lemma JobStands(w: World, j: Jira)
    ensures JobDone(ResetJob, w, j) ==> Stands(ResetDone, w, j)
    ensures JobDone(LiquibaseJob, w, j) ==> Stands(LiquibaseDone, w, j)
  {
    JobNames(j);
    hide ItemKey;
  }

  lemma ReadingStands(g: Gate, p: Pass, w: World, j: Jira)
    requires LocalsSound(p, w, j) && GateQuery(g) in p.obs && Shows(g, p.obs[GateQuery(g)])
    ensures Stands(g, w, j)
  {
    hide Stands, WorldText, JobDone;
    OpenShows(g, p.obs[GateQuery(g)]);
    JobStands(w, j);
    if Fixed(GateQuery(g)) {
      assert TextOf(p, GateQuery(g)) != "";
      TextStands(GateQuery(g), w, j);
    } else if g != ResetDone && g != LiquibaseDone {
      OthersStand(g, w, j);
    }
  }

  lemma OthersStand(g: Gate, w: World, j: Jira)
    requires g == RdsAvailable || g == NfsReady || g == ClaimBound || g.TargetAvailable?
    ensures Stands(g, w, j)
  {
  }

  lemma StepExtends(m: M, e: Event, j: Jira)
    requires Inv(m, j) && Sound(m, j) && Steady(m, e, j)
    ensures Extends(m.w, Step(m, e).w)
  {
    hide Exec, Act, Inv, Sound;
    match e
    case Call(f, d) =>
      if m.ctl.Running? {
        CallExtends(m, f, d, j);
      }
    case Env(a) => ActExtends(m, a, j);
    case _ =>
  }

  lemma NewlySeenStands(m: M, e: Event, j: Jira, g: Gate)
    requires Sound(m, j) && g in Step(m, e).seen && g !in m.seen
    ensures Stands(g, m.w, j)
  {
    hide Step, Stands, Shows, LocalsSound, StatusSound, BirthsSound, PassOpen, Synced, At;
    SeenMeansOpen(m, e, g);
    ReadingStands(g, m.ctl.p, m.w, j);
  }

  lemma {:induction false} RunStands(m: M, es: seq<Event>, j: Jira)
    requires Inv(m, j) && Versioned(m) && Intact(m) && Sound(m, j) && SteadyRun(m, es, j) && m.seen == {}
    ensures forall g | g in Run(m, es).seen :: Stands(g, Run(m, es).w, j)
  {
    hide Inv, Versioned, Intact, Sound, Step, Steady, Stands, Extends;
    if es != [] {
      var init, e := es[..|es| - 1], es[|es| - 1];
      var u := Run(m, init);
      RunStands(m, init, j);
      SteadyRunKeeps(m, init, j);
      StepExtends(u, e, j);
      forall g | g in Step(u, e).seen
        ensures Stands(g, Step(u, e).w, j)
      {
        if g !in u.seen {
          NewlySeenStands(u, e, j, g);
        }
        StandsKept(g, u.w, Step(u, e).w, j);
      }
    }
  }

  lemma SeenStands(m: M, j: Jira, g: Gate)
    requires SteadyReachable(m, j) && g in m.seen
    ensures Stands(g, m.w, j)
  {
    var m0: M, es: seq<Event> :| Clean(m0, j) && SteadyRun(m0, es, j) && m == Run(m0, es);
    CleanIsInv(m0, j);
    InitialIsIntact(m0);
    assert Sound(m0, j) by { hide Prog, WorldText, Synced, JobDone; }
    assert m0.seen == {};
    hide Inv, Versioned, Intact, Sound, Run, Clean, Stands;
    RunStands(m0, es, j);
  }

  // ---- the order of the plan, as facts about the cluster ---------------------------------------------

  /** The database has an endpoint, and the job that resets a restored database's password has succeeded. */
  ghost predicate DatabaseStands(w: World, j: Jira)
  {
    && (var db := Key(RdsInstance, "", j.name + "-" + j.uid); db in w.store && w.store[db].live.endpoint != "")
    && (j.spec.database.snapshotId != "" ==>
          var job := Key(Job, j.name, j.name + "-reset-rds-credentials");
          job in w.store && w.store[job].live.succeeded >= 1)
  }

  ghost predicate LiquibaseStands(w: World, j: Jira)
  {
    var job := Key(Job, j.name, j.name + "-liquibase-changeset");
    job in w.store && w.store[job].live.succeeded >= 1
  }

  lemma DatabaseSeenStands(m: M, j: Jira)
    requires SteadyReachable(m, j) && Order.DatabaseSeen(m, j)
    ensures DatabaseStands(m.w, j)
  {
    hide SteadyReachable;
    SeenStands(m, j, EndpointKnown);
    if j.spec.database.snapshotId != "" {
      SeenStands(m, j, ResetDone);
    }
  }

  lemma SteadyIsReachable(m: M, j: Jira)
    requires SteadyReachable(m, j)
    ensures Order.Reachable(m, j)
  {
    hide Clean, Run;
    var m0: M, es: seq<Event> :| Clean(m0, j) && SteadyRun(m0, es, j) && m == Run(m0, es);
    SteadyIsBenign(m0, es, j);
  }

  lemma {:induction false} SteadyIsBenign(m: M, es: seq<Event>, j: Jira)
    requires SteadyRun(m, es, j)
    ensures AllBenign(es, j)
  {
    hide Run, Benign;
    if es != [] {
      SteadyIsBenign(m, es[..|es| - 1], j);
      assert forall e | e in es :: e in es[..|es| - 1] || e == es[|es| - 1];
    }
  }

  /** Where there is a Liquibase object, the database has an endpoint and its password was reset. */
  lemma LiquibaseOnDatabase(m: M, j: Jira)
    requires SteadyReachable(m, j)
    requires ItemKey(ChangelogMap, j) in m.births || ItemKey(LiquibaseJob, j) in m.births
    ensures DatabaseStands(m.w, j)
  {
    hide SteadyReachable, Order.Reachable, DatabaseStands, ItemKey, Order.DatabaseSeen;
    SteadyIsReachable(m, j);
    Order.LiquibaseSafety(m, j);
    DatabaseSeenStands(m, j);
  }

  /** Where there is a storage object, the Liquibase job has succeeded as well. */
  lemma StorageOnLiquibase(m: M, j: Jira, k: Key)
    requires SteadyReachable(m, j) && k in m.births && Order.StorageKind(k.kind)
    ensures DatabaseStands(m.w, j) && LiquibaseStands(m.w, j)
  {
    hide SteadyReachable, Order.Reachable, DatabaseStands, Order.DatabaseSeen;
    SteadyIsReachable(m, j);
    Order.StorageSafety(m, j, k);
    DatabaseSeenStands(m, j);
    SeenStands(m, j, LiquibaseDone);
  }

  /** Where there is the ApplicationSet, there is all of that and the provider's identifier of the storage. */
  lemma SetOnStorage(m: M, j: Jira)
    requires SteadyReachable(m, j) && ItemKey(AppSet, j) in m.births
    ensures DatabaseStands(m.w, j) && LiquibaseStands(m.w, j)
    ensures Key(PersistentVolumeClaim, j.name, "jira-shared-home") in m.births
    ensures j.spec.sharedFs.ebs.snapshotId != "" ==>
              && (var k := Key(EbsVolume, "", j.name + "-" + j.uid);
                  k in m.w.store && OrEmpty(m.w.store[k].live.volumeId) != "")
              && (var k := Key(Service, j.name, j.name + "-nfs-server"); k in m.w.store && m.w.store[k].live.clusterIp != "")
    ensures j.spec.sharedFs.ebs.snapshotId == "" && j.spec.sharedFs.fsx.snapshotId == "" ==>
              var k := Key(FileSystem, "", j.name + "-" + j.uid);
              k in m.w.store && OrEmpty(m.w.store[k].live.fileSystemId) != ""
  {
    hide SteadyReachable, Order.Reachable, DatabaseStands, Order.DatabaseSeen, ItemKey, PlanKey;
    SteadyIsReachable(m, j);
    Order.PublishSafety(m, j);
    DatabaseSeenStands(m, j);
    SeenStands(m, j, LiquibaseDone);
    match BackendOf(j.spec) {
      case Ebs =>
        SeenStands(m, j, VolumeIdKnown);
        SeenStands(m, j, ServiceIpKnown);
      case Fsx =>
      case Efs => SeenStands(m, j, FileSystemIdKnown);
    }
  }
}
