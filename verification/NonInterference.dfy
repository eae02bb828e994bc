/** Several custom resources reconciled side by side in one cluster: their names keep them apart, so each of
    them runs as if it were alone. */
module NonInterference {
  import opened Api
  import opened Text
  import opened Builders
  import opened Plan
  import opened Machine
  import Frame
  import Safety
  import Template

  // ---- whose is it? ------------------------------------------------------------------------

  /** A custom resource's name and UID, and the names of the volumes that are provisioned for its claims. */
  datatype Ident = Ident(name: string, uid: string, volumes: set<string>)

  predicate HasUid(id: Ident, name: string)
  {
    EndsWith(name, "-" + id.uid)
  }

  predicate Own(id: Ident, k: Key)
  {
    match k.kind
    case Namespace => k.name == id.name
    case ApplicationSet => k.name == id.name
    case PersistentVolume => HasUid(id, k.name) || k.name in id.volumes
    case ParameterGroup => HasUid(id, k.name)
    case SubnetGroup => HasUid(id, k.name)
    case RdsInstance => HasUid(id, k.name)
    case EbsVolume => HasUid(id, k.name)
    case VolumeSnapshotContent => HasUid(id, k.name)
    case FileSystem => HasUid(id, k.name)
    case MountTarget => HasUid(id, k.name)
    case _ => k.ns == id.name
  }

  function PathOf(id: Ident): string { "argocd/applicationset-" + id.name + ".yaml" }

  predicate Is(j: Jira, id: Ident) { j.name == id.name && j.uid == id.uid }

  /** Distinct names, distinct UIDs of the same length, and no volume that serves both. */
  predicate Separate(a: Ident, b: Ident)
  {
    && a.name != b.name && a.uid != b.uid && |a.uid| == |b.uid|
    && a.volumes !! b.volumes
    && (forall v | v in a.volumes :: !HasUid(b, v))
    && (forall v | v in b.volumes :: !HasUid(a, v))
  }

  /** Every key of the plan is its own resource's. */
  lemma OwnItem(item: Item, j: Jira, id: Ident)
    requires Is(j, id)
    ensures Own(id, ItemKey(item, j))
  {
    assert CloudName(j) == j.name + ("-" + j.uid);
    assert NfsName(j) + "-" + j.uid == NfsName(j) + ("-" + j.uid);
    assert SharedVolumeName(j) == "jira-shared-home-pv" + ("-" + j.uid);
    if item.Target? {
      assert MountTargetName(j, item.i) == j.name + Itoa(item.i) + ("-" + j.uid);
    }
  }

  lemma OneUid(a: Ident, b: Ident, name: string)
    requires HasUid(a, name) && HasUid(b, name) && |a.uid| == |b.uid|
    ensures a.uid == b.uid
  {
    assert a.uid == ("-" + a.uid)[1..] && b.uid == ("-" + b.uid)[1..];
  }

  lemma OwnedOnce(a: Ident, b: Ident, k: Key)
    requires Separate(a, b) && Own(a, k)
    ensures !Own(b, k)
  {
    hide HasUid;
    if HasUid(a, k.name) && HasUid(b, k.name) {
      OneUid(a, b, k.name);
    }
  }

  lemma PathsDiffer(a: Ident, b: Ident)
    requires PathOf(a) == PathOf(b)
    ensures a.name == b.name
  {
    MiddleCancels("argocd/applicationset-", a.name, b.name, ".yaml");
  }

  /** Without the equal length, two resources could share every UID-suffixed name. */
  lemma LengthMatters(a: Jira, b: Jira)
    requires a.name == "x-b" && a.uid == "a" && b.name == "x" && b.uid == "b-a"
    ensures a.name != b.name && a.uid != b.uid
    ensures ItemKey(Rds, a) == ItemKey(Rds, b) && ItemKey(SharedFileSystem, a) == ItemKey(SharedFileSystem, b)
  {
    assert CloudName(a) == "x-b-a" == CloudName(b);
  }

  // ---- what a resource sees of the cluster ---------------------------------------------------

  function Mine(store: map<Key, Obj>, id: Ident): map<Key, Obj>
  {
    map k | k in store && Own(id, k) :: store[k]
  }

  function MyFiles(files: map<string, Obj>, id: Ident): map<string, Obj>
  {
    map path | path in files && path == PathOf(id) :: files[path]
  }

  function Restrict(m: M, id: Ident): M
  {
    m.(w := m.w.(store := Mine(m.w.store, id), files := MyFiles(m.w.files, id)))
  }

  /** Nothing that belongs to others has changed. */
  ghost predicate Local(m: M, m': M, id: Ident)
  {
    && (forall k | !Own(id, k) :: (k in m.w.store <==> k in m'.w.store) && (k in m.w.store ==> m'.w.store[k] == m.w.store[k]))
    && (forall path | path != PathOf(id) ::
          (path in m.w.files <==> path in m'.w.files) && (path in m.w.files ==> m'.w.files[path] == m.w.files[path]))
  }

  /** The step is the same for the whole cluster and for the resource's part of it. */
  ghost predicate Commutes(m: M, full: M, part: M, id: Ident)
  {
    Restrict(full, id) == part && Local(m, full, id)
  }

  lemma MineUpdate(store: map<Key, Obj>, k: Key, o: Obj, id: Ident)
    requires Own(id, k)
    ensures Mine(store[k := o], id) == Mine(store, id)[k := o]
  {
    hide Own;
  }

  lemma MineRemove(store: map<Key, Obj>, k: Key, id: Ident)
    ensures Mine(store - {k}, id) == Mine(store, id) - {k}
  {
    hide Own;
  }

  lemma MyFilesUpdate(files: map<string, Obj>, o: Obj, id: Ident)
    ensures MyFiles(files[PathOf(id) := o], id) == MyFiles(files, id)[PathOf(id) := o]
  {
    hide PathOf;
  }

  // ---- what a resource's own state looks like ------------------------------------------------

  ghost predicate ClaimFits(name: string, id: Ident)
  {
    name == "" || Own(id, Key(PersistentVolume, "", name))
  }

  predicate OwnSetKey(k: Key, id: Ident)
  {
    k.kind == ApplicationSet && k.name == id.name
  }

  /** Its identity never changes; its file holds its own ApplicationSet; its claim is on its own volume. */
  ghost predicate AtHome(m: M, id: Ident)
  {
    && Is(m.w.cr, id)
    && (m.ctl.Running? ==> Is(m.ctl.p.jira, id) && ClaimFits(TextOf(m.ctl.p, ClaimVolume), id))
    && (PathOf(id) in m.w.files ==> OwnSetKey(m.w.files[PathOf(id)].key, id))
    && (var k := Key(PersistentVolumeClaim, id.name, SHARED_HOME);
        k in m.w.store ==> ClaimFits(ClaimedVolume(m.w.store[k]), id))
  }

  /** What the environment does on behalf of a resource concerns that resource's objects, and a claim is
      bound to one of its own volumes. */
  ghost predicate Proper(e: Event, id: Ident)
  {
    match e
    case Env(SetLive(k, live)) => Own(id, k) && ClaimFits(live.boundVolume, id)
    case Env(Provision(name, _)) => Own(id, Key(PersistentVolume, "", name))
    case Env(Delete(k)) => Own(id, k)
    case _ => true
  }

  // ---- one step ------------------------------------------------------------------------------

  lemma CreateCommutes(m: M, pos: nat, p: Pass, item: Item, f: Fault, d: Draw, id: Ident)
    requires Is(p.jira, id)
    ensures Commutes(m, DoCreate(m, pos, p, item, f, d), DoCreate(Restrict(m, id), pos, p, item, f, d), id)
  {
    hide Build, ItemKey, FailAfter, Own;
    BuildKey(item, p, d);
    OwnItem(item, p.jira, id);
    MineUpdate(m.w.store, ItemKey(item, p.jira), Build(item, p, d), id);
  }

  lemma PeekCommutes(q: Query, p: Pass, w: World, id: Ident)
    requires Is(p.jira, id) && ClaimFits(TextOf(p, ClaimVolume), id)
    ensures Peek(q, p, w) == Peek(q, p, w.(store := Mine(w.store, id)))
  {
    hide ItemKey, Own, Extract, TextOf;
    OwnQuery(q, p, id);
    hide QueryKey;
  }

  lemma OwnQuery(q: Query, p: Pass, id: Ident)
    requires Is(p.jira, id) && ClaimFits(TextOf(p, ClaimVolume), id)
    ensures QueryKey(q, p).Some? ==> Own(id, QueryKey(q, p).value)
  {
    hide ItemKey, Own, TextOf;
    if q != VolumeHandle && QueryKey(q, p).Some? {
      var item: Item :| QueryKey(q, p).value == ItemKey(item, p.jira);
      OwnItem(item, p.jira, id);
    }
  }

  lemma ReadCommutes(m: M, pos: nat, p: Pass, q: Query, f: Fault, id: Ident)
    requires Is(p.jira, id) && ClaimFits(TextOf(p, ClaimVolume), id)
    ensures Commutes(m, DoRead(m, pos, p, q, f), DoRead(Restrict(m, id), pos, p, q, f), id)
  {
    hide Peek, Own, TextOf;
    PeekCommutes(q, p, m.w, id);
    PeekIgnoresFiles(q, p, m.w.(store := Mine(m.w.store, id)), MyFiles(m.w.files, id));
  }

  lemma PeekIgnoresFiles(q: Query, p: Pass, w: World, files: map<string, Obj>)
    ensures Peek(q, p, w) == Peek(q, p, w.(files := files))
  {
    hide Extract, QueryKey;
  }

  lemma WaitCommutes(m: M, pos: nat, p: Pass, g: Gate, id: Ident)
    ensures Commutes(m, DoWait(m, pos, p, g), DoWait(Restrict(m, id), pos, p, g), id)
  {
    hide Judge, Own;
  }

  lemma WriteCommutes(m: M, pos: nat, p: Pass, fld: Field, f: Fault, id: Ident)
    ensures Commutes(m, DoWrite(m, pos, p, fld, f), DoWrite(Restrict(m, id), pos, p, fld, f), id)
  {
    hide Get, Set, ValueOf, Own, FailAfter, Mine, MyFiles;
  }

  lemma UpdateCommutes(m: M, pos: nat, p: Pass, i: Instr, o: Obj, f: Fault, id: Ident)
    requires Own(id, o.key)
    ensures Commutes(m, DoUpdate(m, pos, p, i, o, f), DoUpdate(Restrict(m, id), pos, p, i, o, f), id)
  {
    hide Own, FailAfter;
    if o.key in m.w.store {
      MineUpdate(m.w.store, o.key, m.w.store[o.key].(body := o.body), id);
    }
  }

  lemma SyncSecretCommutes(m: M, pos: nat, p: Pass, f: Fault, d: Draw, id: Ident)
    requires Is(p.jira, id)
    ensures Commutes(m, DoSyncSecret(m, pos, p, f, d), DoSyncSecret(Restrict(m, id), pos, p, f, d), id)
  {
    hide TextOf, DoUpdate;
    UpdateCommutes(m, pos, p, SyncSecret, GetRdsSecret(p.jira, TextOf(p, RdsEndpoint), p.jira.name, d), f, id);
  }

  lemma SyncChangelogCommutes(m: M, pos: nat, p: Pass, f: Fault, id: Ident)
    requires Is(p.jira, id)
    ensures Commutes(m, DoSyncChangelog(m, pos, p, f), DoSyncChangelog(Restrict(m, id), pos, p, f), id)
  {
    hide TextOf, DoUpdate;
    UpdateCommutes(m, pos, p, SyncChangelog, GetLiquibaseConfigMap(p.jira, p.jira.name, TextOf(p, Changelog)), f, id);
  }

  lemma RenderCommutes(m: M, pos: nat, p: Pass, f: Fault, id: Ident)
    requires Is(p.jira, id)
    ensures Commutes(m, DoRender(m, pos, p, f), DoRender(Restrict(m, id), pos, p, f), id)
  {
    hide GetApplicationSet, Own, FailAfter;
    assert ManifestPath(p.jira) == PathOf(id);
    MyFilesUpdate(m.w.files, GetApplicationSet(p.jira), id);
    hide ManifestPath, PathOf;
  }

  lemma SetIsOwn(k: Key, id: Ident)
    requires OwnSetKey(k, id)
    ensures Own(id, k)
  {
  }

  lemma PathIs(j: Jira, id: Ident)
    requires Is(j, id)
    ensures ManifestPath(j) == PathOf(id)
  {
  }

  lemma ApplyCommutes(m: M, pos: nat, p: Pass, f: Fault, d: Draw, id: Ident)
    requires Is(p.jira, id) && (PathOf(id) in m.w.files ==> OwnSetKey(m.w.files[PathOf(id)].key, id))
    ensures Commutes(m, DoApply(m, pos, p, f, d), DoApply(Restrict(m, id), pos, p, f, d), id)
  {
    hide Own, FailAfter, ManifestPath, PathOf;
    PathIs(p.jira, id);
    if PathOf(id) in m.w.files {
      var o := m.w.files[PathOf(id)];
      SetIsOwn(o.key, id);
      MineUpdate(m.w.store, o.key, o, id);
      if o.key in m.w.store {
        MineUpdate(m.w.store, o.key, o.(live := m.w.store[o.key].live), id);
      }
    }
  }

  lemma CallCommutes(m: M, pos: nat, p: Pass, f: Fault, d: Draw, id: Ident)
    requires AtHome(m, id) && m.ctl == Running(pos, p)
    ensures Commutes(m, Exec(m, pos, p, f, d), Exec(Restrict(m, id), pos, p, f, d), id)
  {
    hide Exec, At, Commutes, ClaimFits, ClaimedVolume, Own, PathOf, TextOf;
    hide DoCreate, DoRead, DoWait, DoWrite, DoSyncSecret, DoSyncChangelog, DoRender, DoApply;
    UnfoldCall(m, pos, p, f, d);
    UnfoldCall(Restrict(m, id), pos, p, f, d);
    match At(p.jira.spec, pos)
    case Create(item) => CreateCommutes(m, pos, p, item, f, d, id);
    case Read(q) => ReadCommutes(m, pos, p, q, f, id);
    case Wait(g) => WaitCommutes(m, pos, p, g, id);
    case Write(fld) => WriteCommutes(m, pos, p, fld, f, id);
    case SyncSecret => SyncSecretCommutes(m, pos, p, f, d, id);
    case SyncChangelog => SyncChangelogCommutes(m, pos, p, f, id);
    case RenderManifest => RenderCommutes(m, pos, p, f, id);
    case ApplyManifest => ApplyCommutes(m, pos, p, f, d, id);
    case Finish => CtlCommutes(m, Idle(Returned(300, false)), id);
  }

  lemma CtlCommutes(m: M, c: Ctl, id: Ident)
    ensures Commutes(m, m.(ctl := c), Restrict(m, id).(ctl := c), id)
  {
    hide Own, PathOf, Mine, MyFiles;
  }

  lemma ActCommutes(m: M, a: Action, id: Ident)
    requires Proper(Env(a), id)
    ensures Commutes(m, Act(m, a), Act(Restrict(m, id), a), id)
  {
    hide Own, PathOf, ClaimFits, MyFiles;
    match a
    case SetLive(k, live) =>
      if k in m.w.store {
        MineUpdate(m.w.store, k, m.w.store[k].(live := live), id);
      }
    case Provision(name, source) =>
      var k := Key(PersistentVolume, "", name);
      var o := Obj(k, [], PvBody(0, source, ReadWriteMany, Key(PersistentVolumeClaim, "", ""), "", []), FRESH);
      MineUpdate(m.w.store, k, o, id);
    case Delete(k) => MineRemove(m.w.store, k, id);
    case _ =>
  }

  lemma StepCommutes(m: M, e: Event, id: Ident)
    requires AtHome(m, id) && Proper(e, id)
    ensures Commutes(m, Step(m, e), Step(Restrict(m, id), e), id)
  {
    hide Exec, Act, Proper, AtHome, Commutes;
    match e
    case Begin(f) => BeginCommutes(m, f, id);
    case Call(f, d) =>
      if m.ctl.Running? {
        CallCommutes(m, m.ctl.pos, m.ctl.p, f, d, id);
      } else {
        CtlCommutes(m, m.ctl, id);
      }
    case Env(a) => ActCommutes(m, a, id);
    case Crash => CtlCommutes(m, Idle(Crashed), id);
  }

  lemma BeginCommutes(m: M, f: Fault, id: Ident)
    ensures Commutes(m, Step(m, Begin(f)), Step(Restrict(m, id), Begin(f)), id)
  {
    hide Own, PathOf, Mine, MyFiles;
  }

  // ---- a resource stays at home ----------------------------------------------------------------

  /** What a call may do to the things AtHome speaks about. */
  ghost predicate Modest(m: M, m': M, p: Pass, id: Ident)
  {
    var k := Key(PersistentVolumeClaim, id.name, SHARED_HOME);
    && SameIdentity(m'.w.cr, m.w.cr)
    && (m'.ctl.Running? ==> Is(m'.ctl.p.jira, id) && ClaimFits(TextOf(m'.ctl.p, ClaimVolume), id))
    && (PathOf(id) in m'.w.files ==>
          (PathOf(id) in m.w.files && m'.w.files[PathOf(id)] == m.w.files[PathOf(id)])
          || OwnSetKey(m'.w.files[PathOf(id)].key, id))
    && (k in m'.w.store ==>
          (k in m.w.store && ClaimedVolume(m'.w.store[k]) == ClaimedVolume(m.w.store[k]))
          || ClaimFits(ClaimedVolume(m'.w.store[k]), id))
  }

  lemma CreatedClaimFits(item: Item, p: Pass, d: Draw, id: Ident)
    requires Is(p.jira, id) && ItemKey(item, p.jira) == Key(PersistentVolumeClaim, id.name, SHARED_HOME)
    ensures ClaimFits(ClaimedVolume(Build(item, p, d)), id)
  {
    assert SharedVolumeName(p.jira) == "jira-shared-home-pv" + ("-" + p.jira.uid);
    assert NfsName(p.jira) + "-" + p.jira.uid == NfsName(p.jira) + ("-" + p.jira.uid);
    assert item.FsxPvc? || item.SharedNfsPvc? || item.EfsPvc? || item.NfsPvc?;
  }

  lemma CreateIsModest(m: M, pos: nat, p: Pass, item: Item, f: Fault, d: Draw, id: Ident)
    requires AtHome(m, id) && m.ctl == Running(pos, p)
    ensures Modest(m, DoCreate(m, pos, p, item, f, d), p, id)
  {
    hide Build, ItemKey, FailAfter, Own, ClaimFits, ClaimedVolume;
    BuildKey(item, p, d);
    if ItemKey(item, p.jira) == Key(PersistentVolumeClaim, id.name, SHARED_HOME) {
      CreatedClaimFits(item, p, d, id);
    }
  }

  lemma ReadClaimFits(p: Pass, w: World, id: Ident)
    requires Is(p.jira, id) && Peek(ClaimVolume, p, w).Got?
    requires var k := Key(PersistentVolumeClaim, id.name, SHARED_HOME);
             k in w.store ==> ClaimFits(ClaimedVolume(w.store[k]), id)
    ensures ClaimFits(TextOf(p.(obs := p.obs[ClaimVolume := Peek(ClaimVolume, p, w).r]), ClaimVolume), id)
  {
    hide ClaimFits, ClaimedVolume;
  }

  lemma OtherReadFits(p: Pass, q: Query, v: Reading, id: Ident)
    requires q != ClaimVolume && ClaimFits(TextOf(p, ClaimVolume), id)
    ensures ClaimFits(TextOf(p.(obs := p.obs[q := v]), ClaimVolume), id)
  {
    hide ClaimFits;
  }

  lemma ReadIsModest(m: M, pos: nat, p: Pass, q: Query, f: Fault, id: Ident)
    requires AtHome(m, id) && m.ctl == Running(pos, p)
    ensures Modest(m, DoRead(m, pos, p, q, f), p, id)
  {
    hide Peek, FailAfter, Own, ClaimFits, ClaimedVolume, TextOf, PathOf;
    if q == ClaimVolume {
      if Peek(ClaimVolume, p, m.w).Got? {
        ReadClaimFits(p, m.w, id);
      }
    } else {
      OtherReadFits(p, q, Text(""), id);
      if Peek(q, p, m.w).Got? {
        OtherReadFits(p, q, Peek(q, p, m.w).r, id);
      }
    }
  }

  lemma WaitIsModest(m: M, pos: nat, p: Pass, g: Gate, id: Ident)
    requires AtHome(m, id) && m.ctl == Running(pos, p)
    ensures Modest(m, DoWait(m, pos, p, g), p, id)
  {
    hide Judge, Own, ClaimFits, ClaimedVolume, TextOf, PathOf;
  }

  lemma WriteIsModest(m: M, pos: nat, p: Pass, fld: Field, f: Fault, id: Ident)
    requires AtHome(m, id) && m.ctl == Running(pos, p)
    ensures Modest(m, DoWrite(m, pos, p, fld, f), p, id)
  {
    hide Get, Set, ValueOf, FailAfter, Own, ClaimFits, ClaimedVolume, PathOf;
  }

  lemma UpdateIsModest(m: M, pos: nat, p: Pass, i: Instr, o: Obj, f: Fault, id: Ident)
    requires AtHome(m, id) && m.ctl == Running(pos, p) && o.key.kind != PersistentVolumeClaim
    ensures Modest(m, DoUpdate(m, pos, p, i, o, f), p, id)
  {
    hide FailAfter, Own, ClaimFits, ClaimedVolume, TextOf, PathOf;
  }

  lemma SyncIsModest(m: M, pos: nat, p: Pass, f: Fault, d: Draw, id: Ident)
    requires AtHome(m, id) && m.ctl == Running(pos, p)
    ensures Modest(m, DoSyncSecret(m, pos, p, f, d), p, id)
    ensures Modest(m, DoSyncChangelog(m, pos, p, f), p, id)
  {
    hide DoUpdate, AtHome, Own, ClaimFits, ClaimedVolume, TextOf, PathOf;
    NextIsModest(m, pos, p, id);
    UpdateIsModest(m, pos, p, SyncSecret, GetRdsSecret(p.jira, TextOf(p, RdsEndpoint), p.jira.name, d), f, id);
    UpdateIsModest(m, pos, p, SyncChangelog, GetLiquibaseConfigMap(p.jira, p.jira.name, TextOf(p, Changelog)), f, id);
  }

  lemma NextIsModest(m: M, pos: nat, p: Pass, id: Ident)
    requires AtHome(m, id) && m.ctl == Running(pos, p)
    ensures Modest(m, Next(m, pos, p), p, id)
  {
    hide Own, ClaimFits, ClaimedVolume, TextOf, PathOf;
  }

  lemma OwnSet(j: Jira, id: Ident)
    requires Is(j, id)
    ensures OwnSetKey(GetApplicationSet(j).key, id) && ManifestPath(j) == PathOf(id)
  {
    hide Template.Manifest;
  }

  lemma RenderIsModest(m: M, pos: nat, p: Pass, f: Fault, id: Ident)
    requires AtHome(m, id) && m.ctl == Running(pos, p)
    ensures Modest(m, DoRender(m, pos, p, f), p, id)
  {
    hide FailAfter, GetApplicationSet, ManifestPath, Own, ClaimFits, ClaimedVolume, TextOf, PathOf;
    OwnSet(p.jira, id);
  }

  lemma ApplyIsModest(m: M, pos: nat, p: Pass, f: Fault, d: Draw, id: Ident)
    requires AtHome(m, id) && m.ctl == Running(pos, p)
    ensures Modest(m, DoApply(m, pos, p, f, d), p, id)
  {
    hide FailAfter, TextOf, ClaimFits, ClaimedVolume;
  }

  lemma CallIsModest(m: M, pos: nat, p: Pass, f: Fault, d: Draw, id: Ident)
    requires AtHome(m, id) && m.ctl == Running(pos, p)
    ensures Modest(m, Exec(m, pos, p, f, d), p, id)
  {
    hide Exec, At, Modest, AtHome;
    hide DoCreate, DoRead, DoWait, DoWrite, DoSyncSecret, DoSyncChangelog, DoRender, DoApply;
    UnfoldCall(m, pos, p, f, d);
    match At(p.jira.spec, pos)
    case Create(item) => CreateIsModest(m, pos, p, item, f, d, id);
    case Read(q) => ReadIsModest(m, pos, p, q, f, id);
    case Wait(g) => WaitIsModest(m, pos, p, g, id);
    case Write(fld) => WriteIsModest(m, pos, p, fld, f, id);
    case SyncSecret => SyncIsModest(m, pos, p, f, d, id);
    case SyncChangelog => SyncIsModest(m, pos, p, f, d, id);
    case RenderManifest => RenderIsModest(m, pos, p, f, id);
    case ApplyManifest => ApplyIsModest(m, pos, p, f, d, id);
    case Finish => CtlIsModest(m, Returned(300, false), p, id);
  }

  lemma CtlIsModest(m: M, x: Exit, p: Pass, id: Ident)
    ensures Modest(m, m.(ctl := Idle(x)), p, id)
  {
    hide Own, ClaimFits, ClaimedVolume, TextOf, PathOf;
  }

  lemma ModestKeepsHome(m: M, m': M, p: Pass, id: Ident)
    requires AtHome(m, id) && Modest(m, m', p, id)
    ensures AtHome(m', id)
  {
    hide Own, ClaimFits, ClaimedVolume, TextOf, PathOf;
  }

  lemma ActKeepsHome(m: M, a: Action, id: Ident)
    requires AtHome(m, id) && Proper(Env(a), id)
    ensures AtHome(Act(m, a), id)
  {
    hide Own, TextOf, PathOf, ClaimFits;
  }

  lemma StepKeepsHome(m: M, e: Event, id: Ident)
    requires AtHome(m, id) && Proper(e, id)
    ensures AtHome(Step(m, e), id)
  {
    hide Exec, Act, Proper, Own, ClaimedVolume, PathOf, Modest;
    match e
    case Begin(f) =>
    case Call(f, d) =>
      if m.ctl.Running? {
        CallIsModest(m, m.ctl.pos, m.ctl.p, f, d, id);
        ModestKeepsHome(m, Step(m, e), m.ctl.p, id);
      }
    case Env(a) => ActKeepsHome(m, a, id);
    case Crash =>
  }

  // ---- the cluster with everybody in it --------------------------------------------------------

  /** What belongs to one resource alone. */
  datatype Lane = Lane(
    cr: Jira, app: Option<Application>, ctl: Ctl, seen: set<Gate>, births: map<Key, Birth>, specs: map<nat, JiraSpec>,
    rewrites: nat)

  /** The store, the directory of manifests and the changelog file are shared. */
  datatype Shared = Shared(store: map<Key, Obj>, files: map<string, Obj>, changelog: Option<string>, lanes: seq<Lane>)

  /** An event of the i-th resource's controller, or of the environment on that resource's objects. */
  datatype On = On(i: nat, e: Event)

  function Whole(s: Shared, i: nat): M
    requires i < |s.lanes|
  {
    var l := s.lanes[i];
    M(World(s.store, l.cr, s.files, s.changelog, l.app), l.ctl, l.seen, l.births, l.specs, l.rewrites)
  }

  function Put(s: Shared, i: nat, m: M): Shared
    requires i < |s.lanes|
  {
    Shared(m.w.store, m.w.files, m.w.changelog,
           s.lanes[i := Lane(m.w.cr, m.w.app, m.ctl, m.seen, m.births, m.specs, m.rewrites)])
  }

  function StepAll(s: Shared, o: On): Shared
  {
    if o.i < |s.lanes| then Put(s, o.i, Step(Whole(s, o.i), o.e)) else s
  }

  function RunAll(s: Shared, os: seq<On>): (r: Shared)
    ensures |r.lanes| == |s.lanes|
  {
    if os == [] then s else StepAll(RunAll(s, os[..|os| - 1]), os[|os| - 1])
  }

  /** The i-th resource's part of the cluster. */
  function View(s: Shared, i: nat, id: Ident): M
    requires i < |s.lanes|
  {
    Restrict(Whole(s, i), id)
  }

  predicate IsChangelog(e: Event)
  {
    e.Env? && e.a.SetChangelog?
  }

  /** The i-th resource's events; a new changelog concerns everybody. */
  function Project(os: seq<On>, i: nat): seq<Event>
  {
    if os == [] then []
    else
      var o := os[|os| - 1];
      Project(os[..|os| - 1], i) + if o.i == i || IsChangelog(o.e) then [o.e] else []
  }

  ghost predicate Apart(ids: seq<Ident>)
  {
    forall a, b | 0 <= a < |ids| && 0 <= b < |ids| && a != b :: Separate(ids[a], ids[b])
  }

  ghost predicate AllHome(s: Shared, ids: seq<Ident>)
  {
    |s.lanes| == |ids| && forall i: nat | i < |ids| :: AtHome(View(s, i, ids[i]), ids[i])
  }

  ghost predicate AllProper(os: seq<On>, ids: seq<Ident>)
  {
    forall o | o in os :: o.i < |ids| && Proper(o.e, ids[o.i])
  }

  /** Others leave a resource's part alone. */
  lemma LocalSpares(m: M, m': M, a: Ident, b: Ident)
    requires Local(m, m', a) && Separate(a, b)
    ensures Mine(m'.w.store, b) == Mine(m.w.store, b)
    ensures MyFiles(m'.w.files, b) == MyFiles(m.w.files, b)
  {
    hide Own, PathOf;
    forall k | Own(b, k)
      ensures (k in m.w.store <==> k in m'.w.store) && (k in m.w.store ==> m'.w.store[k] == m.w.store[k])
    {
      SeparateBack(a, b);
      OwnedOnce(b, a, k);
    }
    if PathOf(a) == PathOf(b) {
      PathsDiffer(a, b);
    }
  }

  lemma SeparateBack(a: Ident, b: Ident)
    requires Separate(a, b)
    ensures Separate(b, a)
  {
  }

  lemma PutView(s: Shared, i: nat, m: M, id: Ident)
    requires i < |s.lanes|
    ensures View(Put(s, i, m), i, id) == Restrict(m, id)
  {
    hide Own, Mine, MyFiles;
  }

  lemma HomeOfView(m: M, id: Ident)
    requires AtHome(Restrict(m, id), id)
    ensures AtHome(m, id)
  {
    hide TextOf, ClaimFits, ClaimedVolume, PathOf;
  }

  /** A step of the resource itself. */
  lemma OwnStep(s: Shared, o: On, id: Ident)
    requires o.i < |s.lanes| && AtHome(View(s, o.i, id), id) && Proper(o.e, id)
    ensures View(StepAll(s, o), o.i, id) == Step(View(s, o.i, id), o.e)
    ensures AtHome(View(StepAll(s, o), o.i, id), id)
    ensures Local(Whole(s, o.i), Step(Whole(s, o.i), o.e), id)
  {
    hide Step, AtHome, Proper, Restrict, Local, Whole, Put;
    HomeOfView(Whole(s, o.i), id);
    StepCommutes(Whole(s, o.i), o.e, id);
    StepKeepsHome(View(s, o.i, id), o.e, id);
    PutView(s, o.i, Step(Whole(s, o.i), o.e), id);
  }

  lemma StepChangelog(m: M, e: Event)
    ensures Step(m, e).w.changelog == if IsChangelog(e) then e.a.changelog else m.w.changelog
  {
    hide Exec;
    if e.Call? && m.ctl.Running? {
      Frame.CallKeepsOutside(m, m.ctl.pos, m.ctl.p, e.f, e.d);
    }
  }

  /** A step of another resource. */
  lemma OtherStep(s: Shared, o: On, i: nat, a: Ident, b: Ident)
    requires o.i < |s.lanes| && i < |s.lanes| && o.i != i && Separate(a, b)
    requires Local(Whole(s, o.i), Step(Whole(s, o.i), o.e), a)
    ensures View(StepAll(s, o), i, b) == if IsChangelog(o.e) then Step(View(s, i, b), o.e) else View(s, i, b)
  {
    hide Exec, Local, Mine, MyFiles, Separate;
    var m, m' := Whole(s, o.i), Step(Whole(s, o.i), o.e);
    LocalSpares(m, m', a, b);
    StepChangelog(m, o.e);
    hide Step;
    if IsChangelog(o.e) {
      ChangelogStep(View(s, i, b), o.e);
    }
  }

  lemma ChangelogStep(m: M, e: Event)
    requires IsChangelog(e)
    ensures Step(m, e) == m.(w := m.w.(changelog := e.a.changelog))
  {
  }

  lemma ChangelogKeepsHome(m: M, e: Event, id: Ident)
    requires IsChangelog(e) && AtHome(m, id)
    ensures AtHome(Step(m, e), id)
  {
    hide Own, PathOf, ClaimFits, ClaimedVolume, TextOf;
    ChangelogStep(m, e);
    hide Step;
  }

  lemma StepAllKeepsHome(s: Shared, o: On, ids: seq<Ident>)
    requires Apart(ids) && AllHome(s, ids) && o.i < |ids| && Proper(o.e, ids[o.i])
    ensures AllHome(StepAll(s, o), ids)
  {
    hide Step, AtHome, Proper, View, Put, Whole, Separate;
    OwnStep(s, o, ids[o.i]);
    LanesKept(s, o);
    forall i: nat | i < |ids|
      ensures AtHome(View(StepAll(s, o), i, ids[i]), ids[i])
    {
      if i != o.i {
        OtherStep(s, o, i, ids[o.i], ids[i]);
        if IsChangelog(o.e) {
          ChangelogKeepsHome(View(s, i, ids[i]), o.e, ids[i]);
        }
      }
    }
  }

  lemma LanesKept(s: Shared, o: On)
    ensures |StepAll(s, o).lanes| == |s.lanes|
  {
    hide Step;
  }

  /** Non-interference: whatever the interleaving, faults and crashes of the other passes, each resource's
      part of the cluster is the result of a run of its own events alone. */
  lemma {:induction false} RunsAlone(s: Shared, os: seq<On>, ids: seq<Ident>, i: nat)
    requires Apart(ids) && AllHome(s, ids) && AllProper(os, ids) && i < |ids|
    ensures AllHome(RunAll(s, os), ids)
    ensures View(RunAll(s, os), i, ids[i]) == Run(View(s, i, ids[i]), Project(os, i))
  {
    hide Step, AtHome, Proper, View, StepAll, Separate, Apart;
    if os != [] {
      var init, o := os[..|os| - 1], os[|os| - 1];
      assert forall x | x in init :: x in os;
      assert o in os;
      RunsAlone(s, init, ids, i);
      var u := RunAll(s, init);
      StepAllKeepsHome(u, o, ids);
      OneStepAlone(u, o, ids, i);
      RunSnoc(View(s, i, ids[i]), Project(init, i), o.e);
      assert Project(init, i) + [] == Project(init, i);
    }
  }

  lemma OneStepAlone(s: Shared, o: On, ids: seq<Ident>, i: nat)
    requires Apart(ids) && AllHome(s, ids) && o.i < |ids| && Proper(o.e, ids[o.i]) && i < |ids|
    ensures var v := View(s, i, ids[i]);
            View(StepAll(s, o), i, ids[i]) == if o.i == i || IsChangelog(o.e) then Step(v, o.e) else v
  {
    hide Step, AtHome, Proper, View, Put, Whole, Separate;
    OwnStep(s, o, ids[o.i]);
    if i != o.i {
      OtherStep(s, o, i, ids[o.i], ids[i]);
    }
  }

  lemma {:induction false} ProjectBenign(os: seq<On>, i: nat, j: Jira)
    requires forall o | o in os && o.i == i :: Safety.Benign(o.e, j)
    ensures Safety.AllBenign(Project(os, i), j)
  {
    if os != [] {
      ProjectBenign(os[..|os| - 1], i, j);
    }
  }

  /** So what holds of a single resource's runs holds of each resource in the crowd; here, the order of its plan. */
  lemma SafeInCompany(s: Shared, os: seq<On>, ids: seq<Ident>, i: nat, j: Jira)
    requires Apart(ids) && AllHome(s, ids) && AllProper(os, ids) && i < |ids|
    requires Safety.Inv(View(s, i, ids[i]), j)
    requires forall o | o in os && o.i == i :: Safety.Benign(o.e, j)
    ensures Safety.Inv(View(RunAll(s, os), i, ids[i]), j)
  {
    hide Safety.Inv, AtHome, Apart, View, Run, RunAll;
    RunsAlone(s, os, ids, i);
    ProjectBenign(os, i, j);
    Safety.RunKeepsInv(View(s, i, ids[i]), Project(os, i), j);
  }
}
