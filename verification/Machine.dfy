/** Reconcile against an unreliable API server, one call at a time, with everything else that can happen
    between two calls. */
module Machine {
  import opened Api
  import opened Builders
  import opened Plan

  // ---- the state of one pass -------------------------------------------------------------

  /** What a read returned: a string, a number, or a pointer that may be nil. */
  datatype Reading = Text(s: string) | Count(n: int) | Pointer(p: Option<string>)

  /** The local copy of the custom resource, the results of the reads so far, and whether the latest
      Create reported AlreadyExists. */
  datatype Pass = Pass(jira: Jira, obs: map<Query, Reading>, existed: bool)

  datatype Exit = NeverRan | Returned(after: nat, err: bool) | Panicked | Crashed

  datatype Ctl = Idle(last: Exit) | Running(pos: nat, p: Pass)

  /** How an object that the operator created came about. */
  datatype Birth = Birth(item: Item, p: Pass, d: Draw)

  /** w is what exists; the rest is history: gates that were seen open, the creations of the objects
      that still exist, the spec of every version of the resource, the number of secret rewrites. */
  datatype M = M(
    w: World, ctl: Ctl, seen: set<Gate>, births: map<Key, Birth>, specs: map<nat, JiraSpec>, rewrites: nat)

  function TextOf(p: Pass, q: Query): string
  {
    if q !in p.obs then ""
    else match p.obs[q]
      case Text(s) => s
      case Pointer(Some(s)) => s
      case _ => ""
  }

  // ---- building ------------------------------------------------------------------------

  function Build(item: Item, p: Pass, d: Draw): Obj
  {
    var j := p.jira;
    var ns := j.name;
    var fs := j.spec.sharedFs;
    match item
    case NamespaceItem => GetNamespace(j)
    case ParameterGroupItem => GetDbParameterGroup(j)
    case SubnetGroupItem => GetDbSubnetGroup(j)
    case DbSecret => GetRdsSecret(j, "replaceme", ns, d)
    case Rds => GetRdsInstance(j, GetDbSubnetGroup(j), GetDbParameterGroup(j), ns)
    case ResetAccount => GetServiceAccount(j, ns)
    case ResetJob => GetChangeRootPasswordJob(j, ns, CloudName(j))
    case ChangelogMap => GetLiquibaseConfigMap(j, ns, TextOf(p, Changelog))
    case LiquibaseJob => GetLiquibaseJob(j, ns)
    case Volume => GetEbsVolume(j)
    case NfsPv => GetEbsPersistentVolume(j, TextOf(p, VolumeId), NfsName(j), fs.volumeSize, ns)
    case NfsPvc =>
      GetPersistentVolumeClaim(
        j, NfsName(j), ns, NfsName(j) + "-" + j.uid, fs.ebs.storageClass, fs.volumeSize, ReadWriteOnce)
    case NfsService => GetNfsServerService(j, ns)
    case NfsStatefulSet => GetNfsServerStatefulSet(j, ns)
    case SharedNfsPv => GetNfsPersistentVolume(j, TextOf(p, ServiceIp), fs.volumeSize, ns)
    case SharedNfsPvc =>
      GetPersistentVolumeClaim(
        j, SHARED_HOME, ns, SharedVolumeName(j), fs.efs.storageClass, fs.volumeSize, ReadWriteMany)
    case SnapshotContent => GetFsxVolumeSnapshotContent(j, ns)
    case Snapshot => GetFsxVolumeSnapshot(j, ns)
    case FsxPvc => GetFsxPersistentVolumeClaimFromSnapshot(j, SHARED_HOME, ns, 1)
    case SharedFileSystem => GetFileSystem(j, ns)
    case Target(i) =>
      GetMountTarget(
        j, TextOf(p, FileSystemId), if i < |j.spec.network.subnetIds| then j.spec.network.subnetIds[i] else "", i)
    case EfsPv => GetEfsPersistentVolume(j, TextOf(p, FileSystemId), ns)
    case EfsPvc =>
      GetPersistentVolumeClaim(
        j, SHARED_HOME, ns, SharedVolumeName(j), fs.efs.storageClass, 10, ReadWriteMany)
    case AppSet => GetApplicationSet(j)
  }

  /** Each builder puts its object where the plan says. */
  lemma BuildKey(item: Item, p: Pass, d: Draw)
    ensures Build(item, p, d).key == ItemKey(item, p.jira)
    ensures Build(item, p, d).live == FRESH
  {
  }

  // ---- reading (controllers/status.go) ---------------------------------------------------

  datatype Outcome = Missing | NilPointer | Got(r: Reading)

  /** The object a query fetches; reads of files and of the Argo CD application have none, and a client
      refuses to fetch an object without a name. */
  function QueryKey(q: Query, p: Pass): Option<Key>
  {
    var j := p.jira;
    match q
    case RdsStatus => Some(ItemKey(Rds, j))
    case RdsEndpoint => Some(ItemKey(Rds, j))
    case SecretHost => Some(ItemKey(DbSecret, j))
    case ResetCount => Some(ItemKey(ResetJob, j))
    case Changelog => None
    case ChangelogData => Some(ItemKey(ChangelogMap, j))
    case LiquibaseCount => Some(ItemKey(LiquibaseJob, j))
    case VolumeId => Some(ItemKey(Volume, j))
    case ServiceIp => Some(ItemKey(NfsService, j))
    case ReadyReplicas => Some(ItemKey(NfsStatefulSet, j))
    case ClaimPhase => Some(ItemKey(FsxPvc, j))
    case ClaimVolume => Some(ItemKey(FsxPvc, j))
    case VolumeHandle =>
      if TextOf(p, ClaimVolume) == "" then None else Some(Key(PersistentVolume, "", TextOf(p, ClaimVolume)))
    case FileSystemId => Some(ItemKey(SharedFileSystem, j))
    case TargetState(i) => Some(ItemKey(Target(i), j))
    case AppSync => None
    case AppHealth => None
  }

  /** What a query takes from the object it fetched. */
  function Extract(q: Query, o: Obj): Outcome
  {
    match q
    case RdsStatus => Got(Text(o.live.rdsStatus))
    case RdsEndpoint => Got(Text(o.live.endpoint))
    case SecretHost => Got(Text(if o.body.SecretBody? then o.body.data.hostname else ""))
    case ResetCount => Got(Count(o.live.succeeded))
    case ChangelogData => Got(Text(if o.body.ConfigMapBody? then o.body.changelog else ""))
    case LiquibaseCount => Got(Count(o.live.succeeded))
    case VolumeId => Got(Text(match o.live.volumeId case None => "" case Some(v) => v))
    case ServiceIp => Got(Text(o.live.clusterIp))
    case ReadyReplicas => Got(Count(o.live.readyReplicas))
    case ClaimPhase => Got(Text(o.live.phase))
    case ClaimVolume => Got(Text(ClaimedVolume(o)))
    case VolumeHandle =>
      if o.body.PvBody? && o.body.source.Csi? then Got(Text(o.body.source.handle)) else NilPointer
    case FileSystemId => Got(Pointer(o.live.fileSystemId))
    case TargetState(_) => Got(Pointer(o.live.lifeCycle))
    case _ => Missing
  }

  /** spec.volumeName of a claim: set by its creator, or by the binder when the creator left it empty. */
  function ClaimedVolume(o: Obj): string
  {
    if o.body.PvcBody? && o.body.volumeName != "" then o.body.volumeName else o.live.boundVolume
  }

  function Peek(q: Query, p: Pass, w: World): Outcome
  {
    match q
    case Changelog => (match w.changelog case None => Missing case Some(c) => Got(Text(c)))
    case AppSync => (match w.app case None => Missing case Some(a) => Got(Text(a.sync)))
    case AppHealth => (match w.app case None => Missing case Some(a) => Got(Text(a.health)))
    case _ =>
      var k := QueryKey(q, p);
      if k.Some? && k.value in w.store then Extract(q, w.store[k.value]) else Missing
  }

  // ---- waiting -------------------------------------------------------------------------

  function GateQuery(g: Gate): Query
  {
    match g
    case RdsAvailable => RdsStatus
    case EndpointKnown => RdsEndpoint
    case ResetDone => ResetCount
    case LiquibaseDone => LiquibaseCount
    case VolumeIdKnown => VolumeId
    case ServiceIpKnown => ServiceIp
    case NfsReady => ReadyReplicas
    case ClaimBound => ClaimPhase
    case FileSystemIdKnown => FileSystemId
    case TargetAvailable(i) => TargetState(i)
  }

  datatype Verdict = Open | Shut | NilDeref

  function Judge(g: Gate, r: Reading): Verdict
  {
    match g
    case RdsAvailable => if r == Text("available") then Open else Shut
    case EndpointKnown => if r.Text? && r.s != "" then Open else Shut
    case ResetDone => if r.Count? && r.n >= 1 then Open else Shut
    case LiquibaseDone => if r.Count? && r.n >= 1 then Open else Shut
    case VolumeIdKnown => if r.Text? && r.s != "" then Open else Shut
    case ServiceIpKnown => if r.Text? && r.s != "" then Open else Shut
    case NfsReady => if r.Count? && r.n >= 1 then Open else Shut
    case ClaimBound => if r == Text("Bound") then Open else Shut
    case FileSystemIdKnown =>
      if r == Pointer(None) then NilDeref else if r.Pointer? && r.p != Some("") then Open else Shut
    case TargetAvailable(_) =>
      if r == Pointer(None) then NilDeref else if r == Pointer(Some("available")) then Open else Shut
  }

  function WaitAfter(g: Gate): nat
  {
    match g
    case RdsAvailable => 30
    case EndpointKnown => 10
    case ResetDone => 5
    case LiquibaseDone => 5
    case VolumeIdKnown => 5
    case ServiceIpKnown => 30
    case NfsReady => 10
    case ClaimBound => 30
    case FileSystemIdKnown => 5
    case TargetAvailable(_) => 10
  }

  // ---- status fields -------------------------------------------------------------------

  function Get(s: JiraStatus, f: Field): string
  {
    match f
    case RdsStatusField => s.rdsStatus
    case EndpointField => s.endpoint
    case ResetField => s.resetJob
    case LiquibaseField => s.liquibaseJob
    case EbsIdField => s.ebsId
    case FsxIdField => s.fsxId
    case EfsIdField => s.efsId
    case SyncField => s.sync
    case HealthField => s.health
  }

  function Set(s: JiraStatus, f: Field, v: string): JiraStatus
  {
    match f
    case RdsStatusField => s.(rdsStatus := v)
    case EndpointField => s.(endpoint := v)
    case ResetField => s.(resetJob := v)
    case LiquibaseField => s.(liquibaseJob := v)
    case EbsIdField => s.(ebsId := v)
    case FsxIdField => s.(fsxId := v)
    case EfsIdField => s.(efsId := v)
    case SyncField => s.(sync := v)
    case HealthField => s.(health := v)
  }

  function ValueOf(f: Field, p: Pass): string
  {
    match f
    case RdsStatusField => TextOf(p, RdsStatus)
    case EndpointField => TextOf(p, RdsEndpoint)
    case ResetField => "Succeeded"
    case LiquibaseField => "Succeeded"
    case EbsIdField => TextOf(p, VolumeId)
    case FsxIdField => TextOf(p, VolumeHandle)
    case EfsIdField => TextOf(p, FileSystemId)
    case SyncField => TextOf(p, AppSync)
    case HealthField => TextOf(p, AppHealth)
  }

  /** The two job fields are written in every pass, the others only when they change. */
  predicate Unconditional(f: Field)
  {
    f == ResetField || f == LiquibaseField
  }

  // ---- one call ------------------------------------------------------------------------

  /** A call may fail without effect, or take effect and still report an error. */
  datatype Fault = NoFault | Refused | ReplyLost

  /** RequeueAfter, in seconds, of the return that follows a failed call. */
  function FailAfter(i: Instr): nat
  {
    match i
    case Create(item) =>
      (match item
       case NamespaceItem => 60
       case ParameterGroupItem => 60
       case SubnetGroupItem => 60
       case DbSecret => 60
       case Rds => 0
       case ChangelogMap => 10
       case SharedNfsPv => 60
       case SharedNfsPvc => 30
       case SnapshotContent => 30
       case Snapshot => 30
       case FsxPvc => 30
       case Target(_) => 10
       case EfsPv => 30
       case EfsPvc => 30
       case _ => 300)
    case Read(q) =>
      (match q
       case RdsStatus => 5
       case RdsEndpoint => 5
       case ResetCount => 5
       case Changelog => 600
       case ChangelogData => 5
       case VolumeId => 300
       case ReadyReplicas => 60
       case FileSystemId => 60
       case TargetState(_) => 10
       case AppSync => 300
       case AppHealth => 300
       case _ => 30)
    case Write(f) => if f == FsxIdField then 1 else 5
    case SyncSecret => 5
    case SyncChangelog => 5
    case RenderManifest => 60
    case ApplyManifest => 300
    case _ => 0
  }

  function Next(m: M, pos: nat, p: Pass): M
  {
    m.(ctl := Running(pos + 1, p))
  }

  function Fail(m: M, i: Instr): M
  {
    m.(ctl := Idle(Returned(FailAfter(i), true)))
  }

  function Insert(m: M, o: Obj, b: Birth): M
  {
    m.(w := m.w.(store := m.w.store[o.key := o]), births := m.births[o.key := b])
  }

  function DoCreate(m: M, pos: nat, p: Pass, item: Item, f: Fault, d: Draw): M
  {
    var o := Build(item, p, d);
    var taken := o.key in m.w.store;
    var m' := if taken || f == Refused then m else Insert(m, o, Birth(item, p, d));
    if f == NoFault then Next(m', pos, p.(existed := taken)) else Fail(m', Create(item))
  }

  /** Every read but one ends the pass when it fails: the error of reading the secret is ignored. */
  function DoRead(m: M, pos: nat, p: Pass, q: Query, f: Fault): M
  {
    if q == ChangelogData && !p.existed then Next(m, pos, p)
    else
      var r := if f == NoFault then Peek(q, p, m.w) else Missing;
      match r
      case Got(v) => Next(m, pos, p.(obs := p.obs[q := v]))
      case NilPointer => m.(ctl := Idle(Panicked))
      case Missing =>
        if q == SecretHost then Next(m, pos, p.(obs := p.obs[q := Text("")]))
        else Fail(m, Read(q))
  }

  function DoWait(m: M, pos: nat, p: Pass, g: Gate): M
  {
    var v := if GateQuery(g) in p.obs then Judge(g, p.obs[GateQuery(g)]) else Shut;
    match v
    case Open => Next(m.(seen := m.seen + {g}), pos, p)
    case Shut => m.(ctl := Idle(Returned(WaitAfter(g), false)))
    case NilDeref => m.(ctl := Idle(Panicked))
  }

  /** What the API server makes of an accepted status update; an update without a change keeps the version. */
  function Accept(cr: Jira, status: JiraStatus): Jira
  {
    if cr.status == status then cr else cr.(status := status, version := cr.version + 1)
  }

  function StoreCr(m: M, cr: Jira): M
  {
    m.(w := m.w.(cr := cr), specs := m.specs[cr.version := cr.spec])
  }

  /** A status update carries the version the pass holds; the server rejects any other. The client
      decodes the server's answer into the local copy. */
  function DoWrite(m: M, pos: nat, p: Pass, fld: Field, f: Fault): M
  {
    var v := ValueOf(fld, p);
    if !Unconditional(fld) && Get(p.jira.status, fld) == v then Next(m, pos, p)
    else if f == Refused || p.jira.version != m.w.cr.version then Fail(m, Write(fld))
    else
      var cr := Accept(m.w.cr, Set(p.jira.status, fld, v));
      if f == NoFault then Next(StoreCr(m, cr), pos, p.(jira := cr)) else Fail(StoreCr(m, cr), Write(fld))
  }

  function Rewrite(m: M, k: Key, body: Body): M
    requires k in m.w.store
  {
    m.(w := m.w.(store := m.w.store[k := m.w.store[k].(body := body)]))
  }

  /** Updates of the secret and of the changelog carry no version and overwrite what is there. */
  function DoUpdate(m: M, pos: nat, p: Pass, i: Instr, o: Obj, f: Fault): M
  {
    if o.key !in m.w.store || f == Refused then Fail(m, i)
    else if f == NoFault then Next(Rewrite(m, o.key, o.body), pos, p)
    else Fail(Rewrite(m, o.key, o.body), i)
  }

  function DoSyncSecret(m: M, pos: nat, p: Pass, f: Fault, d: Draw): M
  {
    if TextOf(p, SecretHost) == TextOf(p, RdsEndpoint) then Next(m, pos, p)
    else
      var o := GetRdsSecret(p.jira, TextOf(p, RdsEndpoint), p.jira.name, d);
      var m' := DoUpdate(m, pos, p, SyncSecret, o, f);
      if o.key in m.w.store && f != Refused then m'.(rewrites := m.rewrites + 1) else m'
  }

  function DoSyncChangelog(m: M, pos: nat, p: Pass, f: Fault): M
  {
    if !p.existed || TextOf(p, ChangelogData) == TextOf(p, Changelog) then Next(m, pos, p)
    else DoUpdate(m, pos, p, SyncChangelog, GetLiquibaseConfigMap(p.jira, p.jira.name, TextOf(p, Changelog)), f)
  }

  function DoRender(m: M, pos: nat, p: Pass, f: Fault): M
  {
    var m' := if f == Refused then m
              else m.(w := m.w.(files := m.w.files[ManifestPath(p.jira) := GetApplicationSet(p.jira)]));
    if f == NoFault then Next(m', pos, p) else Fail(m', RenderManifest)
  }

  /** kubectl apply creates the object of the file, or brings an existing one in line with it. */
  function Apply(m: M, o: Obj, b: Birth): M
  {
    if o.key in m.w.store then
      m.(w := m.w.(store := m.w.store[o.key := o.(live := m.w.store[o.key].live)]))
    else Insert(m, o, b)
  }

  function DoApply(m: M, pos: nat, p: Pass, f: Fault, d: Draw): M
  {
    var path := ManifestPath(p.jira);
    if f == Refused || path !in m.w.files then Fail(m, ApplyManifest)
    else
      var m' := Apply(m, m.w.files[path], Birth(AppSet, p, d));
      if f == NoFault then Next(m', pos, p) else Fail(m', ApplyManifest)
  }

  function Exec(m: M, pos: nat, p: Pass, f: Fault, d: Draw): M
  {
    match At(p.jira.spec, pos)
    case Create(item) => DoCreate(m, pos, p, item, f, d)
    case Read(q) => DoRead(m, pos, p, q, f)
    case Wait(g) => DoWait(m, pos, p, g)
    case Write(fld) => DoWrite(m, pos, p, fld, f)
    case SyncSecret => DoSyncSecret(m, pos, p, f, d)
    case SyncChangelog => DoSyncChangelog(m, pos, p, f)
    case RenderManifest => DoRender(m, pos, p, f)
    case ApplyManifest => DoApply(m, pos, p, f, d)
    case Finish => m.(ctl := Idle(Returned(300, false)))
  }

  lemma UnfoldCall(m: M, pos: nat, p: Pass, f: Fault, d: Draw)
    ensures Exec(m, pos, p, f, d) ==
            match At(p.jira.spec, pos)
            case Create(item) => DoCreate(m, pos, p, item, f, d)
            case Read(q) => DoRead(m, pos, p, q, f)
            case Wait(g) => DoWait(m, pos, p, g)
            case Write(fld) => DoWrite(m, pos, p, fld, f)
            case SyncSecret => DoSyncSecret(m, pos, p, f, d)
            case SyncChangelog => DoSyncChangelog(m, pos, p, f)
            case RenderManifest => DoRender(m, pos, p, f)
            case ApplyManifest => DoApply(m, pos, p, f, d)
            case Finish => m.(ctl := Idle(Returned(300, false)))
  {
    hide At, DoCreate, DoRead, DoWait, DoWrite, DoSyncSecret, DoSyncChangelog, DoRender, DoApply;
  }

  // ---- everything else -----------------------------------------------------------------

  datatype Action =
    | SetLive(key: Key, live: Live)
    | Provision(name: string, source: VolumeSource)
    | Delete(key: Key)
    | EditSpec(spec: JiraSpec)
    | Touch
    | SetChangelog(changelog: Option<string>)
    | SetApplication(app: Option<Application>)

  function Act(m: M, a: Action): M
  {
    match a
    case SetLive(k, live) =>
      if k in m.w.store then m.(w := m.w.(store := m.w.store[k := m.w.store[k].(live := live)])) else m
    case Provision(name, source) =>
      var k := Key(PersistentVolume, "", name);
      if k in m.w.store then m
      else
        var o := Obj(k, [], PvBody(0, source, ReadWriteMany, Key(PersistentVolumeClaim, "", ""), "", []), FRESH);
        m.(w := m.w.(store := m.w.store[k := o]))
    case Delete(k) => m.(w := m.w.(store := m.w.store - {k}), births := m.births - {k})
    case EditSpec(s) => StoreCr(m, m.w.cr.(spec := s, version := m.w.cr.version + 1))
    case Touch => StoreCr(m, m.w.cr.(version := m.w.cr.version + 1))
    case SetChangelog(c) => m.(w := m.w.(changelog := c))
    case SetApplication(a) => m.(w := m.w.(app := a))
  }

  /** Several things that happen in a row. */
  function Acts(m: M, acts: seq<Action>): M
    decreases |acts|
  {
    if acts == [] then m else Acts(Act(m, acts[0]), acts[1..])
  }

  /** Begin: the work queue starts a pass, which reads the custom resource. Call: the running pass takes
      its next instruction. Crash: the manager dies and loses the program counter and the local state. */
  datatype Event = Begin(f: Fault) | Call(f: Fault, d: Draw) | Env(a: Action) | Crash

  function Step(m: M, e: Event): M
  {
    match e
    case Begin(f) =>
      if m.ctl.Running? then m
      else if f != NoFault then m.(ctl := Idle(Returned(0, false)))
      else m.(ctl := Running(0, Pass(m.w.cr, map[], false)))
    case Call(f, d) => if m.ctl.Running? then Exec(m, m.ctl.pos, m.ctl.p, f, d) else m
    case Env(a) => Act(m, a)
    case Crash => m.(ctl := Idle(Crashed))
  }

  function Run(m: M, es: seq<Event>): M
  {
    if es == [] then m else Step(Run(m, es[..|es| - 1]), es[|es| - 1])
  }

  /** A crash forgets the pass and nothing else; a pass begins with an empty memory on the resource as it is stored. */
  lemma PassesBeginAndDie(m: M)
    ensures Step(m, Crash).w == m.w && Step(m, Crash).ctl == Idle(Crashed)
    ensures m.ctl.Idle? ==> Step(m, Begin(NoFault)).w == m.w
    ensures m.ctl.Idle? ==> Step(m, Begin(NoFault)).ctl == Running(0, Pass(m.w.cr, map[], false))
    ensures forall f | f != NoFault && m.ctl.Idle? :: Step(m, Begin(f)).ctl == Idle(Returned(0, false))
  {
    hide Act, Exec;
  }

  /** What others may do between two calls: edit the resource, delete, and write status of any kind. */
  lemma OthersMay(m: M, s: JiraSpec, k: Key, live: Live, c: Option<string>, app: Option<Application>)
    ensures Step(m, Env(EditSpec(s))).w == m.w.(cr := m.w.cr.(spec := s, version := m.w.cr.version + 1))
    ensures Step(m, Env(Touch)).w == m.w.(cr := m.w.cr.(version := m.w.cr.version + 1))
    ensures Step(m, Env(Delete(k))).w == m.w.(store := m.w.store - {k})
    ensures k in m.w.store ==>
              Step(m, Env(SetLive(k, live))).w == m.w.(store := m.w.store[k := m.w.store[k].(live := live)])
    ensures Step(m, Env(SetChangelog(c))).w == m.w.(changelog := c)
    ensures Step(m, Env(SetApplication(app))).w == m.w.(app := app)
  {
    hide Exec;
  }

  lemma RunSnoc(m: M, es: seq<Event>, e: Event)
    ensures Run(m, es + [e]) == Step(Run(m, es), e)
  {
    assert (es + [e])[..|es|] == es;
  }

  lemma {:induction false} RunConcat(m: M, a: seq<Event>, b: seq<Event>)
    ensures Run(m, a + b) == Run(Run(m, a), b)
  {
    if b == [] {
      assert a + b == a;
    } else {
      var c := b[..|b| - 1];
      RunConcat(m, a, c);
      assert (a + b)[..|a + b| - 1] == a + c;
    }
  }

  /** Nothing has been created yet, and the resource has just been submitted. */
  ghost predicate Initial(m: M)
  {
    && m.ctl.Idle?
    && m.seen == {} && m.births == map[] && m.rewrites == 0
    && m.specs == map[m.w.cr.version := m.w.cr.spec]
    && m.w.cr.status == NO_STATUS
    && m.w.files == map[]
  }
}
