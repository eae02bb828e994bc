/** What holds when, besides the assumptions of Safety, providers never take back an endpoint, an id, an
    address, a binding or a job's success: status fields, stored objects and the secret agree with them. */
module Soundness {
  import opened Api
  import opened Builders
  import opened Plan
  import opened Machine
  import opened Safety
  import opened Frame
  import Template

  // ---- the environment assumption ------------------------------------------------------

  predicate KeepsText(a: string, b: string) { a != "" ==> b == a }

  function OrEmpty(o: Option<string>): string
  {
    match o case None => "" case Some(s) => s
  }

  predicate Latches(a: Live, b: Live)
  {
    && KeepsText(a.endpoint, b.endpoint)
    && KeepsText(OrEmpty(a.volumeId), OrEmpty(b.volumeId))
    && KeepsText(OrEmpty(a.fileSystemId), OrEmpty(b.fileSystemId))
    && KeepsText(a.clusterIp, b.clusterIp)
    && KeepsText(a.boundVolume, b.boundVolume)
    && (a.succeeded >= 1 ==> b.succeeded >= 1)
  }

  ghost predicate Steady(m: M, e: Event, j: Jira)
  {
    && Benign(e, j)
    && (e.Env? && e.a.SetLive? && e.a.key in m.w.store ==> Latches(m.w.store[e.a.key].live, e.a.live))
  }

  ghost predicate SteadyRun(m: M, es: seq<Event>, j: Jira)
  {
    es != [] ==> SteadyRun(m, es[..|es| - 1], j) && Steady(Run(m, es[..|es| - 1]), es[|es| - 1], j)
  }

  // ---- what the providers have fixed so far ----------------------------------------------

  function LiveOf(item: Item, w: World, j: Jira): Live
  {
    if ItemKey(item, j) in w.store then w.store[ItemKey(item, j)].live else FRESH
  }

  function ClaimText(w: World, j: Jira): string
  {
    if ItemKey(FsxPvc, j) in w.store then ClaimedVolume(w.store[ItemKey(FsxPvc, j)]) else ""
  }

  function HandleText(w: World, volume: string): string
  {
    var k := Key(PersistentVolume, "", volume);
    if volume != "" && k in w.store && w.store[k].body.PvBody? && w.store[k].body.source.Csi?
    then w.store[k].body.source.handle
    else ""
  }

  function WorldText(q: Query, w: World, j: Jira): string
  {
    match q
    case RdsEndpoint => LiveOf(Rds, w, j).endpoint
    case VolumeId => OrEmpty(LiveOf(Volume, w, j).volumeId)
    case ServiceIp => LiveOf(NfsService, w, j).clusterIp
    case FileSystemId => OrEmpty(LiveOf(SharedFileSystem, w, j).fileSystemId)
    case ClaimVolume => ClaimText(w, j)
    case VolumeHandle => HandleText(w, ClaimText(w, j))
    case _ => ""
  }

  predicate Fixed(q: Query)
  {
    q in {RdsEndpoint, VolumeId, ServiceIp, FileSystemId, ClaimVolume, VolumeHandle}
  }

  predicate JobDone(item: Item, w: World, j: Jira)
  {
    ItemKey(item, j) in w.store && w.store[ItemKey(item, j)].live.succeeded >= 1
  }

  function HostOf(w: World, j: Jira): string
  {
    var k := ItemKey(DbSecret, j);
    if k in w.store && w.store[k].body.SecretBody? then w.store[k].body.data.hostname else ""
  }

  /** The stored secret carries the endpoint of the database. */
  predicate Synced(w: World, j: Jira)
  {
    HostOf(w, j) != "" && HostOf(w, j) == WorldText(RdsEndpoint, w, j)
  }

  /** Objects stay, their builders' content stays, and what providers fixed stays fixed. */
  ghost predicate Extends(w: World, w': World)
  {
    forall k | k in w.store && !Updated(k.kind) ::
      k in w'.store && w'.store[k].body == w.store[k].body && Latches(w.store[k].live, w'.store[k].live)
  }

  ghost predicate Grows(w: World, w': World, j: Jira)
  {
    Extends(w, w') && (Synced(w, j) ==> Synced(w', j))
  }

  lemma LiveKept(item: Item, w: World, w': World, j: Jira)
    requires Extends(w, w') && !Updated(ItemKey(item, j).kind) && ItemKey(item, j) in w.store
    ensures Latches(LiveOf(item, w, j), LiveOf(item, w', j))
  {
    hide ItemKey, Synced, Latches;
  }

  lemma ClaimKept(w: World, w': World, j: Jira)
    requires Extends(w, w') && ClaimText(w, j) != ""
    ensures ClaimText(w', j) == ClaimText(w, j)
  {
    assert ItemKey(FsxPvc, j).kind == PersistentVolumeClaim;
    hide ItemKey, Synced;
  }

  lemma HandleKept(w: World, w': World, j: Jira, volume: string)
    requires Extends(w, w') && HandleText(w, volume) != ""
    ensures HandleText(w', volume) == HandleText(w, volume)
  {
    hide ItemKey, Synced;
  }

  lemma TextKept(q: Query, w: World, w': World, j: Jira)
    requires Extends(w, w') && WorldText(q, w, j) != ""
    ensures WorldText(q, w', j) == WorldText(q, w, j)
  {
    hide Synced, ItemKey, Extends, ClaimText, HandleText;
    match q
    case RdsEndpoint => NotUpdated(Rds, j); LiveKept(Rds, w, w', j);
    case VolumeId => NotUpdated(Volume, j); LiveKept(Volume, w, w', j);
    case ServiceIp => NotUpdated(NfsService, j); LiveKept(NfsService, w, w', j);
    case FileSystemId => NotUpdated(SharedFileSystem, j); LiveKept(SharedFileSystem, w, w', j);
    case ClaimVolume => ClaimKept(w, w', j);
    case VolumeHandle =>
      NamedVolume(w, ClaimText(w, j));
      ClaimKept(w, w', j);
      HandleKept(w, w', j, ClaimText(w, j));
  }

  lemma NotUpdated(item: Item, j: Jira)
    requires item in {Rds, Volume, NfsService, SharedFileSystem, ResetJob, LiquibaseJob}
    ensures !Updated(ItemKey(item, j).kind)
  {
  }

  lemma NamedVolume(w: World, volume: string)
    requires HandleText(w, volume) != ""
    ensures volume != ""
  {
  }

  lemma JobKept(item: Item, w: World, w': World, j: Jira)
    requires Grows(w, w', j) && JobDone(item, w, j) && item in {ResetJob, LiquibaseJob}
    ensures JobDone(item, w', j)
  {
    hide Synced;
    assert ItemKey(item, j).kind == Job;
    hide ItemKey;
  }

  // ---- soundness of the status -----------------------------------------------------------

  ghost predicate StatusSound(st: JiraStatus, w: World, j: Jira)
  {
    && (st.endpoint != "" ==> st.endpoint == WorldText(RdsEndpoint, w, j) && Synced(w, j))
    && (st.resetJob != "" ==> st.resetJob == "Succeeded" && JobDone(ResetJob, w, j))
    && (st.liquibaseJob != "" ==> st.liquibaseJob == "Succeeded" && JobDone(LiquibaseJob, w, j))
    && (st.ebsId != "" ==>
          BackendOf(j.spec) == Ebs && st.ebsId == WorldText(VolumeId, w, j) && SharedHomeExists(w, j))
    && (st.fsxId != "" ==>
          BackendOf(j.spec) == Fsx && st.fsxId == WorldText(VolumeHandle, w, j) && SharedHomeExists(w, j))
    && (st.efsId != "" ==>
          BackendOf(j.spec) == Efs && st.efsId == WorldText(FileSystemId, w, j) && SharedHomeExists(w, j))
  }

  predicate SharedHomeExists(w: World, j: Jira)
  {
    Key(PersistentVolumeClaim, j.name, SHARED_HOME) in w.store
  }

  lemma StatusKept(st: JiraStatus, w: World, w': World, j: Jira)
    requires StatusSound(st, w, j) && Grows(w, w', j)
    ensures StatusSound(st, w', j)
  {
    hide WorldText, Synced, JobDone;
    if st.endpoint != "" { TextKept(RdsEndpoint, w, w', j); }
    if st.resetJob != "" { JobKept(ResetJob, w, w', j); }
    if st.liquibaseJob != "" { JobKept(LiquibaseJob, w, w', j); }
    if st.ebsId != "" { TextKept(VolumeId, w, w', j); }
    if st.fsxId != "" { TextKept(VolumeHandle, w, w', j); }
    if st.efsId != "" { TextKept(FileSystemId, w, w', j); }
  }

  // ---- soundness of the running pass -----------------------------------------------------

  ghost predicate LocalsSound(p: Pass, w: World, j: Jira)
  {
    && (forall q | Fixed(q) && TextOf(p, q) != "" :: WorldText(q, w, j) == TextOf(p, q))
    && (ResetCount in p.obs && Judge(ResetDone, p.obs[ResetCount]) == Open ==> JobDone(ResetJob, w, j))
    && (LiquibaseCount in p.obs && Judge(LiquibaseDone, p.obs[LiquibaseCount]) == Open ==> JobDone(LiquibaseJob, w, j))
  }

  lemma LocalsKept(p: Pass, w: World, w': World, j: Jira)
    requires LocalsSound(p, w, j) && Grows(w, w', j)
    ensures LocalsSound(p, w', j)
  {
    hide WorldText, Extends, JobDone, TextOf, Synced;
    forall q | Fixed(q) && TextOf(p, q) != ""
      ensures WorldText(q, w', j) == TextOf(p, q)
    {
      TextKept(q, w, w', j);
    }
    if JobDone(ResetJob, w, j) { JobKept(ResetJob, w, w', j); }
    if JobDone(LiquibaseJob, w, j) { JobKept(LiquibaseJob, w, w', j); }
  }

  /** Every gate the pass went through was open when it looked. */
  ghost predicate PassOpen(p: Pass, pos: nat, s: JiraSpec)
  {
    forall k: nat | k < pos && k < |Prog(s)| && Prog(s)[k].Wait? ::
      var g := Prog(s)[k].gate;
      GateQuery(g) in p.obs && Judge(g, p.obs[GateQuery(g)]) == Open
  }

  // ---- soundness of the objects ----------------------------------------------------------

  /** The id that a builder takes from a provider. */
  function Needs(item: Item): Option<Query>
  {
    match item
    case NfsPv => Some(VolumeId)
    case SharedNfsPv => Some(ServiceIp)
    case Target(_) => Some(FileSystemId)
    case EfsPv => Some(FileSystemId)
    case _ => None
  }

  ghost predicate BirthSound(b: Birth, w: World, j: Jira)
  {
    Needs(b.item).Some? ==>
      TextOf(b.p, Needs(b.item).value) != "" && TextOf(b.p, Needs(b.item).value) == WorldText(Needs(b.item).value, w, j)
  }

  predicate DatabaseItem(item: Item)
  {
    item in {NamespaceItem, ParameterGroupItem, SubnetGroupItem, DbSecret, Rds}
  }

  ghost predicate BirthsSound(m: M, j: Jira)
  {
    forall k | k in m.births ::
      BirthSound(m.births[k], m.w, j) && (!DatabaseItem(m.births[k].item) ==> Synced(m.w, j))
  }

  const SYNC_SECRET_AT: nat := 11

  ghost predicate Sound(m: M, j: Jira)
  {
    && StatusSound(m.w.cr.status, m.w, j)
    && BirthsSound(m, j)
    && (m.ctl.Running? ==> PassSound(m.ctl.p, m.ctl.pos, m.w, j))
  }

  ghost predicate PassSound(p: Pass, pos: nat, w: World, j: Jira)
  {
    && StatusSound(p.jira.status, w, j)
    && LocalsSound(p, w, j)
    && PassOpen(p, pos, j.spec)
    && (pos > SYNC_SECRET_AT ==> Synced(w, j))
    && (pos == SYNC_SECRET_AT ==> TextOf(p, SecretHost) == "" || TextOf(p, SecretHost) == HostOf(w, j))
  }

  lemma BirthsKept(m: M, m': M, j: Jira)
    requires BirthsSound(m, j) && Grows(m.w, m'.w, j) && m'.births == m.births
    ensures BirthsSound(m', j)
  {
    hide WorldText, Synced, TextOf;
    forall k | k in m'.births
      ensures BirthSound(m'.births[k], m'.w, j) && (!DatabaseItem(m'.births[k].item) ==> Synced(m'.w, j))
    {
      BirthKept(m.births[k], m.w, m'.w, j);
    }
  }

  lemma BirthKept(b: Birth, w: World, w': World, j: Jira)
    requires BirthSound(b, w, j) && Grows(w, w', j)
    ensures BirthSound(b, w', j)
  {
    hide WorldText, Synced, TextOf, Extends;
    if Needs(b.item).Some? {
      TextKept(Needs(b.item).value, w, w', j);
    }
  }

  // ---- which gate stands in front of which instruction -----------------------------------

  function GuardOf(i: Instr): Option<Gate>
  {
    match i
    case Create(NfsPv) => Some(VolumeIdKnown)
    case Create(SharedNfsPv) => Some(ServiceIpKnown)
    case Create(Target(_)) => Some(FileSystemIdKnown)
    case Create(EfsPv) => Some(FileSystemIdKnown)
    case SyncSecret => Some(EndpointKnown)
    case Write(EndpointField) => Some(EndpointKnown)
    case Write(ResetField) => Some(ResetDone)
    case Write(LiquibaseField) => Some(LiquibaseDone)
    case Write(EbsIdField) => Some(VolumeIdKnown)
    case Write(EfsIdField) => Some(FileSystemIdKnown)
    case _ => None
  }

  lemma StorageGuard(s: JiraSpec, k: nat)
    requires k < |Storage(s)| && GuardOf(Storage(s)[k]).Some?
    ensures var g := GuardOf(Storage(s)[k]).value;
            g == VolumeIdKnown || g == FileSystemIdKnown || g == ServiceIpKnown
    ensures GuardOf(Storage(s)[k]).value == ServiceIpKnown ==> k > 7 && Storage(s)[7] == Wait(ServiceIpKnown)
    ensures GuardOf(Storage(s)[k]).value != ServiceIpKnown ==>
              k > 2 && Storage(s)[2] == Wait(GuardOf(Storage(s)[k]).value)
  {
    match BackendOf(s)
    case Ebs => assert EBS[k] == Storage(s)[k];
    case Fsx =>
    case Efs =>
      EfsLayout(s, k);
      EfsLayout(s, 2);
  }

  lemma GuardBefore(s: JiraSpec, pos: nat) returns (k: nat)
    requires pos < |Prog(s)| && GuardOf(Prog(s)[pos]).Some?
    ensures k < pos && Prog(s)[k] == Wait(GuardOf(Prog(s)[pos]).value)
  {
    Segments(s, pos);
    ProgLength(s);
    if StorageAt(s) <= pos < PublishAt(s) {
      hide Prog, Storage;
      StorageGuard(s, pos - StorageAt(s));
      k := if GuardOf(Storage(s)[pos - StorageAt(s)]).value == ServiceIpKnown then 7 else 2;
      StorageSegment(s, k);
      k := StorageAt(s) + k;
    } else {
      k := 0;
      hide Storage, StorageAt, PublishAt;
      HeadGuard(s, pos);
      k := HeadGuardAt(s, Prog(s)[pos]);
    }
  }

  lemma StorageSegment(s: JiraSpec, k: nat)
    requires k < |Storage(s)|
    ensures StorageAt(s) + k < |Prog(s)| && Prog(s)[StorageAt(s) + k] == Storage(s)[k]
  {
    hide Storage;
  }

  function HeadGuardAt(s: JiraSpec, i: Instr): nat
  {
    match i
    case Write(ResetField) => 16
    case Write(LiquibaseField) => LiquibaseAt(s) + 6
    case _ => 9
  }

  lemma HeadGuard(s: JiraSpec, pos: nat)
    requires pos < |Prog(s)| && GuardOf(Prog(s)[pos]).Some? && !(StorageAt(s) <= pos < PublishAt(s))
    ensures HeadGuardAt(s, Prog(s)[pos]) < pos
    ensures Prog(s)[HeadGuardAt(s, Prog(s)[pos])] == Wait(GuardOf(Prog(s)[pos]).value)
  {
    Segments(s, pos);
    ProgLength(s);
    hide Storage;
  }

  lemma GuardOpen(p: Pass, pos: nat, s: JiraSpec, g: Gate)
    requires pos < |Prog(s)| && GuardOf(Prog(s)[pos]) == Some(g) && PassOpen(p, pos, s)
    ensures GateQuery(g) in p.obs && Judge(g, p.obs[GateQuery(g)]) == Open
  {
    var k := GuardBefore(s, pos);
    hide Prog;
  }

  lemma ReadRank(g: Gate, s: JiraSpec)
    ensures Rank(Read(GateQuery(g)), s) < Rank(Wait(g), s)
  {
    hide StorageAt, LiquibaseAt, PublishAt;
  }

  /** An instruction that reads stands in front of the gate that looks at the result. */
  lemma ReadBeforeWait(s: JiraSpec, k: nat, pos: nat)
    requires k < pos < |Prog(s)| && Prog(s)[k].Wait? && Prog(s)[pos].Read?
    ensures GateQuery(Prog(s)[k].gate) != Prog(s)[pos].query
  {
    hide Prog, Rank, GateQuery;
    RankAt(s, k);
    RankAt(s, pos);
    ReadRank(Prog(s)[k].gate, s);
  }

  // ---- every steady step keeps soundness -------------------------------------------------

  /** Only SyncSecret alters a stored secret. */
  lemma SecretKept(m: M, pos: nat, p: Pass, f: Fault, d: Draw, k: Key)
    requires k in m.w.store && k.kind == Secret && At(p.jira.spec, pos) != SyncSecret
    requires forall path | path in m.w.files :: m.w.files[path].key.kind == ApplicationSet
    ensures var m' := Exec(m, pos, p, f, d); k in m'.w.store && m'.w.store[k] == m.w.store[k]
  {
    hide At, Build, FailAfter, TextOf, Template.Manifest, ManifestPath;
    hide DoCreate, DoRead, DoWait, DoWrite, DoSyncChangelog, DoApply;
    match At(p.jira.spec, pos)
    case Create(item) => CreateKeeps(m, pos, p, item, f, d, k);
    case Read(q) => StatusStepsKeepStore(m, pos, p, q, RdsAvailable, SyncField, f);
    case Wait(g) => StatusStepsKeepStore(m, pos, p, Changelog, g, SyncField, f);
    case Write(fld) => StatusStepsKeepStore(m, pos, p, Changelog, RdsAvailable, fld, f);
    case SyncChangelog => SyncChangelogKeeps(m, pos, p, f, k);
    case RenderManifest =>
    case ApplyManifest => ApplyKeeps(m, pos, p, f, d, k);
    case Finish =>
  }

  lemma CreateKeeps(m: M, pos: nat, p: Pass, item: Item, f: Fault, d: Draw, k: Key)
    requires k in m.w.store
    ensures var m' := DoCreate(m, pos, p, item, f, d); k in m'.w.store && m'.w.store[k] == m.w.store[k]
  {
    hide Build, FailAfter;
  }

  lemma SyncChangelogKeeps(m: M, pos: nat, p: Pass, f: Fault, k: Key)
    requires k in m.w.store && k.kind == Secret
    ensures var m' := DoSyncChangelog(m, pos, p, f); k in m'.w.store && m'.w.store[k] == m.w.store[k]
  {
    hide TextOf, FailAfter;
  }

  lemma ApplyKeeps(m: M, pos: nat, p: Pass, f: Fault, d: Draw, k: Key)
    requires k in m.w.store && k.kind == Secret
    requires forall path | path in m.w.files :: m.w.files[path].key.kind == ApplicationSet
    ensures var m' := DoApply(m, pos, p, f, d); k in m'.w.store && m'.w.store[k] == m.w.store[k]
  {
    hide ManifestPath, FailAfter;
  }

  /** What SyncSecret leaves as the stored hostname. */
  lemma HostAfterSync(m: M, pos: nat, p: Pass, f: Fault, d: Draw, j: Jira)
    requires SameIdentity(p.jira, j)
    ensures var m' := DoSyncSecret(m, pos, p, f, d);
            && (HostOf(m'.w, j) == HostOf(m.w, j) || HostOf(m'.w, j) == TextOf(p, RdsEndpoint))
            && (m'.ctl.Running? && TextOf(p, SecretHost) != TextOf(p, RdsEndpoint) ==>
                  HostOf(m'.w, j) == TextOf(p, RdsEndpoint))
            && (m'.ctl.Running? ==> m'.ctl.p == p)
  {
    hide TextOf, FailAfter;
  }

  lemma FilesAreSets(m: M, j: Jira)
    requires Inv(m, j)
    ensures m.births.Keys <= m.w.store.Keys
    ensures forall path | path in m.w.files :: m.w.files[path].key.kind == ApplicationSet
  {
    AppSetKey(j);
    hide GetApplicationSet, PlanKey, BirthFits, Ordered, InPass;
  }

  lemma CallExtends(m: M, f: Fault, d: Draw, j: Jira)
    requires Inv(m, j) && m.ctl.Running?
    ensures Extends(m.w, Exec(m, m.ctl.pos, m.ctl.p, f, d).w)
  {
    FilesAreSets(m, j);
    CallIsFrugal(m, m.ctl.pos, m.ctl.p, f, d);
    hide Exec, Build, Inv;
  }

  lemma InstrAt(m: M, j: Jira)
    requires Inv(m, j) && m.ctl.Running?
    ensures m.ctl.pos < |Prog(j.spec)| && At(m.ctl.p.jira.spec, m.ctl.pos) == Prog(j.spec)[m.ctl.pos]
    ensures Rank(Prog(j.spec)[m.ctl.pos], j.spec) == m.ctl.pos
    ensures Fits(Prog(j.spec)[m.ctl.pos], j.spec)
    ensures SameIdentity(m.ctl.p.jira, j) && m.ctl.p.jira.spec == j.spec
  {
    hide Prog, Rank, Ordered, Accounted, Upto;
    RankAt(j.spec, m.ctl.pos);
    ItemsFit(j.spec, m.ctl.pos);
  }

  lemma CallGrows(m: M, f: Fault, d: Draw, j: Jira)
    requires Inv(m, j) && Sound(m, j) && m.ctl.Running?
    ensures Grows(m.w, Exec(m, m.ctl.pos, m.ctl.p, f, d).w, j)
  {
    var pos, p := m.ctl.pos, m.ctl.p;
    var m' := Exec(m, pos, p, f, d);
    CallExtends(m, f, d, j);
    InstrAt(m, j);
    FilesAreSets(m, j);
    hide Prog, Inv, Extends, Rank, BirthsSound, StatusSound;
    if Synced(m.w, j) {
      TextKept(RdsEndpoint, m.w, m'.w, j);
      if At(p.jira.spec, pos) == SyncSecret {
        assert m' == DoSyncSecret(m, pos, p, f, d);
        hide Exec, DoSyncSecret;
        HostAfterSync(m, pos, p, f, d, j);
        EndpointRead(p, pos, m.w, j);
      } else {
        hide Exec;
        assert ItemKey(DbSecret, j).kind == Secret;
        SecretKept(m, pos, p, f, d, ItemKey(DbSecret, j));
      }
    }
  }

  /** At SyncSecret the pass holds the provider's endpoint. */
  lemma EndpointRead(p: Pass, pos: nat, w: World, j: Jira)
    requires pos < |Prog(j.spec)| && GuardOf(Prog(j.spec)[pos]) == Some(EndpointKnown)
    requires PassOpen(p, pos, j.spec) && LocalsSound(p, w, j)
    ensures TextOf(p, RdsEndpoint) != "" && TextOf(p, RdsEndpoint) == WorldText(RdsEndpoint, w, j)
  {
    hide Prog, WorldText, PassOpen;
    GuardOpen(p, pos, j.spec, EndpointKnown);
  }

  /** The parts of soundness that any growing step keeps. */
  lemma ReadingsKept(p: Pass, p': Pass, pos: nat, w: World, w': World, j: Jira)
    requires PassSound(p, pos, w, j) && Grows(w, w', j) && p'.obs == p.obs
    ensures LocalsSound(p', w', j) && PassOpen(p', pos, j.spec)
    ensures pos > SYNC_SECRET_AT ==> Synced(w', j)
  {
    LocalsKept(p, w, w', j);
    hide WorldText, StatusSound, Synced, Extends, Prog, Judge, JobDone;
    assert forall q :: TextOf(p', q) == TextOf(p, q);
  }

  lemma PassKept(p: Pass, p': Pass, pos: nat, w: World, w': World, j: Jira)
    requires PassSound(p, pos, w, j) && Grows(w, w', j)
    requires p'.obs == p.obs && p'.jira.status == p.jira.status
    ensures StatusSound(p'.jira.status, w', j) && LocalsSound(p', w', j) && PassOpen(p', pos, j.spec)
    ensures pos > SYNC_SECRET_AT ==> Synced(w', j)
  {
    hide StatusSound, LocalsSound, PassOpen, Grows, Synced;
    StatusKept(p.jira.status, w, w', j);
    ReadingsKept(p, p', pos, w, w', j);
  }

  /** An instruction that is neither a read, a gate, a status write nor SyncSecret. */
  lemma PlainAdvance(p: Pass, p': Pass, pos: nat, w: World, w': World, j: Jira)
    requires PassSound(p, pos, w, j) && Grows(w, w', j)
    requires p'.obs == p.obs && p'.jira.status == p.jira.status
    requires pos < |Prog(j.spec)| && !Prog(j.spec)[pos].Wait? && pos != SYNC_SECRET_AT && pos + 1 != SYNC_SECRET_AT
    ensures PassSound(p', pos + 1, w', j)
  {
    hide Prog, LocalsSound, StatusSound, Synced, Grows;
    PassKept(p, p', pos, w, w', j);
  }

  /** The instructions at the two positions that concern the secret. */
  lemma SecretPositions(i: Instr, s: JiraSpec)
    ensures Rank(i, s) == 10 <==> i == Read(SecretHost)
    ensures Rank(i, s) == SYNC_SECRET_AT <==> i == SyncSecret
    ensures Makes(i).Some? && !DatabaseItem(Makes(i).value) ==> Rank(i, s) > SYNC_SECRET_AT
    ensures i.Write? && i.field != RdsStatusField ==> Rank(i, s) > SYNC_SECRET_AT
  {
    assert LiquibaseAt(s) >= 13;
    hide LiquibaseAt, Storage;
  }

  lemma CreateKeepsSound(m: M, item: Item, f: Fault, d: Draw, j: Jira)
    requires Inv(m, j) && Sound(m, j) && m.ctl.Running? && At(m.ctl.p.jira.spec, m.ctl.pos) == Create(item)
    ensures Sound(DoCreate(m, m.ctl.pos, m.ctl.p, item, f, d), j)
  {
    hide Exec, Build, Inv, Prog, ItemKey, Rank, Grows, At, FailAfter;
    var pos, p := m.ctl.pos, m.ctl.p;
    var m' := DoCreate(m, pos, p, item, f, d);
    UnfoldCall(m, pos, p, f, d);
    CallGrows(m, f, d, j);
    InstrAt(m, j);
    SecretPositions(Prog(j.spec)[pos], j.spec);
    CreateMayBear(m, pos, p, item, f, d);
    StatusKept(m.w.cr.status, m.w, m'.w, j);
    if m'.ctl.Running? {
      PlainAdvance(p, m'.ctl.p, pos, m.w, m'.w, j);
    }
    if m'.births == m.births {
      BirthsKept(m, m', j);
    } else {
      NewBirthSound(p, pos, item, d, m.w, j);
      BirthsGrow(m, m', ItemKey(item, p.jira), Birth(item, p, d), j);
    }
  }

  lemma BirthsGrow(m: M, m': M, k: Key, b: Birth, j: Jira)
    requires BirthsSound(m, j) && Grows(m.w, m'.w, j) && m'.births == m.births[k := b]
    requires BirthSound(b, m.w, j) && (!DatabaseItem(b.item) ==> Synced(m.w, j))
    ensures BirthsSound(m', j)
  {
    hide WorldText, Synced, TextOf, Extends;
    forall x | x in m'.births
      ensures BirthSound(m'.births[x], m'.w, j) && (!DatabaseItem(m'.births[x].item) ==> Synced(m'.w, j))
    {
      BirthKept(m'.births[x], m.w, m'.w, j);
    }
  }

  /** The id a builder needs has been read and is not empty when its turn comes. */
  lemma NewBirthSound(p: Pass, pos: nat, item: Item, d: Draw, w: World, j: Jira)
    requires pos < |Prog(j.spec)| && Makes(Prog(j.spec)[pos]) == Some(item)
    requires LocalsSound(p, w, j) && PassOpen(p, pos, j.spec)
    ensures BirthSound(Birth(item, p, d), w, j)
  {
    hide Prog, WorldText, PassOpen;
    if Needs(item).Some? {
      assert GuardOf(Create(item)).Some? && GateQuery(GuardOf(Create(item)).value) == Needs(item).value;
      GuardOpen(p, pos, j.spec, GuardOf(Create(item)).value);
    }
  }

  lemma QuietKeepsSound(m: M, m': M, j: Jira)
    requires Sound(m, j) && Grows(m.w, m'.w, j) && m'.births == m.births && m'.w.cr.status == m.w.cr.status
    requires m'.ctl.Running? ==> PassSound(m'.ctl.p, m'.ctl.pos, m'.w, j)
    ensures Sound(m', j)
  {
    hide Grows, StatusSound, BirthsSound, PassSound;
    StatusKept(m.w.cr.status, m.w, m'.w, j);
    BirthsKept(m, m', j);
  }

  ghost predicate Faithful(q: Query, r: Reading, p: Pass, w: World, j: Jira)
  {
    var t := TextOf(p.(obs := p.obs[q := r]), q);
    && (Fixed(q) && t != "" ==> WorldText(q, w, j) == t)
    && (q == ResetCount && Judge(ResetDone, r) == Open ==> JobDone(ResetJob, w, j))
    && (q == LiquibaseCount && Judge(LiquibaseDone, r) == Open ==> JobDone(LiquibaseJob, w, j))
    && (q == SecretHost ==> t == HostOf(w, j))
  }

  lemma ObjectPeekSound(q: Query, p: Pass, w: World, j: Jira)
    requires SameIdentity(p.jira, j) && p.jira.spec == j.spec && q != VolumeHandle
    requires Peek(q, p, w).Got?
    ensures Faithful(q, Peek(q, p, w).r, p, w, j)
  {
  }

  lemma HandlePeekSound(p: Pass, w: World, j: Jira)
    requires LocalsSound(p, w, j) && Peek(VolumeHandle, p, w).Got?
    ensures Faithful(VolumeHandle, Peek(VolumeHandle, p, w).r, p, w, j)
  {
    ClaimIsSound(p, w, j);
    hide LocalsSound, ItemKey, JobDone, HostOf, Judge, LiveOf;
  }

  lemma ClaimIsSound(p: Pass, w: World, j: Jira)
    requires LocalsSound(p, w, j)
    ensures TextOf(p, ClaimVolume) != "" ==> ClaimText(w, j) == TextOf(p, ClaimVolume)
  {
    hide TextOf, ItemKey, JobDone, HostOf, Judge, LiveOf, ClaimText, HandleText;
    assert WorldText(ClaimVolume, w, j) == ClaimText(w, j);
  }

  /** What a query finds in the world is what a read of it returns. */
  lemma PeekSound(q: Query, p: Pass, w: World, j: Jira)
    requires SameIdentity(p.jira, j) && p.jira.spec == j.spec && LocalsSound(p, w, j)
    requires Peek(q, p, w).Got?
    ensures Faithful(q, Peek(q, p, w).r, p, w, j)
  {
    hide Faithful, LocalsSound, Peek;
    if q == VolumeHandle {
      HandlePeekSound(p, w, j);
    } else {
      ObjectPeekSound(q, p, w, j);
    }
  }

  lemma ReadShape(m: M, pos: nat, p: Pass, q: Query, f: Fault) returns (v: Reading)
    requires DoRead(m, pos, p, q, f).ctl.Running?
    ensures var c := DoRead(m, pos, p, q, f).ctl;
            && c.pos == pos + 1
            && (|| (c.p == p && q == ChangelogData)
                || (c.p == p.(obs := p.obs[q := v])
                    && (Peek(q, p, m.w) == Got(v) || (q == SecretHost && v == Text("")))))
  {
    hide Peek, FailAfter;
    v := if f == NoFault && Peek(q, p, m.w).Got? then Peek(q, p, m.w).r else Text("");
  }

  lemma OpenAfterRead(p: Pass, pos: nat, q: Query, v: Reading, s: JiraSpec)
    requires pos < |Prog(s)| && Prog(s)[pos] == Read(q) && PassOpen(p, pos, s)
    ensures PassOpen(p.(obs := p.obs[q := v]), pos + 1, s)
  {
    hide Prog;
    var p' := p.(obs := p.obs[q := v]);
    forall k: nat | k < pos + 1 && k < |Prog(s)| && Prog(s)[k].Wait?
      ensures var g := Prog(s)[k].gate;
              GateQuery(g) in p'.obs && Judge(g, p'.obs[GateQuery(g)]) == Open
    {
      ReadBeforeWait(s, k, pos);
      hide Judge, GateQuery;
    }
  }

  lemma LocalsAfterRead(p: Pass, q: Query, v: Reading, w: World, j: Jira)
    requires SameIdentity(p.jira, j) && p.jira.spec == j.spec && LocalsSound(p, w, j)
    requires Peek(q, p, w) == Got(v) || (q == SecretHost && v == Text(""))
    ensures LocalsSound(p.(obs := p.obs[q := v]), w, j)
  {
    var p' := p.(obs := p.obs[q := v]);
    if Peek(q, p, w).Got? {
      PeekSound(q, p, w, j);
    }
    hide Peek, WorldText, JobDone, Judge;
    forall x | Fixed(x) && TextOf(p', x) != ""
      ensures WorldText(x, w, j) == TextOf(p', x)
    {
      if x != q {
        assert TextOf(p', x) == TextOf(p, x);
      }
    }
  }

  lemma ReadAdvance(p: Pass, pos: nat, q: Query, v: Reading, w: World, j: Jira)
    requires SameIdentity(p.jira, j) && p.jira.spec == j.spec && PassSound(p, pos, w, j)
    requires pos < |Prog(j.spec)| && Prog(j.spec)[pos] == Read(q)
    requires pos != SYNC_SECRET_AT && (pos == 10 <==> q == SecretHost)
    requires Peek(q, p, w) == Got(v) || (q == SecretHost && v == Text(""))
    ensures PassSound(p.(obs := p.obs[q := v]), pos + 1, w, j)
  {
    OpenAfterRead(p, pos, q, v, j.spec);
    LocalsAfterRead(p, q, v, w, j);
    if Peek(q, p, w).Got? {
      PeekSound(q, p, w, j);
    }
    hide Prog, Peek, LocalsSound, PassOpen, Synced, HostOf, StatusSound;
  }

  lemma ReadKeepsSound(m: M, q: Query, f: Fault, d: Draw, j: Jira)
    requires Inv(m, j) && Sound(m, j) && m.ctl.Running? && At(m.ctl.p.jira.spec, m.ctl.pos) == Read(q)
    ensures Sound(DoRead(m, m.ctl.pos, m.ctl.p, q, f), j)
  {
    var pos, p := m.ctl.pos, m.ctl.p;
    var m' := DoRead(m, pos, p, q, f);
    assert m' == Exec(m, pos, p, f, d);
    CallGrows(m, f, d, j);
    InstrAt(m, j);
    SecretPositions(Prog(j.spec)[pos], j.spec);
    StatusStepsKeepStore(m, pos, p, q, RdsAvailable, SyncField, f);
    hide Exec, Inv, Prog, Rank, Grows, At, DoRead, Peek, StatusSound, LocalsSound, PassSound;
    if m'.ctl.Running? {
      var v := ReadShape(m, pos, p, q, f);
      if q == ChangelogData {
        if m'.ctl.p == p {
          PlainAdvance(p, p, pos, m.w, m.w, j);
        } else {
          ReadAdvance(p, pos, q, v, m.w, j);
        }
      } else {
        ReadAdvance(p, pos, q, v, m.w, j);
      }
    }
    QuietKeepsSound(m, m', j);
  }

  lemma WaitKeepsSound(m: M, g: Gate, f: Fault, d: Draw, j: Jira)
    requires Inv(m, j) && Sound(m, j) && m.ctl.Running? && At(m.ctl.p.jira.spec, m.ctl.pos) == Wait(g)
    ensures Sound(DoWait(m, m.ctl.pos, m.ctl.p, g), j)
  {
    var pos, p := m.ctl.pos, m.ctl.p;
    var m' := DoWait(m, pos, p, g);
    assert m' == Exec(m, pos, p, f, d);
    CallGrows(m, f, d, j);
    InstrAt(m, j);
    SecretPositions(Prog(j.spec)[pos], j.spec);
    StatusStepsKeepStore(m, pos, p, Changelog, g, SyncField, f);
    hide Exec, Inv, Prog, Rank, Grows, At, Judge, StatusSound, LocalsSound, WaitAfter;
    if m'.ctl.Running? {
      OpenAfterWait(p, pos, g, j.spec);
    }
    hide DoWait;
    QuietKeepsSound(m, m', j);
  }

  lemma OpenAfterWait(p: Pass, pos: nat, g: Gate, s: JiraSpec)
    requires pos < |Prog(s)| && Prog(s)[pos] == Wait(g) && PassOpen(p, pos, s)
    requires GateQuery(g) in p.obs && Judge(g, p.obs[GateQuery(g)]) == Open
    ensures PassOpen(p, pos + 1, s)
  {
    hide Prog, Judge, GateQuery;
  }

  /** Where the shared-home claim stands relative to the field that names its backend. */
  lemma ClaimBeforeField(s: JiraSpec, pos: nat) returns (k: nat)
    requires pos < |Prog(s)| && Prog(s)[pos].Write? && Prog(s)[pos].field in {EbsIdField, FsxIdField, EfsIdField}
    ensures k < pos
    ensures Prog(s)[k] in {Create(SharedNfsPvc), Create(FsxPvc), Create(EfsPvc)}
  {
    RankAt(s, pos);
    ItemsFit(s, pos);
    ProgLength(s);
    k := match BackendOf(s)
         case Ebs => StorageAt(s) + 12
         case Fsx => StorageAt(s) + 2
         case Efs => PublishAt(s) - 2;
    ClaimLayout(s);
    hide Prog, Storage, LiquibaseAt;
  }

  lemma ClaimLayout(s: JiraSpec)
    ensures BackendOf(s) == Ebs ==> StorageAt(s) + 12 < |Prog(s)| && Prog(s)[StorageAt(s) + 12] == Create(SharedNfsPvc)
    ensures BackendOf(s) == Fsx ==> StorageAt(s) + 2 < |Prog(s)| && Prog(s)[StorageAt(s) + 2] == Create(FsxPvc)
    ensures BackendOf(s) == Efs ==>
              2 <= PublishAt(s) && PublishAt(s) - 2 < |Prog(s)| && Prog(s)[PublishAt(s) - 2] == Create(EfsPvc)
  {
    match BackendOf(s)
    case Ebs => assert EBS[12] == Storage(s)[12]; StorageSegment(s, 12);
    case Fsx => assert FSX[2] == Storage(s)[2]; StorageSegment(s, 2);
    case Efs =>
      var k := 3 + 3 * |s.network.subnetIds| + 1;
      EfsLayout(s, 2);
      EfsLayout(s, k);
      StorageSegment(s, k);
  }

  lemma SharedHomeMade(m: M, j: Jira, pos: nat)
    requires Inv(m, j) && pos < |Prog(j.spec)| && Upto(m, j, pos)
    requires Prog(j.spec)[pos].Write? && Prog(j.spec)[pos].field in {EbsIdField, FsxIdField, EfsIdField}
    ensures SharedHomeExists(m.w, j)
  {
    hide Prog, InPass, Ordered, GetApplicationSet, PlanKey, BirthFits;
    var k := ClaimBeforeField(j.spec, pos);
    assert Done(Prog(j.spec)[k], m, j);
    var item := Makes(Prog(j.spec)[k]).value;
    assert ItemKey(item, j) == Key(PersistentVolumeClaim, j.name, SHARED_HOME);
    hide ItemKey;
    assert ItemKey(item, j) in m.births;
  }

  /** Writing a field keeps the status sound. */
  lemma FieldSound(m: M, fld: Field, j: Jira)
    requires Inv(m, j) && m.ctl.Running? && At(m.ctl.p.jira.spec, m.ctl.pos) == Write(fld)
    requires PassSound(m.ctl.p, m.ctl.pos, m.w, j)
    ensures StatusSound(Set(m.ctl.p.jira.status, fld, ValueOf(fld, m.ctl.p)), m.w, j)
  {
    var pos, p := m.ctl.pos, m.ctl.p;
    InstrAt(m, j);
    SecretPositions(Prog(j.spec)[pos], j.spec);
    if fld in {EbsIdField, FsxIdField, EfsIdField} {
      SharedHomeMade(m, j, pos);
    }
    hide Prog, Rank, Inv, At, Upto, PassOpen, WorldText, JobDone, Synced, SharedHomeExists;
    match GuardOf(Write(fld)) {
      case Some(g) => GuardOpen(p, pos, j.spec, g);
      case None =>
    }
  }

  lemma WriteKeepsSound(m: M, fld: Field, f: Fault, d: Draw, j: Jira)
    requires Inv(m, j) && Versioned(m) && Sound(m, j) && m.ctl.Running? && At(m.ctl.p.jira.spec, m.ctl.pos) == Write(fld)
    ensures Sound(DoWrite(m, m.ctl.pos, m.ctl.p, fld, f), j)
  {
    hide Exec, Inv, Prog, Rank, At, DoWrite, StatusSound, LocalsSound, Versioned, ValueOf, Set, Get;
    var pos, p := m.ctl.pos, m.ctl.p;
    var m' := DoWrite(m, pos, p, fld, f);
    UnfoldCall(m, pos, p, f, d);
    CallGrows(m, f, d, j);
    InstrAt(m, j);
    SecretPositions(Prog(j.spec)[pos], j.spec);
    FieldSound(m, fld, j);
    StatusStepsKeepStore(m, pos, p, Changelog, RdsAvailable, fld, f);
    WriteShape(m, pos, p, fld, f);
    StatusKept(m.w.cr.status, m.w, m'.w, j);
    StatusKept(p.jira.status, m.w, m'.w, j);
    StatusKept(Set(p.jira.status, fld, ValueOf(fld, p)), m.w, m'.w, j);
    BirthsKept(m, m', j);
    hide Grows, BirthsSound;
    if m'.ctl.Running? {
      LocalsKept(p, m.w, m'.w, j);
      WriteAdvance(p, m'.ctl.p, pos, m.w, m'.w, j);
    }
  }

  lemma WriteAdvance(p: Pass, p': Pass, pos: nat, w: World, w': World, j: Jira)
    requires PassSound(p, pos, w, j) && Grows(w, w', j)
    requires p'.obs == p.obs && StatusSound(p'.jira.status, w', j)
    requires pos < |Prog(j.spec)| && Prog(j.spec)[pos].Write? && pos != SYNC_SECRET_AT && pos != 10
    ensures PassSound(p', pos + 1, w', j)
  {
    hide Prog, LocalsSound, StatusSound, Synced, Grows;
    ReadingsKept(p, p', pos, w, w', j);
    hide PassOpen;
    OpenPastOther(p', pos, j.spec);
  }

  lemma OpenPastOther(p: Pass, pos: nat, s: JiraSpec)
    requires PassOpen(p, pos, s) && pos < |Prog(s)| && !Prog(s)[pos].Wait?
    ensures PassOpen(p, pos + 1, s)
  {
    hide Prog, Judge, GateQuery;
  }

  lemma WriteShape(m: M, pos: nat, p: Pass, fld: Field, f: Fault)
    ensures var m' := DoWrite(m, pos, p, fld, f);
            var st := Set(p.jira.status, fld, ValueOf(fld, p));
            && (m'.w.cr.status == m.w.cr.status || m'.w.cr.status == st)
            && (m'.ctl.Running? ==>
                  && m'.ctl.pos == pos + 1 && m'.ctl.p.obs == p.obs
                  && (m'.ctl.p.jira.status == p.jira.status || m'.ctl.p.jira.status == st))
  {
    hide Get, Set, ValueOf, FailAfter;
  }

  lemma SyncShape(m: M, pos: nat, p: Pass, f: Fault, d: Draw)
    ensures var m' := DoSyncSecret(m, pos, p, f, d);
            && m'.w.cr == m.w.cr && m'.births == m.births
            && (m'.ctl.Running? ==> m'.ctl.pos == pos + 1 && m'.ctl.p == p)
  {
    hide TextOf, FailAfter;
  }

  lemma SyncSecretKeepsSound(m: M, f: Fault, d: Draw, j: Jira)
    requires Inv(m, j) && Sound(m, j) && m.ctl.Running? && At(m.ctl.p.jira.spec, m.ctl.pos) == SyncSecret
    ensures Sound(DoSyncSecret(m, m.ctl.pos, m.ctl.p, f, d), j)
  {
    var pos, p := m.ctl.pos, m.ctl.p;
    var m' := DoSyncSecret(m, pos, p, f, d);
    assert m' == Exec(m, pos, p, f, d);
    CallGrows(m, f, d, j);
    InstrAt(m, j);
    hide Exec, Inv, Prog, DoSyncSecret, StatusSound, BirthsSound, Extends;
    SyncShape(m, pos, p, f, d);
    if m'.ctl.Running? {
      hide Sound, LocalsSound, WorldText, At;
      SecretPositions(Prog(j.spec)[pos], j.spec);
      hide Rank;
      PassOfSound(m, j);
      SyncedAfterSync(m, f, d, j);
      hide PassSound, Synced;
      PassKept(p, p, pos, m.w, m'.w, j);
      SyncAdvance(p, pos, m'.w, j);
    }
    hide Grows, PassSound, Synced;
    QuietKeepsSound(m, m', j);
  }

  lemma PassOfSound(m: M, j: Jira)
    requires Sound(m, j) && m.ctl.Running?
    ensures PassSound(m.ctl.p, m.ctl.pos, m.w, j)
  {
  }

  lemma SyncedAfterSync(m: M, f: Fault, d: Draw, j: Jira)
    requires m.ctl.Running? && PassSound(m.ctl.p, m.ctl.pos, m.w, j) && m.ctl.pos == SYNC_SECRET_AT
    requires m.ctl.pos < |Prog(j.spec)| && Prog(j.spec)[m.ctl.pos] == SyncSecret && SameIdentity(m.ctl.p.jira, j)
    requires Extends(m.w, DoSyncSecret(m, m.ctl.pos, m.ctl.p, f, d).w)
    requires DoSyncSecret(m, m.ctl.pos, m.ctl.p, f, d).ctl.Running?
    ensures Synced(DoSyncSecret(m, m.ctl.pos, m.ctl.p, f, d).w, j)
  {
    var pos, p := m.ctl.pos, m.ctl.p;
    var m' := DoSyncSecret(m, pos, p, f, d);
    HostAfterSync(m, pos, p, f, d, j);
    EndpointRead(p, pos, m.w, j);
    hide DoSyncSecret, Prog, WorldText, HostOf, StatusSound, LocalsSound, PassOpen, Extends;
    TextKept(RdsEndpoint, m.w, m'.w, j);
  }

  lemma SyncAdvance(p: Pass, pos: nat, w: World, j: Jira)
    requires StatusSound(p.jira.status, w, j) && LocalsSound(p, w, j) && PassOpen(p, pos, j.spec)
    requires pos == SYNC_SECRET_AT && pos < |Prog(j.spec)| && Prog(j.spec)[pos] == SyncSecret && Synced(w, j)
    ensures PassSound(p, pos + 1, w, j)
  {
    hide Prog, StatusSound, LocalsSound, Synced, Judge;
  }

  /** Instructions that touch neither the secret nor the locals nor the status. */
  lemma RestShape(m: M, pos: nat, p: Pass, f: Fault, d: Draw)
    requires At(p.jira.spec, pos) in {SyncChangelog, RenderManifest, ApplyManifest, Finish}
    ensures var m' := Exec(m, pos, p, f, d);
            && m'.w.cr == m.w.cr
            && (m'.ctl.Running? ==> m'.ctl.pos == pos + 1 && m'.ctl.p == p)
  {
    hide At, Build, FailAfter, TextOf, ManifestPath, GetApplicationSet;
  }

  lemma RestKeepsSound(m: M, f: Fault, d: Draw, j: Jira)
    requires Inv(m, j) && Sound(m, j) && m.ctl.Running?
    requires At(m.ctl.p.jira.spec, m.ctl.pos) in {SyncChangelog, RenderManifest, ApplyManifest, Finish}
    ensures Sound(Exec(m, m.ctl.pos, m.ctl.p, f, d), j)
  {
    var pos, p := m.ctl.pos, m.ctl.p;
    var m' := Exec(m, pos, p, f, d);
    CallGrows(m, f, d, j);
    InstrAt(m, j);
    SecretPositions(Prog(j.spec)[pos], j.spec);
    RestShape(m, pos, p, f, d);
    RestBirths(m, f, d, j);
    hide Exec, Inv, Prog, Rank, At, StatusSound, LocalsSound, Grows, BirthsSound;
    StatusKept(m.w.cr.status, m.w, m'.w, j);
    if m'.ctl.Running? {
      PlainAdvance(p, p, pos, m.w, m'.w, j);
    }
  }

  lemma RestBirths(m: M, f: Fault, d: Draw, j: Jira)
    requires Inv(m, j) && Sound(m, j) && m.ctl.Running?
    requires At(m.ctl.p.jira.spec, m.ctl.pos) in {SyncChangelog, RenderManifest, ApplyManifest, Finish}
    ensures BirthsSound(Exec(m, m.ctl.pos, m.ctl.p, f, d), j)
  {
    hide Exec, Inv, StatusSound, Grows, BirthsSound, Synced, At, PassSound;
    var pos, p := m.ctl.pos, m.ctl.p;
    var m' := Exec(m, pos, p, f, d);
    CallGrows(m, f, d, j);
    if At(p.jira.spec, pos) == ApplyManifest {
      var k := ApplyBirths(m, pos, p, f, d);
      PublishSynced(m, j);
      if m'.births != m.births {
        BirthsGrow(m, m', k, Birth(AppSet, p, d), j);
      } else {
        BirthsKept(m, m', j);
      }
    } else {
      ExecQuiet(m, pos, p, f, d);
      BirthsKept(m, m', j);
    }
  }

  lemma PublishSynced(m: M, j: Jira)
    requires Inv(m, j) && Sound(m, j) && m.ctl.Running? && At(m.ctl.p.jira.spec, m.ctl.pos) == ApplyManifest
    ensures Synced(m.w, j)
  {
    InstrAt(m, j);
    SecretPositions(ApplyManifest, j.spec);
    hide Prog, Inv, Rank, StatusSound, BirthsSound, LocalsSound, PassOpen, Synced;
  }

  lemma ApplyBirths(m: M, pos: nat, p: Pass, f: Fault, d: Draw) returns (k: Key)
    requires At(p.jira.spec, pos) == ApplyManifest
    ensures var m' := Exec(m, pos, p, f, d);
            m'.births == m.births || m'.births == m.births[k := Birth(AppSet, p, d)]
  {
    hide At, FailAfter, ManifestPath;
    k := if ManifestPath(p.jira) in m.w.files then m.w.files[ManifestPath(p.jira)].key else Key(Namespace, "", "");
  }

  lemma CallKeepsSound(m: M, f: Fault, d: Draw, j: Jira)
    requires Inv(m, j) && Versioned(m) && Sound(m, j) && m.ctl.Running?
    ensures Sound(Exec(m, m.ctl.pos, m.ctl.p, f, d), j)
  {
    hide At, Inv, Versioned, Sound, DoCreate, DoRead, DoWait, DoWrite, DoSyncSecret, DoSyncChangelog, DoRender, DoApply;
    match At(m.ctl.p.jira.spec, m.ctl.pos)
    case Create(item) => CreateKeepsSound(m, item, f, d, j);
    case Read(q) => ReadKeepsSound(m, q, f, d, j);
    case Wait(g) => WaitKeepsSound(m, g, f, d, j);
    case Write(fld) => WriteKeepsSound(m, fld, f, d, j);
    case SyncSecret => SyncSecretKeepsSound(m, f, d, j);
    case SyncChangelog => RestKeepsSound(m, f, d, j);
    case RenderManifest => RestKeepsSound(m, f, d, j);
    case ApplyManifest => RestKeepsSound(m, f, d, j);
    case Finish => RestKeepsSound(m, f, d, j);
  }

  lemma ActExtends(m: M, a: Action, j: Jira)
    requires Steady(m, Env(a), j)
    ensures Extends(m.w, Act(m, a).w)
  {
    hide ItemKey;
  }

  lemma ActKeepsHost(m: M, a: Action, j: Jira)
    requires Benign(Env(a), j)
    ensures HostOf(Act(m, a).w, j) == HostOf(m.w, j)
  {
    assert ItemKey(DbSecret, j).kind == Secret;
    hide ItemKey;
  }

  lemma ActGrows(m: M, a: Action, j: Jira)
    requires Steady(m, Env(a), j)
    ensures Grows(m.w, Act(m, a).w, j)
  {
    ActExtends(m, a, j);
    assert Benign(Env(a), j);
    hide Steady, Benign, Act, Extends, WorldText, HostOf;
    ActKeepsHost(m, a, j);
    if Synced(m.w, j) {
      TextKept(RdsEndpoint, m.w, Act(m, a).w, j);
    }
  }

  lemma ActKeepsSound(m: M, a: Action, j: Jira)
    requires Inv(m, j) && Sound(m, j) && Steady(m, Env(a), j)
    ensures Sound(Act(m, a), j)
  {
    var m' := Act(m, a);
    ActGrows(m, a, j);
    ActShape(m, a, j);
    ActKeepsHost(m, a, j);
    hide Act, Inv, Steady, Grows, StatusSound, LocalsSound, HostOf;
    if m.ctl.Running? {
      PassKept(m.ctl.p, m.ctl.p, m.ctl.pos, m.w, m'.w, j);
    }
    QuietKeepsSound(m, m', j);
  }

  lemma ActShape(m: M, a: Action, j: Jira)
    requires Benign(Env(a), j)
    ensures var m' := Act(m, a); m'.births == m.births && m'.ctl == m.ctl && m'.w.cr.status == m.w.cr.status
  {
  }

  lemma StepKeepsSound(m: M, e: Event, j: Jira)
    requires Inv(m, j) && Versioned(m) && Sound(m, j) && Steady(m, e, j)
    ensures Sound(Step(m, e), j)
  {
    match e
    case Call(f, d) =>
      if m.ctl.Running? {
        hide Exec, Inv, Versioned, Sound;
        CallKeepsSound(m, f, d, j);
      }
    case Env(a) =>
      hide Act, Inv, Versioned, Sound;
      ActKeepsSound(m, a, j);
    case Begin(_) => hide Prog, Inv, WorldText, Synced, BirthsSound, StatusSound, JobDone, Judge;
    case Crash => hide Prog, Inv, WorldText, Synced, BirthsSound, StatusSound, JobDone, Judge;
  }

  /** After any steady history that starts before anything was created. */
  ghost predicate SteadyReachable(m: M, j: Jira)
  {
    exists m0: M, es: seq<Event> :: Clean(m0, j) && SteadyRun(m0, es, j) && m == Run(m0, es)
  }

  lemma {:induction false} SteadyRunKeeps(m: M, es: seq<Event>, j: Jira)
    requires Inv(m, j) && Versioned(m) && Intact(m) && Sound(m, j) && SteadyRun(m, es, j)
    ensures var m' := Run(m, es); Inv(m', j) && Versioned(m') && Intact(m') && Sound(m', j)
  {
    hide Inv, Versioned, Intact, Sound, Step;
    if es != [] {
      var u, e := Run(m, es[..|es| - 1]), es[|es| - 1];
      SteadyRunKeeps(m, es[..|es| - 1], j);
      StepKeepsInv(u, e, j);
      StepKeepsVersioned(u, e);
      StepKeepsIntact(u, e);
      StepKeepsSound(u, e, j);
    }
  }

  lemma SteadySound(m: M, j: Jira)
    requires SteadyReachable(m, j)
    ensures Inv(m, j) && Versioned(m) && Intact(m) && Sound(m, j)
  {
    var m0: M, es: seq<Event> :| Clean(m0, j) && SteadyRun(m0, es, j) && m == Run(m0, es);
    CleanIsInv(m0, j);
    InitialIsIntact(m0);
    assert Sound(m0, j) by { hide Prog, WorldText, Synced, JobDone; }
    hide Inv, Versioned, Intact, Sound, Run, Clean;
    SteadyRunKeeps(m0, es, j);
  }
}
