/** A pass without faults against an environment that does not move: the plan, applied up to the first
    instruction that cannot go on. No program counter, no locals, no versions to check. */
module Ideal {
  import opened Api
  import opened Builders
  import opened Plan
  import opened Machine
  import opened Safety
  import opened Frame
  import Template

  // ---- what such a pass sees -------------------------------------------------------------

  const NO_DRAW := Draw("", "", "")

  /** The object a query looks at; an item that does not exist yet is created before it is looked at. */
  function QueryItem(q: Query): Option<Item>
  {
    match q
    case RdsStatus => Some(Rds)
    case RdsEndpoint => Some(Rds)
    case SecretHost => Some(DbSecret)
    case ResetCount => Some(ResetJob)
    case Changelog => None
    case ChangelogData => Some(ChangelogMap)
    case LiquibaseCount => Some(LiquibaseJob)
    case VolumeId => Some(Volume)
    case ServiceIp => Some(NfsService)
    case ReadyReplicas => Some(NfsStatefulSet)
    case ClaimPhase => Some(FsxPvc)
    case ClaimVolume => Some(FsxPvc)
    case VolumeHandle => None
    case FileSystemId => Some(SharedFileSystem)
    case TargetState(i) => Some(Target(i))
    case AppSync => None
    case AppHealth => None
  }

  function ObjectOf(item: Item, w: World): Obj
  {
    if ItemKey(item, w.cr) in w.store then w.store[ItemKey(item, w.cr)]
    else Build(item, Pass(w.cr, map[], false), NO_DRAW)
  }

  function SightOfVolume(w: World, volume: string): Outcome
  {
    var k := Key(PersistentVolume, "", volume);
    if volume != "" && k in w.store then Extract(VolumeHandle, w.store[k]) else Missing
  }

  function Sight(q: Query, w: World): Outcome
  {
    match q
    case Changelog => (match w.changelog case None => Missing case Some(c) => Got(Text(c)))
    case AppSync => (match w.app case None => Missing case Some(a) => Got(Text(a.sync)))
    case AppHealth => (match w.app case None => Missing case Some(a) => Got(Text(a.health)))
    case VolumeHandle => SightOfVolume(w, ClaimedVolume(ObjectOf(FsxPvc, w)))
    case _ => Extract(q, ObjectOf(QueryItem(q).value, w))
  }

  function SightText(q: Query, w: World): string
  {
    match Sight(q, w)
    case Got(Text(s)) => s
    case Got(Pointer(Some(s))) => s
    case _ => ""
  }

  /** What ends the pass at an instruction, if anything does. */
  function Blocked(i: Instr, w: World): Option<Exit>
  {
    match i
    case Wait(g) =>
      (match Sight(GateQuery(g), w)
       case Got(r) =>
         (match Judge(g, r)
          case Open => None
          case Shut => Some(Returned(WaitAfter(g), false))
          case NilDeref => Some(Panicked))
       case _ => Some(Returned(WaitAfter(g), false)))
    case Read(q) =>
      if q == ChangelogData then None
      else
        (match Sight(q, w)
         case Got(_) => None
         case NilPointer => Some(Panicked)
         case Missing => Some(Returned(FailAfter(Read(q)), true)))
    case Finish => Some(Returned(300, false))
    case _ => None
  }

  function StopIn(prog: seq<Instr>, w: World, n: nat): (r: nat)
    requires n < |prog|
    ensures n <= r < |prog|
    ensures forall k: nat | n <= k < r :: Blocked(prog[k], w).None?
    ensures r == |prog| - 1 || Blocked(prog[r], w).Some?
    decreases |prog| - n
  {
    if n == |prog| - 1 || Blocked(prog[n], w).Some? then n else StopIn(prog, w, n + 1)
  }

  lemma EndBlocks(s: JiraSpec, w: World)
    ensures |Prog(s)| > 0 && Blocked(Prog(s)[|Prog(s)| - 1], w) == Some(Returned(300, false))
  {
    ProgLength(s);
    FinishIsLast(s, |Prog(s)| - 1);
    hide Prog;
  }

  /** The first closed gate, or the end. */
  function Stop(w: World): (r: nat)
    ensures r < |Prog(w.cr.spec)|
    ensures forall k: nat | k < r :: Blocked(Prog(w.cr.spec)[k], w).None?
    ensures Blocked(Prog(w.cr.spec)[r], w).Some?
  {
    EndBlocks(w.cr.spec, w);
    StopIn(Prog(w.cr.spec), w, 0)
  }

  // ---- what such a pass does -------------------------------------------------------------

  function ReadingOf(q: Query, w: World): Reading
  {
    match Sight(q, w) case Got(r) => r case _ => Text("")
  }

  /** The builders' inputs, as the frozen world gives them. */
  function View(w: World): (p: Pass)
    ensures p.jira == w.cr
  {
    Pass(w.cr,
         map[VolumeId := ReadingOf(VolumeId, w), ServiceIp := ReadingOf(ServiceIp, w),
             FileSystemId := ReadingOf(FileSystemId, w), Changelog := ReadingOf(Changelog, w)],
         false)
  }

  function FieldValue(f: Field, w: World): string
  {
    match f
    case RdsStatusField => SightText(RdsStatus, w)
    case EndpointField => SightText(RdsEndpoint, w)
    case ResetField => "Succeeded"
    case LiquibaseField => "Succeeded"
    case EbsIdField => SightText(VolumeId, w)
    case FsxIdField => SightText(VolumeHandle, w)
    case EfsIdField => SightText(FileSystemId, w)
    case SyncField => SightText(AppSync, w)
    case HealthField => SightText(AppHealth, w)
  }

  function AddObject(w: World, o: Obj): World
  {
    if o.key in w.store then w else w.(store := w.store[o.key := o])
  }

  function SetBody(w: World, k: Key, body: Body): World
  {
    if k in w.store then w.(store := w.store[k := w.store[k].(body := body)]) else w
  }

  /** The lasting effect of one instruction on the world w, in a pass that started in w0. */
  function Effect(i: Instr, w0: World, w: World, d: Draw): World
  {
    var j := w0.cr;
    match i
    case Create(item) => AddObject(w, Build(item, View(w0), d))
    case Write(f) => w.(cr := Accept(w.cr, Set(w.cr.status, f, FieldValue(f, w0))))
    case SyncSecret =>
      if SightText(SecretHost, w0) == SightText(RdsEndpoint, w0) then w
      else SetBody(w, ItemKey(DbSecret, j), GetRdsSecret(j, SightText(RdsEndpoint, w0), j.name, d).body)
    case SyncChangelog =>
      if ItemKey(ChangelogMap, j) in w0.store && SightText(ChangelogData, w0) == SightText(Changelog, w0) then w
      else SetBody(w, ItemKey(ChangelogMap, j), ConfigMapBody(SightText(Changelog, w0)))
    case RenderManifest => w.(files := w.files[ManifestPath(j) := GetApplicationSet(j)])
    case ApplyManifest =>
      var k := ItemKey(AppSet, j);
      w.(store := w.store[k := GetApplicationSet(j).(live := if k in w.store then w.store[k].live else FRESH)])
    case _ => w
  }

  /** The world after the first n instructions of the plan. */
  function After(w0: World, n: nat, d: nat -> Draw): World
  {
    if n == 0 then w0 else Effect(At(w0.cr.spec, n - 1), w0, After(w0, n - 1, d), d(n - 1))
  }

  // ---- what the effects leave alone --------------------------------------------------------

  lemma EffectKeepsIdentity(i: Instr, w0: World, w: World, d: Draw)
    ensures var w' := Effect(i, w0, w, d);
            && SameIdentity(w'.cr, w.cr) && w'.cr.spec == w.cr.spec
            && w'.changelog == w.changelog && w'.app == w.app
  {
    hide Build, FieldValue, SightText, Set, ItemKey, GetApplicationSet, GetRdsSecret, ManifestPath, View;
  }

  lemma {:induction false} AfterKeepsIdentity(w0: World, n: nat, d: nat -> Draw)
    ensures var w := After(w0, n, d);
            && SameIdentity(w.cr, w0.cr) && w.cr.spec == w0.cr.spec
            && w.changelog == w0.changelog && w.app == w0.app
  {
    hide Effect, At;
    if n > 0 {
      AfterKeepsIdentity(w0, n - 1, d);
      EffectKeepsIdentity(At(w0.cr.spec, n - 1), w0, After(w0, n - 1, d), d(n - 1));
    }
  }

  /** An existing object keeps its live part, and its content unless it is of an updated kind. */
  ghost predicate Kept(w: World, w': World)
  {
    forall k | k in w.store ::
      k in w'.store && w'.store[k].live == w.store[k].live && (!Updated(k.kind) ==> w'.store[k] == w.store[k])
  }

  lemma AddKeeps(w: World, o: Obj)
    ensures Kept(w, AddObject(w, o))
  {
  }

  lemma SetBodyKeeps(w: World, k: Key, body: Body)
    requires Updated(k.kind)
    ensures Kept(w, SetBody(w, k, body))
  {
  }

  lemma EffectKeeps(i: Instr, w0: World, w: World, d: Draw)
    ensures Kept(w, Effect(i, w0, w, d))
  {
    hide Build, FieldValue, SightText, Set, GetApplicationSet, GetRdsSecret, ManifestPath, View, Accept;
    hide AddObject, SetBody;
    match i
    case Create(item) => AddKeeps(w, Build(item, View(w0), d));
    case SyncSecret =>
      SetBodyKeeps(w, ItemKey(DbSecret, w0.cr), GetRdsSecret(w0.cr, SightText(RdsEndpoint, w0), w0.cr.name, d).body);
    case SyncChangelog => SetBodyKeeps(w, ItemKey(ChangelogMap, w0.cr), ConfigMapBody(SightText(Changelog, w0)));
    case ApplyManifest => assert ItemKey(AppSet, w0.cr).kind == ApplicationSet;
    case _ =>
  }

  lemma {:induction false} AfterKeeps(w0: World, a: nat, n: nat, d: nat -> Draw)
    requires a <= n
    ensures Kept(After(w0, a, d), After(w0, n, d))
  {
    hide Effect, At;
    if a < n {
      AfterKeeps(w0, a, n - 1, d);
      EffectKeeps(At(w0.cr.spec, n - 1), w0, After(w0, n - 1, d), d(n - 1));
    }
  }

  /** An object appears only as the product of an instruction that makes its key, with nothing live in it. */
  lemma EffectAdds(i: Instr, w0: World, w: World, d: Draw, k: Key)
    requires k !in w.store && k in Effect(i, w0, w, d).store
    ensures Makes(i).Some? && ItemKey(Makes(i).value, w0.cr) == k
    ensures Effect(i, w0, w, d).store[k] == Build(Makes(i).value, View(w0), d)
  {
    hide FieldValue, SightText, Set, ItemKey, GetRdsSecret, ManifestPath, View, Accept, GetApplicationSet;
    match i
    case Create(item) =>
      hide Build;
      BuildKey(item, View(w0), d);
    case ApplyManifest =>
      SetAsBuilt(View(w0), d);
      hide Build;
    case _ => hide Build;
  }

  lemma SetAsBuilt(p: Pass, d: Draw)
    ensures Build(AppSet, p, d) == GetApplicationSet(p.jira)
    ensures GetApplicationSet(p.jira).(live := FRESH) == GetApplicationSet(p.jira)
  {
    hide Template.Manifest;
  }

  lemma EffectMakes(i: Instr, w0: World, w: World, d: Draw)
    requires Makes(i).Some?
    ensures ItemKey(Makes(i).value, w0.cr) in Effect(i, w0, w, d).store
  {
    match i
    case Create(item) => BuildKey(item, View(w0), d);
    case ApplyManifest =>
    hide Build, View;
  }

  /** The instruction that made a new object. */
  lemma {:induction false} Maker(w0: World, n: nat, d: nat -> Draw, k: Key) returns (i: nat)
    requires n <= |Prog(w0.cr.spec)| && k !in w0.store && k in After(w0, n, d).store
    ensures i < n && MakesKey(Prog(w0.cr.spec)[i], k, w0.cr)
    ensures After(w0, n, d).store[k].live == FRESH
    ensures k !in After(w0, i, d).store && k in After(w0, i + 1, d).store
    ensures After(w0, i + 1, d).store[k] == Build(Makes(Prog(w0.cr.spec)[i]).value, View(w0), d(i))
  {
    hide Effect, Prog, Build, View, ItemKey;
    var u := After(w0, n - 1, d);
    var instr := At(w0.cr.spec, n - 1);
    if k in u.store {
      i := Maker(w0, n - 1, d, k);
      EffectKeeps(instr, w0, u, d(n - 1));
    } else {
      i := n - 1;
      EffectAdds(instr, w0, u, d(n - 1), k);
      BuildKey(Makes(instr).value, View(w0), d(n - 1));
    }
  }

  /** What has been made stays. */
  lemma MadeStays(w0: World, i: nat, n: nat, d: nat -> Draw)
    requires i < n <= |Prog(w0.cr.spec)| && Makes(Prog(w0.cr.spec)[i]).Some?
    ensures ItemKey(Makes(Prog(w0.cr.spec)[i]).value, w0.cr) in After(w0, n, d).store
  {
    hide Effect, Prog, ItemKey;
    EffectMakes(Prog(w0.cr.spec)[i], w0, After(w0, i, d), d(i));
    AfterKeeps(w0, i + 1, n, d);
  }

  /** The stored keys after n instructions: the old ones and those of the first n items of the plan. */
  lemma KeysAfter(w0: World, n: nat, d: nat -> Draw)
    requires n <= |Prog(w0.cr.spec)|
    ensures forall k :: k in After(w0, n, d).store <==>
                          k in w0.store || exists i: nat :: i < n && MakesKey(Prog(w0.cr.spec)[i], k, w0.cr)
  {
    hide Effect, Prog, ItemKey;
    AfterKeeps(w0, 0, n, d);
    forall k
      ensures k in After(w0, n, d).store <==>
                k in w0.store || exists i: nat :: i < n && MakesKey(Prog(w0.cr.spec)[i], k, w0.cr)
    {
      if k in After(w0, n, d).store && k !in w0.store {
        var i := Maker(w0, n, d, k);
      }
      if i: nat :| i < n && MakesKey(Prog(w0.cr.spec)[i], k, w0.cr) {
        MadeStays(w0, i, n, d);
      }
    }
  }

  /** Opening more gates never yields fewer objects. */
  lemma Monotone(w: World, w': World, d: nat -> Draw, d': nat -> Draw)
    requires SameIdentity(w.cr, w'.cr) && w.cr.spec == w'.cr.spec && w.store.Keys <= w'.store.Keys
    requires forall k: nat | k < |Prog(w.cr.spec)| && Blocked(Prog(w.cr.spec)[k], w).None? ::
               Blocked(Prog(w.cr.spec)[k], w').None?
    ensures Stop(w) <= Stop(w')
    ensures After(w, Stop(w), d).store.Keys <= After(w', Stop(w'), d').store.Keys
  {
    hide Effect, Prog, Blocked;
    assert Stop(w) <= Stop(w');
    KeysAfter(w, Stop(w), d);
    KeysAfter(w', Stop(w'), d');
    forall k | k in After(w, Stop(w), d).store
      ensures k in After(w', Stop(w'), d').store
    {
      if k !in w.store {
        var i: nat :| i < Stop(w) && MakesKey(Prog(w.cr.spec)[i], k, w.cr);
        KeyDependsOnIdentity(Makes(Prog(w.cr.spec)[i]).value, w.cr, w'.cr);
        hide ItemKey;
        assert MakesKey(Prog(w'.cr.spec)[i], k, w'.cr);
      }
    }
  }
}
