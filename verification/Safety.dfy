/** What every run keeps while the spec stays fixed and nothing is deleted from outside: the created
    objects are a prefix of the plan, and nothing exists before the gates in front of it were seen open. */
module Safety {
  import opened Api
  import opened Builders
  import opened Plan
  import opened Machine
  import Template

  /** The environment assumption: no spec edit, no deletion, no foreign volume under one of the plan's names. */
  predicate Benign(e: Event, j: Jira)
  {
    match e
    case Env(EditSpec(_)) => false
    case Env(Delete(_)) => false
    case Env(Provision(name, _)) =>
      Key(PersistentVolume, "", name) != ItemKey(NfsPv, j) && Key(PersistentVolume, "", name) != ItemKey(SharedNfsPv, j)
    case _ => true
  }

  ghost predicate AllBenign(es: seq<Event>, j: Jira)
  {
    forall e | e in es :: Benign(e, j)
  }

  ghost predicate MakesKey(i: Instr, k: Key, j: Jira)
  {
    Makes(i).Some? && ItemKey(Makes(i).value, j) == k
  }

  ghost predicate PlanKey(k: Key, j: Jira)
  {
    exists n: nat :: n < |Prog(j.spec)| && MakesKey(Prog(j.spec)[n], k, j)
  }

  ghost predicate Done(i: Instr, m: M, j: Jira)
  {
    && (Makes(i).Some? ==> ItemKey(Makes(i).value, j) in m.births)
    && (i.Wait? ==> i.gate in m.seen)
  }

  /** The first n instructions of the plan have had their lasting effect. */
  ghost predicate Upto(m: M, j: Jira, n: nat)
  {
    forall k: nat | k < n && k < |Prog(j.spec)| :: Done(Prog(j.spec)[k], m, j)
  }

  ghost predicate InPass(m: M, j: Jira)
  {
    m.ctl.Running? ==>
      && SameIdentity(m.ctl.p.jira, j) && m.ctl.p.jira.spec == j.spec
      && m.ctl.pos < |Prog(j.spec)|
      && Upto(m, j, m.ctl.pos)
  }

  ghost predicate Ordered(m: M, j: Jira)
  {
    forall n: nat | n < |Prog(j.spec)| && Makes(Prog(j.spec)[n]).Some? && Done(Prog(j.spec)[n], m, j) ::
      Upto(m, j, n)
  }

  ghost predicate BirthFits(b: Birth, k: Key, j: Jira)
  {
    && ItemKey(b.item, j) == k && BelongsTo(b.item, BackendOf(j.spec))
    && SameIdentity(b.p.jira, j) && b.p.jira.spec == j.spec
  }

  ghost predicate Accounted(m: M, j: Jira)
  {
    && (forall k | k in m.births :: PlanKey(k, j) && k in m.w.store && BirthFits(m.births[k], k, j))
    && (forall k | PlanKey(k, j) && k in m.w.store :: k in m.births)
    && (forall path | path in m.w.files :: m.w.files[path] == GetApplicationSet(j))
  }

  ghost predicate Inv(m: M, j: Jira)
  {
    && SameIdentity(m.w.cr, j) && m.w.cr.spec == j.spec
    && InPass(m, j) && Ordered(m, j) && Accounted(m, j)
  }

  /** Nothing of the plan exists yet. */
  ghost predicate Clean(m: M, j: Jira)
  {
    Initial(m) && m.w.cr == j && forall k | PlanKey(k, j) :: k !in m.w.store
  }

  /** History only grows, so what was done stays done. */
  lemma UptoGrows(m: M, m': M, j: Jira, n: nat)
    requires Upto(m, j, n) && m.births.Keys <= m'.births.Keys && m.seen <= m'.seen
    ensures Upto(m', j, n)
  {
    forall k: nat | k < n && k < |Prog(j.spec)|
      ensures Done(Prog(j.spec)[k], m', j)
    {
      assert Done(Prog(j.spec)[k], m, j);
    }
  }

  /** Steps that create nothing. */
  lemma QuietStep(m: M, m': M, j: Jira)
    requires Inv(m, j)
    requires SameIdentity(m'.w.cr, j) && m'.w.cr.spec == j.spec
    requires m'.births == m.births && m.seen <= m'.seen
    requires InPass(m', j) && Accounted(m', j)
    ensures Inv(m', j)
  {
    forall n: nat | n < |Prog(j.spec)| && Makes(Prog(j.spec)[n]).Some? && Done(Prog(j.spec)[n], m', j)
      ensures Upto(m', j, n)
    {
      assert Done(Prog(j.spec)[n], m, j);
      UptoGrows(m, m', j, n);
    }
  }

  /** One more instruction done. */
  lemma UptoNext(m: M, m': M, j: Jira, pos: nat)
    requires Upto(m, j, pos) && m.births.Keys <= m'.births.Keys && m.seen <= m'.seen
    requires pos < |Prog(j.spec)| && Done(Prog(j.spec)[pos], m', j)
    ensures Upto(m', j, pos + 1)
  {
    UptoGrows(m, m', j, pos);
  }

  /** Distinct instructions make distinct keys. */
  lemma OneMaker(j: Jira, a: nat, b: nat, k: Key)
    requires a < |Prog(j.spec)| && b < |Prog(j.spec)|
    requires MakesKey(Prog(j.spec)[a], k, j) && MakesKey(Prog(j.spec)[b], k, j)
    ensures Prog(j.spec)[a] == Prog(j.spec)[b]
  {
    hide Prog, ItemKey, BelongsTo;
    ItemsFit(j.spec, a);
    ItemsFit(j.spec, b);
    KeysDistinct(Makes(Prog(j.spec)[a]).value, Makes(Prog(j.spec)[b]).value, j, BackendOf(j.spec));
  }

  /** An object of the plan appears while the pass stands at its maker. */
  lemma BirthStep(m: M, m': M, j: Jira, item: Item, b: Birth)
    requires Inv(m, j) && m.ctl.Running? && Makes(Prog(j.spec)[m.ctl.pos]) == Some(item)
    requires ItemKey(item, j) !in m.w.store && BirthFits(b, ItemKey(item, j), j)
    requires m'.births == m.births[ItemKey(item, j) := b] && m'.seen == m.seen && m'.w.cr == m.w.cr
    requires m'.w.files == m.w.files && m'.w.store.Keys == m.w.store.Keys + {ItemKey(item, j)}
    requires InPass(m', j)
    ensures Inv(m', j)
  {
    var key := ItemKey(item, j);
    assert MakesKey(Prog(j.spec)[m.ctl.pos], key, j);
    forall n: nat | n < |Prog(j.spec)| && Makes(Prog(j.spec)[n]).Some? && Done(Prog(j.spec)[n], m', j)
      ensures Upto(m', j, n)
    {
      if ItemKey(Makes(Prog(j.spec)[n]).value, j) == key {
        OneMaker(j, n, m.ctl.pos, key);
        ProgDistinct(j.spec, n, m.ctl.pos);
      } else {
        assert Done(Prog(j.spec)[n], m, j);
      }
      UptoGrows(m, m', j, n);
    }
  }

  lemma StepKeepsInv(m: M, e: Event, j: Jira)
    requires Inv(m, j) && Benign(e, j)
    ensures Inv(Step(m, e), j)
  {
    hide Prog, ItemKey, Exec, Act, PublishAt, Ordered, Accounted, Upto;
    match e
    case Begin(f) => BeginKeepsInv(m, f, j);
    case Crash => CrashKeepsInv(m, j);
    case Env(a) => ActKeepsInv(m, a, j);
    case Call(f, d) => if m.ctl.Running? { ExecKeepsInv(m, f, d, j); }
  }

  lemma BeginKeepsInv(m: M, f: Fault, j: Jira)
    requires Inv(m, j)
    ensures Inv(Step(m, Begin(f)), j)
  {
    hide Prog, ItemKey, Exec, Act, PublishAt;
    ProgLength(j.spec);
    QuietStep(m, Step(m, Begin(f)), j);
  }

  lemma CrashKeepsInv(m: M, j: Jira)
    requires Inv(m, j)
    ensures Inv(Step(m, Crash), j)
  {
    hide Prog, ItemKey, Exec, Act;
    QuietStep(m, Step(m, Crash), j);
  }

  lemma ActKeepsInv(m: M, a: Action, j: Jira)
    requires Inv(m, j) && Benign(Env(a), j)
    ensures Inv(Act(m, a), j)
  {
    hide Prog, ItemKey, GetApplicationSet, BirthFits, Ordered;
    var m' := Act(m, a);
    if a.Provision? {
      ProvisionedIsForeign(a.name, j);
    }
    QuietStep(m, m', j);
  }

  lemma ProvisionedIsForeign(name: string, j: Jira)
    requires Key(PersistentVolume, "", name) != ItemKey(NfsPv, j)
    requires Key(PersistentVolume, "", name) != ItemKey(SharedNfsPv, j)
    ensures !PlanKey(Key(PersistentVolume, "", name), j)
  {
    hide Prog;
  }

  /** What an instruction that creates nothing may change. */
  ghost predicate Quiet(m: M, m': M, pos: nat, p: Pass)
  {
    && m'.births == m.births && m.seen <= m'.seen
    && m'.w.store.Keys == m.w.store.Keys
    && SameIdentity(m'.w.cr, m.w.cr) && m'.w.cr.spec == m.w.cr.spec
    && (m'.ctl.Running? ==> m'.ctl.pos == pos + 1 && (m'.ctl.p.jira == p.jira || m'.ctl.p.jira == m'.w.cr))
  }

  lemma ReadIsQuiet(m: M, pos: nat, p: Pass, q: Query, f: Fault)
    ensures Quiet(m, DoRead(m, pos, p, q, f), pos, p) && DoRead(m, pos, p, q, f).w == m.w
  {
    hide Peek;
  }

  lemma WaitIsQuiet(m: M, pos: nat, p: Pass, g: Gate)
    ensures var m' := DoWait(m, pos, p, g);
            Quiet(m, m', pos, p) && m'.w == m.w && (m'.ctl.Running? ==> g in m'.seen)
  {
    hide Judge;
  }

  lemma WriteIsQuiet(m: M, pos: nat, p: Pass, fld: Field, f: Fault)
    ensures var m' := DoWrite(m, pos, p, fld, f);
            Quiet(m, m', pos, p) && m'.w.files == m.w.files && m'.w.store == m.w.store
  {
    hide Get, Set, ValueOf, FailAfter;
  }

  lemma UpdateIsQuiet(m: M, pos: nat, p: Pass, i: Instr, o: Obj, f: Fault)
    ensures var m' := DoUpdate(m, pos, p, i, o, f);
            Quiet(m, m', pos, p) && m'.w.files == m.w.files && m'.w.cr == m.w.cr
  {
    hide FailAfter;
  }

  lemma SyncIsQuiet(m: M, pos: nat, p: Pass, f: Fault, d: Draw)
    ensures var m' := DoSyncSecret(m, pos, p, f, d); Quiet(m, m', pos, p) && m'.w.files == m.w.files
    ensures var m' := DoSyncChangelog(m, pos, p, f); Quiet(m, m', pos, p) && m'.w.files == m.w.files
  {
    hide FailAfter, TextOf, DoUpdate;
    UpdateIsQuiet(m, pos, p, SyncSecret, GetRdsSecret(p.jira, TextOf(p, RdsEndpoint), p.jira.name, d), f);
    UpdateIsQuiet(m, pos, p, SyncChangelog, GetLiquibaseConfigMap(p.jira, p.jira.name, TextOf(p, Changelog)), f);
  }

  lemma ExecQuiet(m: M, pos: nat, p: Pass, f: Fault, d: Draw)
    ensures var i := At(p.jira.spec, pos);
            var m' := Exec(m, pos, p, f, d);
            && (Makes(i).None? ==> Quiet(m, m', pos, p))
            && (Makes(i).None? && i != RenderManifest ==> m'.w.files == m.w.files)
            && (i.Wait? && m'.ctl.Running? ==> i.gate in m'.seen)
            && (i.Finish? ==> m'.ctl.Idle?)
  {
    hide At, Build, FailAfter, DoCreate, DoRead, DoWait, DoWrite, DoSyncSecret, DoSyncChangelog, DoApply, GetApplicationSet;
    match At(p.jira.spec, pos)
    case Create(_) =>
    case Read(q) => ReadIsQuiet(m, pos, p, q, f);
    case Wait(g) => WaitIsQuiet(m, pos, p, g);
    case Write(fld) => WriteIsQuiet(m, pos, p, fld, f);
    case SyncSecret => SyncIsQuiet(m, pos, p, f, d);
    case SyncChangelog => SyncIsQuiet(m, pos, p, f, d);
    case RenderManifest =>
    case ApplyManifest =>
    case Finish =>
  }

  lemma ExecKeepsInv(m: M, f: Fault, d: Draw, j: Jira)
    requires Inv(m, j) && m.ctl.Running?
    ensures Inv(Exec(m, m.ctl.pos, m.ctl.p, f, d), j)
  {
    hide Prog, ItemKey, Build, Exec;
    var pos, p := m.ctl.pos, m.ctl.p;
    var i := Prog(j.spec)[pos];
    var m' := Exec(m, pos, p, f, d);
    assert At(p.jira.spec, pos) == i;
    ExecQuiet(m, pos, p, f, d);
    FinishIsLast(j.spec, pos);
    if Makes(i).Some? {
      MakerKeepsInv(m, f, d, j);
    } else {
      if m'.ctl.Running? {
        UptoNext(m, m', j, pos);
      }
      FilesKept(m, f, d, j);
      QuietStep(m, m', j);
    }
  }

  lemma FilesKept(m: M, f: Fault, d: Draw, j: Jira)
    requires Inv(m, j) && m.ctl.Running? && Makes(Prog(j.spec)[m.ctl.pos]).None?
    ensures var m' := Exec(m, m.ctl.pos, m.ctl.p, f, d);
            forall path | path in m'.w.files :: m'.w.files[path] == GetApplicationSet(j)
  {
    hide Prog, ItemKey, Build, GetApplicationSet;
    var pos, p := m.ctl.pos, m.ctl.p;
    assert At(p.jira.spec, pos) == Prog(j.spec)[pos];
    SameApplicationSet(p.jira, j);
    if At(p.jira.spec, pos) == RenderManifest {
      assert Exec(m, pos, p, f, d) == DoRender(m, pos, p, f);
    } else {
      hide Exec;
      ExecQuiet(m, pos, p, f, d);
    }
  }

  lemma AppSetKey(j: Jira)
    ensures GetApplicationSet(j).key == ItemKey(AppSet, j)
  {
    hide Template.Manifest;
  }

  lemma SameApplicationSet(a: Jira, b: Jira)
    requires SameIdentity(a, b) && a.spec == b.spec
    ensures GetApplicationSet(a) == GetApplicationSet(b)
  {
  }

  /** What an instruction that creates an item may change. */
  ghost predicate MayBear(m: M, m': M, pos: nat, p: Pass, item: Item, d: Draw)
  {
    var key := ItemKey(item, p.jira);
    && m'.seen == m.seen && m'.w.cr == m.w.cr && m'.w.files == m.w.files
    && (m'.ctl.Running? ==> m'.ctl.pos == pos + 1 && m'.ctl.p.jira == p.jira && key in m'.w.store)
    && (|| (m'.births == m.births && m'.w.store.Keys == m.w.store.Keys)
        || (key !in m.w.store && m'.births == m.births[key := Birth(item, p, d)]
            && m'.w.store.Keys == m.w.store.Keys + {key}))
  }

  lemma CreateMayBear(m: M, pos: nat, p: Pass, item: Item, f: Fault, d: Draw)
    ensures MayBear(m, DoCreate(m, pos, p, item, f, d), pos, p, item, d)
  {
    BuildKey(item, p, d);
    hide Build, ItemKey, FailAfter;
  }

  lemma ApplyMayBear(m: M, pos: nat, p: Pass, f: Fault, d: Draw)
    requires ManifestPath(p.jira) in m.w.files ==> m.w.files[ManifestPath(p.jira)] == GetApplicationSet(p.jira)
    ensures MayBear(m, DoApply(m, pos, p, f, d), pos, p, AppSet, d)
  {
    hide ItemKey, FailAfter, GetApplicationSet, ManifestPath;
    AppSetKey(p.jira);
  }

  lemma MakerKeepsInv(m: M, f: Fault, d: Draw, j: Jira)
    requires Inv(m, j) && m.ctl.Running? && Makes(Prog(j.spec)[m.ctl.pos]).Some?
    requires m.ctl.pos + 1 < |Prog(j.spec)|
    ensures Inv(Exec(m, m.ctl.pos, m.ctl.p, f, d), j)
  {
    hide Prog, ItemKey, Build, DoCreate, DoApply, GetApplicationSet;
    var pos, p := m.ctl.pos, m.ctl.p;
    var item := Makes(Prog(j.spec)[pos]).value;
    var m' := Exec(m, pos, p, f, d);
    assert At(p.jira.spec, pos) == Prog(j.spec)[pos];
    if Prog(j.spec)[pos].Create? {
      assert m' == DoCreate(m, pos, p, item, f, d);
      CreateMayBear(m, pos, p, item, f, d);
    } else {
      assert m' == DoApply(m, pos, p, f, d);
      SameApplicationSet(p.jira, j);
      ApplyMayBear(m, pos, p, f, d);
    }
    BearingKeepsInv(m, m', item, d, j);
  }

  lemma BearingKeepsInv(m: M, m': M, item: Item, d: Draw, j: Jira)
    requires Inv(m, j) && m.ctl.Running? && Makes(Prog(j.spec)[m.ctl.pos]) == Some(item)
    requires m.ctl.pos + 1 < |Prog(j.spec)|
    requires MayBear(m, m', m.ctl.pos, m.ctl.p, item, d)
    ensures Inv(m', j)
  {
    hide Prog;
    var pos, p := m.ctl.pos, m.ctl.p;
    KeyDependsOnIdentity(item, p.jira, j);
    hide ItemKey, GetApplicationSet;
    var key := ItemKey(item, j);
    assert MakesKey(Prog(j.spec)[pos], key, j);
    assert PlanKey(key, j);
    if m'.ctl.Running? {
      UptoNext(m, m', j, pos);
    }
    if m'.births == m.births && m'.w.store.Keys == m.w.store.Keys {
      QuietStep(m, m', j);
    } else {
      ItemsFit(j.spec, pos);
      BirthStep(m, m', j, item, Birth(item, p, d));
    }
  }

  lemma {:induction false} RunKeepsInv(m: M, es: seq<Event>, j: Jira)
    requires Inv(m, j) && AllBenign(es, j)
    ensures Inv(Run(m, es), j)
  {
    if es != [] {
      var init := es[..|es| - 1];
      assert forall e | e in init :: e in es;
      RunKeepsInv(m, init, j);
      assert es[|es| - 1] in es;
      StepKeepsInv(Run(m, init), es[|es| - 1], j);
    }
  }

  lemma CleanIsInv(m: M, j: Jira)
    requires Clean(m, j)
    ensures Inv(m, j)
  {
  }
}
