/** What every run keeps, whatever the users and providers do: each pass works on one version of the
    resource, a stale pass never writes the status, and created objects are never altered. */
module Frame {
  import opened Api
  import opened Builders
  import opened Plan
  import opened Machine
  import Template

  // ---- versions ------------------------------------------------------------------------

  /** specs records the spec of every version so far. A running pass holds one of them, and as long as
      the version is current its copy is the stored resource. */
  ghost predicate Versioned(m: M)
  {
    && m.w.cr.version in m.specs && m.specs[m.w.cr.version] == m.w.cr.spec
    && (forall v | v in m.specs :: v <= m.w.cr.version)
    && (m.ctl.Running? ==>
          var a := m.ctl.p.jira;
          && SameIdentity(a, m.w.cr)
          && a.version in m.specs && m.specs[a.version] == a.spec
          && (a.version == m.w.cr.version ==> a == m.w.cr))
  }

  /** What one call may do to the resource, its history and the local copy of it. */
  ghost predicate Orderly(m: M, m': M, p: Pass)
  {
    || (m'.w.cr == m.w.cr && m'.specs == m.specs && (m'.ctl.Running? ==> m'.ctl.p.jira == p.jira))
    || (&& p.jira.version == m.w.cr.version
        && m'.w.cr.spec == m.w.cr.spec && SameIdentity(m'.w.cr, m.w.cr)
        && (m'.w.cr == m.w.cr || m'.w.cr.version == m.w.cr.version + 1)
        && m'.specs == m.specs[m'.w.cr.version := m'.w.cr.spec]
        && (m'.ctl.Running? ==> m'.ctl.p.jira == m'.w.cr))
  }

  lemma CallIsOrderly(m: M, pos: nat, p: Pass, f: Fault, d: Draw)
    ensures Orderly(m, Exec(m, pos, p, f, d), p)
  {
    hide At, Build, FailAfter, DoRead, DoUpdate, GetApplicationSet, ManifestPath, Get, Set, ValueOf, TextOf, Judge;
    hide DoCreate, DoWait, DoWrite, DoSyncSecret, DoSyncChangelog, DoApply;
    match At(p.jira.spec, pos)
    case Create(item) => CreateIsOrderly(m, pos, p, item, f, d);
    case Read(q) => ReadIsOrderly(m, pos, p, q, f);
    case Wait(g) => WaitIsOrderly(m, pos, p, g);
    case Write(fld) => WriteIsOrderly(m, pos, p, fld, f);
    case SyncSecret => SyncIsOrderly(m, pos, p, f, d);
    case SyncChangelog => SyncIsOrderly(m, pos, p, f, d);
    case RenderManifest =>
    case ApplyManifest => ApplyIsOrderly(m, pos, p, f, d);
    case Finish =>
  }

  lemma CreateIsOrderly(m: M, pos: nat, p: Pass, item: Item, f: Fault, d: Draw)
    ensures Orderly(m, DoCreate(m, pos, p, item, f, d), p)
  {
    hide Build, FailAfter;
  }

  lemma ReadIsOrderly(m: M, pos: nat, p: Pass, q: Query, f: Fault)
    ensures Orderly(m, DoRead(m, pos, p, q, f), p)
  {
    hide Peek, FailAfter;
  }

  lemma WaitIsOrderly(m: M, pos: nat, p: Pass, g: Gate)
    ensures Orderly(m, DoWait(m, pos, p, g), p)
  {
    hide Judge;
  }

  lemma WriteIsOrderly(m: M, pos: nat, p: Pass, fld: Field, f: Fault)
    ensures Orderly(m, DoWrite(m, pos, p, fld, f), p)
  {
    hide Get, Set, ValueOf, FailAfter;
  }

  lemma SyncIsOrderly(m: M, pos: nat, p: Pass, f: Fault, d: Draw)
    ensures Orderly(m, DoSyncSecret(m, pos, p, f, d), p)
    ensures Orderly(m, DoSyncChangelog(m, pos, p, f), p)
  {
    hide TextOf, FailAfter, GetRdsSecret;
  }

  lemma ApplyIsOrderly(m: M, pos: nat, p: Pass, f: Fault, d: Draw)
    ensures Orderly(m, DoApply(m, pos, p, f, d), p)
  {
    hide FailAfter, ManifestPath;
  }

  lemma HeldVersion(m: M)
    requires Versioned(m) && m.ctl.Running?
    ensures SameIdentity(m.ctl.p.jira, m.w.cr)
    ensures m.ctl.p.jira.version == m.w.cr.version ==> m.ctl.p.jira == m.w.cr
  {
  }

  lemma StepKeepsVersioned(m: M, e: Event)
    requires Versioned(m)
    ensures Versioned(Step(m, e))
  {
    hide Exec;
    if e.Call? && m.ctl.Running? {
      CallIsOrderly(m, m.ctl.pos, m.ctl.p, e.f, e.d);
    }
  }

  lemma {:induction false} RunKeepsVersioned(m: M, es: seq<Event>)
    requires Versioned(m)
    ensures Versioned(Run(m, es))
  {
    if es != [] {
      RunKeepsVersioned(m, es[..|es| - 1]);
      StepKeepsVersioned(Run(m, es[..|es| - 1]), es[|es| - 1]);
    }
  }

  /** No pass begins or ends within es. */
  ghost predicate WithinOnePass(m: M, es: seq<Event>)
  {
    forall n | 0 <= n <= |es| :: Run(m, es[..n]).ctl.Running?
  }

  lemma WithinPrefix(m: M, es: seq<Event>)
    requires es != [] && WithinOnePass(m, es)
    ensures WithinOnePass(m, es[..|es| - 1])
    ensures Run(m, es).ctl.Running?
  {
    var init := es[..|es| - 1];
    forall n | 0 <= n <= |init|
      ensures Run(m, init[..n]).ctl.Running?
    {
      assert init[..n] == es[..n];
    }
    assert es[..|es|] == es;
  }

  /** All objects built in one pass are built from one version of the spec, whatever is edited meanwhile
      and however many status updates the pass performs. */
  lemma {:induction false} OneSpecPerPass(m: M, es: seq<Event>)
    requires Versioned(m) && WithinOnePass(m, es)
    ensures Run(m, es).ctl.Running? && m.ctl.Running?
    ensures Run(m, es).ctl.p.jira.spec == m.ctl.p.jira.spec
  {
    hide Exec, Act;
    if es == [] {
      assert es[..0] == [];
      assert Run(m, es[..0]) == m;
    } else {
      var init, e := es[..|es| - 1], es[|es| - 1];
      WithinPrefix(m, es);
      OneSpecPerPass(m, init);
      RunKeepsVersioned(m, init);
      var u := Run(m, init);
      SpecKeptByStep(u, e);
    }
  }

  lemma SpecKeptByStep(u: M, e: Event)
    requires Versioned(u) && u.ctl.Running? && Step(u, e).ctl.Running?
    ensures Step(u, e).ctl.p.jira.spec == u.ctl.p.jira.spec
  {
    hide Exec;
    if e.Call? {
      CallIsOrderly(u, u.ctl.pos, u.ctl.p, e.f, e.d);
    }
  }

  /** The resource as edited by the environment alone. */
  ghost function Edits(cr: Jira, es: seq<Event>): Jira
  {
    if es == [] then cr
    else
      var before := Edits(cr, es[..|es| - 1]);
      match es[|es| - 1]
      case Env(EditSpec(s)) => before.(spec := s, version := before.version + 1)
      case Env(Touch) => before.(version := before.version + 1)
      case _ => before
  }

  /** Once the resource was edited after the pass last read or wrote it, nothing the pass does changes it
      any more: no status update overwrites a concurrent edit. */
  lemma {:induction false} StalePassNeverWrites(m: M, es: seq<Event>)
    requires Versioned(m) && m.ctl.Running? && m.ctl.p.jira.version < m.w.cr.version
    requires forall e | e in es :: !e.Begin?
    ensures Run(m, es).w.cr == Edits(m.w.cr, es)
    ensures Run(m, es).w.cr.version >= m.w.cr.version
    ensures Run(m, es).ctl.Running? ==> Run(m, es).ctl.p.jira == m.ctl.p.jira
  {
    hide Exec;
    if es != [] {
      var init, e := es[..|es| - 1], es[|es| - 1];
      assert forall x | x in init :: x in es;
      assert e in es;
      StalePassNeverWrites(m, init);
      var u := Run(m, init);
      if e.Call? && u.ctl.Running? {
        CallIsOrderly(u, u.ctl.pos, u.ctl.p, e.f, e.d);
      }
    }
  }

  /** A status update of a stale pass is a conflict: it ends the pass with an error. */
  lemma StaleWriteConflicts(m: M, pos: nat, p: Pass, fld: Field, f: Fault, d: Draw)
    requires At(p.jira.spec, pos) == Write(fld) && p.jira.version != m.w.cr.version
    requires Unconditional(fld) || Get(p.jira.status, fld) != ValueOf(fld, p)
    ensures Exec(m, pos, p, f, d) == m.(ctl := Idle(Returned(FailAfter(Write(fld)), true)))
    ensures FailAfter(Write(fld)) > 0
  {
    hide At, Get, ValueOf, Set;
  }

  // ---- wake-ups ------------------------------------------------------------------------

  /** The controller runs another pass after an error, after a positive delay, and after a restart. */
  predicate RunsAgain(x: Exit)
  {
    match x
    case NeverRan => true
    case Returned(after, err) => err || after > 0
    case Panicked => true
    case Crashed => true
  }

  ghost predicate Pending(m: M)
  {
    m.ctl.Idle? ==> RunsAgain(m.ctl.last)
  }

  lemma CallEndsPending(m: M, pos: nat, p: Pass, f: Fault, d: Draw)
    ensures Pending(Exec(m, pos, p, f, d))
  {
    hide At, Build, FailAfter, Peek, GetApplicationSet, ManifestPath, Get, Set, ValueOf, TextOf, Judge, GetRdsSecret;
  }

  /** One step loses the wake-up exactly when it is a pass whose read of the resource failed. */
  lemma WakeUpLostOnlyByFailedRead(m: M, e: Event)
    requires Pending(m)
    ensures Pending(Step(m, e)) <==> !(m.ctl.Idle? && e.Begin? && e.f != NoFault)
  {
    hide Exec;
    if e.Call? && m.ctl.Running? {
      CallEndsPending(m, m.ctl.pos, m.ctl.p, e.f, e.d);
    }
  }

  /** In every run in which the resource can be read, a pass is always pending or running. */
  lemma {:induction false} NoLostWakeUp(m: M, es: seq<Event>)
    requires Pending(m) && forall e | e in es :: e.Begin? ==> e.f == NoFault
    ensures Pending(Run(m, es))
  {
    hide Step;
    if es != [] {
      var init := es[..|es| - 1];
      assert forall e | e in init :: e in es;
      NoLostWakeUp(m, init);
      assert es[|es| - 1] in es;
      WakeUpLostOnlyByFailedRead(Run(m, init), es[|es| - 1]);
    }
  }

  // ---- the write-once frame --------------------------------------------------------------

  /** The kinds of object that the operator updates after creating them. */
  predicate Updated(k: Kind)
  {
    k == Secret || k == ConfigMap || k == ApplicationSet
  }

  /** Every object the operator created and does not update is what its builder made of the version of the
      resource that the creating pass held. */
  ghost predicate Intact(m: M)
  {
    && (forall k | k in m.births ::
          && k in m.w.store
          && SameIdentity(m.births[k].p.jira, m.w.cr)
          && m.births[k].p.jira.version in m.specs
          && m.specs[m.births[k].p.jira.version] == m.births[k].p.jira.spec
          && (!Updated(k.kind) ==>
                m.w.store[k].(live := FRESH) == Build(m.births[k].item, m.births[k].p, m.births[k].d)))
    && (forall path | path in m.w.files :: m.w.files[path].key.kind == ApplicationSet)
  }

  /** What one call may do to the stored objects. */
  ghost predicate Frugal(m: M, m': M, p: Pass)
  {
    && (forall k | k in m.w.store ::
          k in m'.w.store && (k in m'.births <==> k in m.births)
          && (k in m.births ==> m'.births[k] == m.births[k])
          && (!Updated(k.kind) ==> m'.w.store[k] == m.w.store[k]))
    && (forall k | k in m'.w.store && k !in m.w.store ::
          && k in m'.births && m'.births[k].p == p
          && (k.kind != ApplicationSet ==> m'.w.store[k] == Build(m'.births[k].item, p, m'.births[k].d)))
    && (forall k | k in m'.births :: k in m.births || k in m'.w.store)
    && (forall path | path in m'.w.files :: path in m.w.files || m'.w.files[path].key.kind == ApplicationSet)
    && (forall path | path in m.w.files && path in m'.w.files ::
          m'.w.files[path] == m.w.files[path] || m'.w.files[path].key.kind == ApplicationSet)
  }

  lemma CreateIsFrugal(m: M, pos: nat, p: Pass, item: Item, f: Fault, d: Draw)
    requires m.births.Keys <= m.w.store.Keys
    ensures Frugal(m, DoCreate(m, pos, p, item, f, d), p)
  {
    hide Build, FailAfter;
  }

  lemma UpdateIsFrugal(m: M, pos: nat, p: Pass, i: Instr, o: Obj, f: Fault)
    requires m.births.Keys <= m.w.store.Keys && Updated(o.key.kind)
    ensures Frugal(m, DoUpdate(m, pos, p, i, o, f), p)
  {
    hide FailAfter, Build, Updated;
  }

  lemma CounterIsFrugal(m: M, m': M, p: Pass, n: nat)
    requires Frugal(m, m', p)
    ensures Frugal(m, m'.(rewrites := n), p)
  {
    hide Build;
  }

  lemma SyncSecretIsFrugal(m: M, pos: nat, p: Pass, f: Fault, d: Draw)
    requires m.births.Keys <= m.w.store.Keys
    ensures Frugal(m, DoSyncSecret(m, pos, p, f, d), p)
  {
    hide FailAfter, TextOf, DoUpdate, Build, Frugal;
    var o := GetRdsSecret(p.jira, TextOf(p, RdsEndpoint), p.jira.name, d);
    UpdateIsFrugal(m, pos, p, SyncSecret, o, f);
    CounterIsFrugal(m, DoUpdate(m, pos, p, SyncSecret, o, f), p, m.rewrites + 1);
    SameStoreIsFrugal(m, Next(m, pos, p), p);
  }

  lemma SyncChangelogIsFrugal(m: M, pos: nat, p: Pass, f: Fault)
    requires m.births.Keys <= m.w.store.Keys
    ensures Frugal(m, DoSyncChangelog(m, pos, p, f), p)
  {
    hide FailAfter, TextOf, DoUpdate, Build, Frugal;
    UpdateIsFrugal(m, pos, p, SyncChangelog, GetLiquibaseConfigMap(p.jira, p.jira.name, TextOf(p, Changelog)), f);
    SameStoreIsFrugal(m, Next(m, pos, p), p);
  }

  lemma ApplyIsFrugal(m: M, pos: nat, p: Pass, f: Fault, d: Draw)
    requires m.births.Keys <= m.w.store.Keys
    requires forall path | path in m.w.files :: m.w.files[path].key.kind == ApplicationSet
    ensures Frugal(m, DoApply(m, pos, p, f, d), p)
  {
    hide FailAfter, ManifestPath, Build;
  }

  lemma RenderIsFrugal(m: M, pos: nat, p: Pass, f: Fault)
    requires m.births.Keys <= m.w.store.Keys
    ensures Frugal(m, DoRender(m, pos, p, f), p)
  {
    hide FailAfter, ManifestPath, Template.Manifest, Build;
  }

  lemma SameStoreIsFrugal(m: M, m': M, p: Pass)
    requires m.births.Keys <= m.w.store.Keys
    requires m'.w.store == m.w.store && m'.births == m.births && m'.w.files == m.w.files
    ensures Frugal(m, m', p)
  {
    hide Build;
  }

  lemma StatusStepsKeepStore(m: M, pos: nat, p: Pass, q: Query, g: Gate, fld: Field, f: Fault)
    ensures var m' := DoRead(m, pos, p, q, f); m'.w == m.w && m'.births == m.births
    ensures var m' := DoWait(m, pos, p, g); m'.w == m.w && m'.births == m.births
    ensures var m' := DoWrite(m, pos, p, fld, f);
            m'.w.store == m.w.store && m'.births == m.births && m'.w.files == m.w.files
  {
    hide Peek, Judge, Get, Set, ValueOf, FailAfter;
  }

  lemma CallIsFrugal(m: M, pos: nat, p: Pass, f: Fault, d: Draw)
    requires m.births.Keys <= m.w.store.Keys
    requires forall path | path in m.w.files :: m.w.files[path].key.kind == ApplicationSet
    ensures Frugal(m, Exec(m, pos, p, f, d), p)
    ensures forall k | k in m.w.store && k.kind != Secret && k.kind != ConfigMap && k.kind != ApplicationSet ::
              k in Exec(m, pos, p, f, d).w.store && Exec(m, pos, p, f, d).w.store[k] == m.w.store[k]
  {
    hide Exec, Frugal;
    EachIsFrugal(m, pos, p, f, d);
    FrugalMeans(m, Exec(m, pos, p, f, d), p);
  }

  lemma FrugalMeans(m: M, m': M, p: Pass)
    requires Frugal(m, m', p)
    ensures forall k | k in m.w.store && k.kind != Secret && k.kind != ConfigMap && k.kind != ApplicationSet ::
              k in m'.w.store && m'.w.store[k] == m.w.store[k]
  {
    hide Build;
  }

  lemma EachIsFrugal(m: M, pos: nat, p: Pass, f: Fault, d: Draw)
    requires m.births.Keys <= m.w.store.Keys
    requires forall path | path in m.w.files :: m.w.files[path].key.kind == ApplicationSet
    ensures Frugal(m, Exec(m, pos, p, f, d), p)
  {
    hide At, Build, FailAfter, Frugal, GetApplicationSet;
    hide DoCreate, DoRead, DoWait, DoWrite, DoSyncSecret, DoSyncChangelog, DoRender, DoApply;
    var m' := Exec(m, pos, p, f, d);
    match At(p.jira.spec, pos)
    case Create(item) => CreateIsFrugal(m, pos, p, item, f, d);
    case Read(q) => StatusStepsKeepStore(m, pos, p, q, RdsAvailable, SyncField, f); SameStoreIsFrugal(m, m', p);
    case Wait(g) => StatusStepsKeepStore(m, pos, p, Changelog, g, SyncField, f); SameStoreIsFrugal(m, m', p);
    case Write(fld) => StatusStepsKeepStore(m, pos, p, Changelog, RdsAvailable, fld, f); SameStoreIsFrugal(m, m', p);
    case SyncSecret => SyncSecretIsFrugal(m, pos, p, f, d);
    case SyncChangelog => SyncChangelogIsFrugal(m, pos, p, f);
    case RenderManifest => RenderIsFrugal(m, pos, p, f);
    case ApplyManifest => ApplyIsFrugal(m, pos, p, f, d);
    case Finish => SameStoreIsFrugal(m, m', p);
  }

  /** No call changes the changelog file or the application. */
  lemma StatusKeepsOutside(m: M, pos: nat, p: Pass, q: Query, g: Gate, fld: Field, f: Fault)
    ensures DoRead(m, pos, p, q, f).w == m.w && DoWait(m, pos, p, g).w == m.w
    ensures var w' := DoWrite(m, pos, p, fld, f).w; w'.changelog == m.w.changelog && w'.app == m.w.app
  {
    hide FailAfter, Peek, Judge, Get, Set, ValueOf, WaitAfter;
  }

  lemma CreateKeepsOutside(m: M, pos: nat, p: Pass, item: Item, f: Fault, d: Draw)
    ensures var w' := DoCreate(m, pos, p, item, f, d).w; w'.changelog == m.w.changelog && w'.app == m.w.app
  {
    hide Build, FailAfter;
  }

  lemma SyncKeepsOutside(m: M, pos: nat, p: Pass, f: Fault, d: Draw)
    ensures var w' := DoSyncSecret(m, pos, p, f, d).w; w'.changelog == m.w.changelog && w'.app == m.w.app
    ensures var w' := DoSyncChangelog(m, pos, p, f).w; w'.changelog == m.w.changelog && w'.app == m.w.app
  {
    hide FailAfter, TextOf, GetRdsSecret, GetLiquibaseConfigMap;
  }

  lemma PublishKeepsOutside(m: M, pos: nat, p: Pass, f: Fault, d: Draw)
    ensures var w' := DoRender(m, pos, p, f).w; w'.changelog == m.w.changelog && w'.app == m.w.app
    ensures var w' := DoApply(m, pos, p, f, d).w; w'.changelog == m.w.changelog && w'.app == m.w.app
  {
    hide FailAfter, GetApplicationSet, ManifestPath;
  }

  lemma CallKeepsOutside(m: M, pos: nat, p: Pass, f: Fault, d: Draw)
    ensures Exec(m, pos, p, f, d).w.changelog == m.w.changelog && Exec(m, pos, p, f, d).w.app == m.w.app
  {
    hide Exec, At, DoCreate, DoRead, DoWait, DoWrite, DoSyncSecret, DoSyncChangelog, DoRender, DoApply;
    UnfoldCall(m, pos, p, f, d);
    match At(p.jira.spec, pos)
    case Create(item) => CreateKeepsOutside(m, pos, p, item, f, d);
    case Read(q) => StatusKeepsOutside(m, pos, p, q, RdsAvailable, SyncField, f);
    case Wait(g) => StatusKeepsOutside(m, pos, p, Changelog, g, SyncField, f);
    case Write(fld) => StatusKeepsOutside(m, pos, p, Changelog, RdsAvailable, fld, f);
    case SyncSecret => SyncKeepsOutside(m, pos, p, f, d);
    case SyncChangelog => SyncKeepsOutside(m, pos, p, f, d);
    case RenderManifest => PublishKeepsOutside(m, pos, p, f, d);
    case ApplyManifest => PublishKeepsOutside(m, pos, p, f, d);
    case Finish =>
  }

  lemma CallKeepsIntact(m: M, m': M, p: Pass)
    requires Versioned(m) && Intact(m) && Frugal(m, m', p) && Orderly(m, m', p)
    requires SameIdentity(p.jira, m.w.cr) && p.jira.version in m.specs && m.specs[p.jira.version] == p.jira.spec
    ensures Intact(m')
  {
    hide Build;
    forall k | k in m'.births
      ensures k in m'.w.store && SameIdentity(m'.births[k].p.jira, m'.w.cr)
      ensures m'.births[k].p.jira.version in m'.specs
      ensures m'.specs[m'.births[k].p.jira.version] == m'.births[k].p.jira.spec
      ensures !Updated(k.kind) ==>
                m'.w.store[k].(live := FRESH) == Build(m'.births[k].item, m'.births[k].p, m'.births[k].d)
    {
      if k !in m.w.store {
        BuildKey(m'.births[k].item, p, m'.births[k].d);
      }
      }
  }

  lemma ActKeepsIntact(m: M, a: Action)
    requires Versioned(m) && Intact(m)
    ensures Intact(Act(m, a))
  {
    hide Build, Versioned;
    match a
    case SetLive(k, live) =>
    case Provision(name, source) =>
    case Delete(k) =>
    case EditSpec(s) => SpecsKept(m, s);
    case Touch => SpecsKept(m, m.w.cr.spec);
    case SetChangelog(c) =>
    case SetApplication(app) =>
  }

  lemma SpecsKept(m: M, s: JiraSpec)
    requires Versioned(m)
    ensures m.w.cr.version + 1 !in m.specs
  {
  }

  lemma StepKeepsIntact(m: M, e: Event)
    requires Versioned(m) && Intact(m)
    ensures Intact(Step(m, e))
  {
    assert m.births.Keys <= m.w.store.Keys by { hide Build, Versioned; }
    match e
    case Call(f, d) =>
      if m.ctl.Running? {
        hide Exec, Build, Frugal, Orderly;
        CallIsOrderly(m, m.ctl.pos, m.ctl.p, f, d);
        CallIsFrugal(m, m.ctl.pos, m.ctl.p, f, d);
        CallKeepsIntact(m, Step(m, e), m.ctl.p);
      }
    case Env(a) => ActKeepsIntact(m, a);
    case Begin(_) => hide Build, Exec, Act;
    case Crash => hide Build, Exec, Act;
  }

  lemma {:induction false} RunKeepsIntact(m: M, es: seq<Event>)
    requires Versioned(m) && Intact(m)
    ensures Versioned(Run(m, es)) && Intact(Run(m, es))
  {
    hide Versioned, Intact, Step;
    if es != [] {
      var init := es[..|es| - 1];
      RunKeepsIntact(m, init);
      StepKeepsVersioned(Run(m, init), es[|es| - 1]);
      StepKeepsIntact(Run(m, init), es[|es| - 1]);
    }
  }

  lemma InitialIsIntact(m: M)
    requires Initial(m)
    ensures Versioned(m) && Intact(m)
  {
  }

  /** Whatever the user edits and however often passes fail or crash, a created object that nobody deletes
      keeps its name, owners and content; so a switch of the backend leaves the first shared-home claim. */
  lemma {:induction false} WriteOnce(m: M, es: seq<Event>, k: Key)
    requires Versioned(m) && Intact(m) && k in m.births
    requires k.kind != Secret && k.kind != ConfigMap && k.kind != ApplicationSet
    requires forall e | e in es :: e != Env(Delete(k))
    ensures var m' := Run(m, es);
            && k in m'.births && m'.births[k] == m.births[k]
            && k in m'.w.store && m'.w.store[k].(live := FRESH) == m.w.store[k].(live := FRESH)
  {
    hide Build, Exec;
    if es != [] {
      var init, e := es[..|es| - 1], es[|es| - 1];
      assert forall x | x in init :: x in es;
      assert e in es;
      WriteOnce(m, init, k);
      RunKeepsIntact(m, init);
      WriteOnceStep(Run(m, init), e, k);
    }
  }

  lemma WriteOnceStep(m: M, e: Event, k: Key)
    requires Versioned(m) && Intact(m) && k in m.births && !Updated(k.kind) && e != Env(Delete(k))
    ensures var m' := Step(m, e);
            && k in m'.births && m'.births[k] == m.births[k]
            && k in m'.w.store && m'.w.store[k].(live := FRESH) == m.w.store[k].(live := FRESH)
  {
    hide Build, Exec;
    if e.Call? && m.ctl.Running? {
      CallIsFrugal(m, m.ctl.pos, m.ctl.p, e.f, e.d);
    }
  }
}
