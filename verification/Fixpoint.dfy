/** A fault-free pass repeated in an environment that does not move changes nothing, whatever passwords the
    repetition draws: it builds every object again, and all of it comes to nothing. */
module Fixpoint {
  import opened Api
  import opened Builders
  import opened Plan
  import opened Machine
  import opened Safety
  import opened Soundness
  import opened Ideal
  import opened CleanPass
  import opened Refinement

  // ---- the second pass sees what the first one saw -----------------------------------------

  predicate Rewritten(q: Query) { q == SecretHost || q == ChangelogData }

  lemma MadeObjectSight(w0: World, n: nat, d: nat -> Draw, at: nat, q: Query)
    requires n <= |Prog(w0.cr.spec)| && at < |Prog(w0.cr.spec)| && Prog(w0.cr.spec)[at] == Read(q)
    requires QueryItem(q).Some? && !Rewritten(q)
    requires var key := ItemKey(QueryItem(q).value, w0.cr); key !in w0.store && key in After(w0, n, d).store
    ensures Extract(q, After(w0, n, d).store[ItemKey(QueryItem(q).value, w0.cr)]) ==
            Extract(q, Build(QueryItem(q).value, Pass(w0.cr, map[], false), NO_DRAW))
  {
    hide Prog, Effect, QueryItem, Extract, Build, View, ItemKey;
    var key := ItemKey(QueryItem(q).value, w0.cr);
    QueryKinds(q, w0.cr);
    var i := Maker(w0, n, d, key);
    AfterKeeps(w0, i + 1, n, d);
    SameMaker(w0, at, q, i);
    hide After;
    FreshExtract(q, View(w0), d(i), w0.cr);
  }

  lemma ObjectSightKept(w0: World, n: nat, d: nat -> Draw, at: nat, q: Query)
    requires n <= |Prog(w0.cr.spec)| && at < |Prog(w0.cr.spec)| && Prog(w0.cr.spec)[at] == Read(q)
    requires QueryItem(q).Some? && !Rewritten(q)
    ensures Sight(q, After(w0, n, d)) == Sight(q, w0)
  {
    var item := QueryItem(q).value;
    var key := ItemKey(item, w0.cr);
    var w1 := After(w0, n, d);
    QueryKinds(q, w0.cr);
    AfterKeepsIdentity(w0, n, d);
    KeyDependsOnIdentity(item, w0.cr, w1.cr);
    SightOfObject(q, w0);
    SightOfObject(q, w1);
    AfterKeeps(w0, 0, n, d);
    assert After(w0, 0, d) == w0;
    hide Prog, QueryItem, Extract, Build, View, Sight, ItemKey, After;
    if key in w0.store {
    } else if key in w1.store {
      MadeObjectSight(w0, n, d, at, q);
    } else {
      FreshExtract(q, Pass(w1.cr, map[], false), NO_DRAW, w0.cr);
    }
  }

  lemma HandleSightKept(w0: World, n: nat, d: nat -> Draw, at: nat)
    requires n <= |Prog(w0.cr.spec)| && at < |Prog(w0.cr.spec)| && Prog(w0.cr.spec)[at] == Read(VolumeHandle)
    ensures Sight(VolumeHandle, After(w0, n, d)) == Sight(VolumeHandle, w0)
  {
    hide Prog, ItemKey, After, ObjectOf, ReadAt;
    var s := w0.cr.spec;
    HandleReadInFsx(s, at);
    assert ClaimVolume in Uses(Read(VolumeHandle));
    UsesBefore(s, at, ClaimVolume);
    ObjectSightKept(w0, n, d, ReadAt(ClaimVolume, s), ClaimVolume);
    SightOfObject(ClaimVolume, w0);
    SightOfObject(ClaimVolume, After(w0, n, d));
    NoVolumeMade(w0, n, d, Key(PersistentVolume, "", ClaimedVolume(ObjectOf(FsxPvc, w0))));
  }

  lemma SightKept(w0: World, n: nat, d: nat -> Draw, at: nat, q: Query)
    requires n <= |Prog(w0.cr.spec)| && at < |Prog(w0.cr.spec)| && Prog(w0.cr.spec)[at] == Read(q) && !Rewritten(q)
    ensures Sight(q, After(w0, n, d)) == Sight(q, w0)
  {
    hide Prog, ItemKey, After;
    if QueryItem(q).Some? {
      hide Sight;
      ObjectSightKept(w0, n, d, at, q);
    } else if q == VolumeHandle {
      hide Sight;
      HandleSightKept(w0, n, d, at);
    } else {
      AfterKeepsIdentity(w0, n, d);
    }
  }

  lemma BlockedKept(w0: World, n: nat, d: nat -> Draw, k: nat)
    requires n <= |Prog(w0.cr.spec)| && k < |Prog(w0.cr.spec)|
    ensures Blocked(Prog(w0.cr.spec)[k], After(w0, n, d)) == Blocked(Prog(w0.cr.spec)[k], w0)
  {
    hide After;
    match Prog(w0.cr.spec)[k]
    case Wait(g) =>
      UsesBefore(w0.cr.spec, k, GateQuery(g));
      NotRewritten(g);
      SightKept(w0, n, d, ReadAt(GateQuery(g), w0.cr.spec), GateQuery(g));
      hide Prog, Sight, Judge, GateQuery, ReadAt;
    case Read(q) =>
      SecretSight(w0);
      SecretSight(After(w0, n, d));
      if !Rewritten(q) {
        SightKept(w0, n, d, k, q);
      }
      hide Prog, Sight;
    case _ => hide Prog, Sight;
  }

  lemma NotRewritten(g: Gate)
    ensures !Rewritten(GateQuery(g))
  {
  }

  lemma StopKept(w0: World, n: nat, d: nat -> Draw)
    requires n <= |Prog(w0.cr.spec)|
    ensures Stop(After(w0, n, d)) == Stop(w0)
  {
    AfterKeepsIdentity(w0, n, d);
    var w1 := After(w0, n, d);
    hide Prog, Blocked, After, StopIn;
    forall k: nat | k < |Prog(w0.cr.spec)|
      ensures Blocked(Prog(w0.cr.spec)[k], w1) == Blocked(Prog(w0.cr.spec)[k], w0)
    {
      BlockedKept(w0, n, d, k);
    }
    var a, b := Stop(w0), Stop(w1);
    hide Stop;
    assert Blocked(Prog(w0.cr.spec)[a], w1).Some? && Blocked(Prog(w0.cr.spec)[b], w0).Some?;
  }

  lemma FieldIsSight(f: Field, w: World)
    requires f != ResetField && f != LiquibaseField
    ensures FieldValue(f, w) == SightText(Uses(Write(f))[0], w)
  {
    hide SightText;
  }

  lemma FieldKept(w0: World, n: nat, d: nat -> Draw, at: nat, f: Field)
    requires n <= |Prog(w0.cr.spec)| && at < |Prog(w0.cr.spec)| && Prog(w0.cr.spec)[at] == Write(f)
    ensures FieldValue(f, After(w0, n, d)) == FieldValue(f, w0)
  {
    hide Prog, After, Sight, ReadAt;
    if f != ResetField && f != LiquibaseField {
      hide FieldValue;
      FieldQuery(f);
      FieldIsSight(f, w0);
      FieldIsSight(f, After(w0, n, d));
      var q := Uses(Write(f))[0];
      hide Uses;
      UsesBefore(w0.cr.spec, at, q);
      SightKept(w0, n, d, ReadAt(q, w0.cr.spec), q);
    }
  }

  lemma FieldQuery(f: Field)
    requires f != ResetField && f != LiquibaseField
    ensures !Rewritten(Uses(Write(f))[0])
  {
  }

  // ---- what the first pass leaves in place -------------------------------------------------

  lemma SetGet(s: JiraStatus, f: Field, g: Field, v: string)
    ensures Get(Set(s, f, v), g) == if f == g then v else Get(s, g)
  {
  }

  lemma WriteSets(w0: World, w: World, d: Draw, f: Field)
    ensures Get(Effect(Write(f), w0, w, d).cr.status, f) == FieldValue(f, w0)
  {
    SetGet(w.cr.status, f, f, FieldValue(f, w0));
    hide Get, Set, FieldValue;
  }

  lemma {:induction false} FieldHeld(w0: World, n: nat, d: nat -> Draw, k: nat, f: Field)
    requires k < n <= |Prog(w0.cr.spec)| && Prog(w0.cr.spec)[k] == Write(f)
    ensures Get(After(w0, n, d).cr.status, f) == FieldValue(f, w0)
  {
    hide Prog, FieldValue, Get, Effect;
    if k < n - 1 {
      FieldHeld(w0, n - 1, d, k, f);
      if Prog(w0.cr.spec)[n - 1] == Write(f) {
        ProgDistinct(w0.cr.spec, k, n - 1);
      }
      OtherEffectsKeepField(Prog(w0.cr.spec)[n - 1], w0, After(w0, n - 1, d), d(n - 1), f);
    } else {
      WriteSets(w0, After(w0, n - 1, d), d(n - 1), f);
    }
  }

  lemma OtherEffectsKeepField(i: Instr, w0: World, w: World, d: Draw, f: Field)
    requires i != Write(f)
    ensures Get(Effect(i, w0, w, d).cr.status, f) == Get(w.cr.status, f)
  {
    hide FieldValue, Get, Set, Build, ItemKey, GetApplicationSet, View, SightText;
    if i.Write? {
      SetGet(w.cr.status, i.field, f, FieldValue(i.field, w0));
    }
  }

  lemma SecretAtSync(w0: World, d: nat -> Draw)
    ensures |Prog(w0.cr.spec)| > SYNC_SECRET_AT + 1 && Prog(w0.cr.spec)[SYNC_SECRET_AT] == SyncSecret
    ensures var k := ItemKey(DbSecret, w0.cr);
            && k in After(w0, SYNC_SECRET_AT, d).store
            && Extract(SecretHost, After(w0, SYNC_SECRET_AT, d).store[k]) == Sight(SecretHost, w0)
  {
    ProgLength(w0.cr.spec);
    assert Prog(w0.cr.spec)[10] == Read(SecretHost);
    assert Prog(w0.cr.spec)[SYNC_SECRET_AT] == SyncSecret;
    hide Prog, Extract, Sight, ItemKey;
    ObjectSight(w0, 10, d, SecretHost);
    assert After(w0, SYNC_SECRET_AT, d) == After(w0, 10, d);
  }

  lemma AfterStep(w0: World, n: nat, d: nat -> Draw)
    ensures After(w0, n + 1, d) == Effect(At(w0.cr.spec, n), w0, After(w0, n, d), d(n))
  {
    hide Effect, At;
  }

  lemma {:induction false} SecretHeld(w0: World, n: nat, d: nat -> Draw)
    requires SYNC_SECRET_AT < n <= |Prog(w0.cr.spec)|
    ensures var k := ItemKey(DbSecret, w0.cr);
            && k in After(w0, n, d).store
            && Extract(SecretHost, After(w0, n, d).store[k]) == Got(Text(SightText(RdsEndpoint, w0)))
  {
    hide Prog, Sight, SightText, Extract, ItemKey, After, Effect;
    SecretAtSync(w0, d);
    SetKey(w0.cr);
    AfterStep(w0, n - 1, d);
    if n == SYNC_SECRET_AT + 1 {
      SyncedHost(w0, After(w0, SYNC_SECRET_AT, d), d(SYNC_SECRET_AT));
    } else {
      SecretHeld(w0, n - 1, d);
      SyncPositions(w0.cr.spec, n - 1);
      EffectKeepsBody(Prog(w0.cr.spec)[n - 1], w0, After(w0, n - 1, d), d(n - 1), ItemKey(DbSecret, w0.cr));
    }
  }

  lemma SyncedHost(w0: World, w: World, d: Draw)
    requires ItemKey(DbSecret, w0.cr) in w.store
    requires Extract(SecretHost, w.store[ItemKey(DbSecret, w0.cr)]) == Sight(SecretHost, w0)
    ensures var w' := Effect(SyncSecret, w0, w, d);
            var k := ItemKey(DbSecret, w0.cr);
            k in w'.store && Extract(SecretHost, w'.store[k]) == Got(Text(SightText(RdsEndpoint, w0)))
  {
    SecretSightText(w0);
    hide Sight, ItemKey;
  }

  lemma SecretSightText(w0: World)
    ensures Sight(SecretHost, w0) == Got(Text(SightText(SecretHost, w0)))
  {
  }

  lemma {:induction false} ChangelogHeld(w0: World, n: nat, d: nat -> Draw)
    requires LiquibaseAt(w0.cr.spec) + 3 < n <= |Prog(w0.cr.spec)|
    ensures var k := ItemKey(ChangelogMap, w0.cr);
            && k in After(w0, n, d).store
            && Extract(ChangelogData, After(w0, n, d).store[k]) == Got(Text(SightText(Changelog, w0)))
  {
    hide Prog, ItemKey, LiquibaseAt;
    var s := w0.cr.spec;
    var k := ItemKey(ChangelogMap, w0.cr);
    MapKey(w0.cr);
    SyncChangelogAt(s);
    if n == LiquibaseAt(s) + 4 {
      NewMapHoldsChangelog(w0, n - 1, d);
      if k in w0.store {
        EarlyBody(w0, 0, n - 1, d, k);
      }
      SyncedChangelog(w0, After(w0, n - 1, d), d(n - 1));
    } else {
      ChangelogHeld(w0, n - 1, d);
      SyncPositions(s, n - 1);
      hide Effect, SightText, Extract;
      EffectKeepsBody(Prog(s)[n - 1], w0, After(w0, n - 1, d), d(n - 1), k);
    }
  }

  lemma SyncChangelogAt(s: JiraSpec)
    ensures LiquibaseAt(s) + 3 < |Prog(s)| && Prog(s)[LiquibaseAt(s) + 3] == SyncChangelog
  {
    hide Prog, LiquibaseAt, StorageAt, PublishAt;
    ProgLength(s);
    Piece(s, 0);
    Piece(s, LiquibaseAt(s) + 3);
  }

  lemma SyncedChangelog(w0: World, w: World, d: Draw)
    requires ItemKey(ChangelogMap, w0.cr) in w.store
    requires ItemKey(ChangelogMap, w0.cr) in w0.store ==>
               w.store[ItemKey(ChangelogMap, w0.cr)] == w0.store[ItemKey(ChangelogMap, w0.cr)]
    ensures var w' := Effect(SyncChangelog, w0, w, d);
            var k := ItemKey(ChangelogMap, w0.cr);
            k in w'.store && Extract(ChangelogData, w'.store[k]) == Got(Text(SightText(Changelog, w0)))
  {
    hide ItemKey, SightText;
    if ItemKey(ChangelogMap, w0.cr) in w0.store {
      StoredData(w0);
    }
  }

  lemma StoredData(w0: World)
    requires ItemKey(ChangelogMap, w0.cr) in w0.store
    ensures Extract(ChangelogData, w0.store[ItemKey(ChangelogMap, w0.cr)]) == Got(Text(SightText(ChangelogData, w0)))
  {
    hide ItemKey;
  }

  lemma {:induction false} ManifestHeld(w0: World, n: nat, d: nat -> Draw, k: nat)
    requires k < n <= |Prog(w0.cr.spec)| && Prog(w0.cr.spec)[k] == RenderManifest
    ensures var path := ManifestPath(w0.cr);
            path in After(w0, n, d).files && After(w0, n, d).files[path] == GetApplicationSet(w0.cr)
  {
    hide Prog, GetApplicationSet, ManifestPath, Build, View, ItemKey, FieldValue, SightText;
    if k < n - 1 {
      ManifestHeld(w0, n - 1, d, k);
    }
  }

  ghost predicate SetInLine(w: World, j: Jira)
  {
    var k := ItemKey(AppSet, j);
    k in w.store && w.store[k] == GetApplicationSet(j).(live := w.store[k].live)
  }

  lemma {:induction false} SetHeld(w0: World, n: nat, d: nat -> Draw, k: nat)
    requires k < n <= |Prog(w0.cr.spec)| && Prog(w0.cr.spec)[k] == ApplyManifest
    ensures SetInLine(After(w0, n, d), w0.cr)
  {
    hide Prog, SetInLine, Effect, After;
    AfterStep(w0, n - 1, d);
    if Prog(w0.cr.spec)[n - 1] == ApplyManifest {
      AppliedInLine(w0, After(w0, n - 1, d), d(n - 1));
    } else {
      assert k != n - 1;
      SetHeld(w0, n - 1, d, k);
      EffectKeepsSet(Prog(w0.cr.spec)[n - 1], w0, After(w0, n - 1, d), d(n - 1));
    }
  }

  lemma AppliedInLine(w0: World, w: World, d: Draw)
    ensures SetInLine(Effect(ApplyManifest, w0, w, d), w0.cr)
  {
    hide GetApplicationSet, ItemKey;
  }

  lemma EffectKeepsSet(i: Instr, w0: World, w: World, d: Draw)
    requires SetInLine(w, w0.cr) && i != ApplyManifest
    ensures SetInLine(Effect(i, w0, w, d), w0.cr)
  {
    SetKey(w0.cr);
    hide GetApplicationSet, ItemKey, Build, View, FieldValue, SightText, ManifestPath, AddObject, SetBody, GetRdsSecret;
    match i
    case Create(item) => AddKeepsSet(w, Build(item, View(w0), d), w0.cr);
    case SyncSecret =>
      SetBodyKeepsSet(w, ItemKey(DbSecret, w0.cr), GetRdsSecret(w0.cr, SightText(RdsEndpoint, w0), w0.cr.name, d).body, w0.cr);
    case SyncChangelog =>
      SetBodyKeepsSet(w, ItemKey(ChangelogMap, w0.cr), ConfigMapBody(SightText(Changelog, w0)), w0.cr);
    case _ =>
  }

  lemma SetKey(j: Jira)
    ensures ItemKey(AppSet, j).kind == ApplicationSet
    ensures ItemKey(DbSecret, j).kind == Secret && ItemKey(ChangelogMap, j).kind == ConfigMap
  {
  }

  lemma AddKeepsSet(w: World, o: Obj, j: Jira)
    requires SetInLine(w, j)
    ensures SetInLine(AddObject(w, o), j)
  {
    hide GetApplicationSet, ItemKey;
  }

  lemma SetBodyKeepsSet(w: World, k: Key, body: Body, j: Jira)
    requires SetInLine(w, j) && k != ItemKey(AppSet, j)
    ensures SetInLine(SetBody(w, k, body), j)
  {
    hide GetApplicationSet, ItemKey;
  }

  // ---- the second pass has nothing to do ---------------------------------------------------

  lemma CreateIdle(w0: World, n: nat, d: nat -> Draw, k: nat, item: Item, d': Draw)
    requires k < n <= |Prog(w0.cr.spec)| && Prog(w0.cr.spec)[k] == Create(item)
    ensures var w1 := After(w0, n, d); Effect(Create(item), w1, w1, d') == w1
  {
    var w1 := After(w0, n, d);
    AfterKeepsIdentity(w0, n, d);
    KeyDependsOnIdentity(item, w0.cr, w1.cr);
    BuildKey(item, View(w1), d');
    hide Prog, ItemKey, Build, View, After;
    MadeStays(w0, k, n, d);
  }

  lemma WriteIdle(w0: World, n: nat, d: nat -> Draw, k: nat, f: Field, d': Draw)
    requires k < n <= |Prog(w0.cr.spec)| && Prog(w0.cr.spec)[k] == Write(f)
    ensures var w1 := After(w0, n, d); Effect(Write(f), w1, w1, d') == w1
  {
    var w1 := After(w0, n, d);
    FieldHeld(w0, n, d, k, f);
    FieldKept(w0, n, d, k, f);
    hide Prog, FieldValue, After, Get, Set;
    SameStatus(w1.cr.status, f);
  }

  lemma SyncSecretIdle(w0: World, n: nat, d: nat -> Draw, d': Draw)
    requires SYNC_SECRET_AT < n <= |Prog(w0.cr.spec)|
    ensures var w1 := After(w0, n, d); Effect(SyncSecret, w1, w1, d') == w1
  {
    var w1 := After(w0, n, d);
    AfterKeepsIdentity(w0, n, d);
    SecretHeld(w0, n, d);
    KeyDependsOnIdentity(DbSecret, w0.cr, w1.cr);
    EndpointReadAt(w0.cr.spec);
    SightKept(w0, n, d, 8, RdsEndpoint);
    SecretFound(w1);
    hide Prog, ItemKey, After, Sight;
  }

  lemma EndpointReadAt(s: JiraSpec)
    ensures |Prog(s)| > 8 && Prog(s)[8] == Read(RdsEndpoint)
  {
    ProgLength(s);
  }

  lemma SecretFound(w: World)
    requires ItemKey(DbSecret, w.cr) in w.store
    ensures Sight(SecretHost, w) == Extract(SecretHost, w.store[ItemKey(DbSecret, w.cr)])
  {
    hide ItemKey, Extract;
  }

  lemma SyncChangelogIdle(w0: World, n: nat, d: nat -> Draw, d': Draw)
    requires LiquibaseAt(w0.cr.spec) + 3 < n <= |Prog(w0.cr.spec)|
    ensures var w1 := After(w0, n, d); Effect(SyncChangelog, w1, w1, d') == w1
  {
    var w1 := After(w0, n, d);
    AfterKeepsIdentity(w0, n, d);
    ChangelogHeld(w0, n, d);
    KeyDependsOnIdentity(ChangelogMap, w0.cr, w1.cr);
    hide Prog, ItemKey, After, LiquibaseAt;
    StoredData(w1);
    assert SightText(Changelog, w1) == SightText(Changelog, w0);
    hide SightText, Extract;
  }

  lemma RenderIdle(w0: World, n: nat, d: nat -> Draw, k: nat, d': Draw)
    requires k < n <= |Prog(w0.cr.spec)| && Prog(w0.cr.spec)[k] == RenderManifest
    ensures var w1 := After(w0, n, d); Effect(RenderManifest, w1, w1, d') == w1
  {
    hide Prog, GetApplicationSet, After;
    var w1 := After(w0, n, d);
    AfterKeepsIdentity(w0, n, d);
    ManifestHeld(w0, n, d, k);
    SameApplicationSet(w0.cr, w1.cr);
    assert w1.files[ManifestPath(w1.cr) := GetApplicationSet(w1.cr)] == w1.files;
  }

  lemma ApplyIdle(w0: World, n: nat, d: nat -> Draw, k: nat, d': Draw)
    requires k < n <= |Prog(w0.cr.spec)| && Prog(w0.cr.spec)[k] == ApplyManifest
    ensures var w1 := After(w0, n, d); Effect(ApplyManifest, w1, w1, d') == w1
  {
    hide Prog, GetApplicationSet, After, ItemKey;
    var w1 := After(w0, n, d);
    AfterKeepsIdentity(w0, n, d);
    SetHeld(w0, n, d, k);
    SameApplicationSet(w0.cr, w1.cr);
    KeyDependsOnIdentity(AppSet, w0.cr, w1.cr);
    var key := ItemKey(AppSet, w1.cr);
    assert w1.store[key := GetApplicationSet(w1.cr).(live := w1.store[key].live)] == w1.store;
  }

  lemma NothingToDo(w0: World, n: nat, d: nat -> Draw, k: nat, d': Draw)
    requires k < n <= |Prog(w0.cr.spec)|
    ensures var w1 := After(w0, n, d); Effect(Prog(w0.cr.spec)[k], w1, w1, d') == w1
  {
    SyncPositions(w0.cr.spec, k);
    match Prog(w0.cr.spec)[k]
    case Create(item) => hide Prog, Effect, After, LiquibaseAt; CreateIdle(w0, n, d, k, item, d');
    case Write(f) => hide Prog, Effect, After, LiquibaseAt; WriteIdle(w0, n, d, k, f, d');
    case SyncSecret => hide Prog, Effect, After, LiquibaseAt; SyncSecretIdle(w0, n, d, d');
    case SyncChangelog => hide Prog, Effect, After, LiquibaseAt; SyncChangelogIdle(w0, n, d, d');
    case RenderManifest => hide Prog, Effect, After, LiquibaseAt; RenderIdle(w0, n, d, k, d');
    case ApplyManifest => hide Prog, Effect, After, LiquibaseAt; ApplyIdle(w0, n, d, k, d');
    case _ => hide Prog, After, ItemKey;
  }

  lemma {:induction false} SecondPassIdle(w0: World, n: nat, d: nat -> Draw, k: nat, d': nat -> Draw)
    requires k <= n <= |Prog(w0.cr.spec)|
    ensures After(After(w0, n, d), k, d') == After(w0, n, d)
  {
    if k == 0 {
      hide Effect, At;
    } else {
      hide Prog, Effect, After;
      AfterKeepsIdentity(w0, n, d);
      SecondPassIdle(w0, n, d, k - 1, d');
      AfterStep(After(w0, n, d), k - 1, d');
      NothingToDo(w0, n, d, k - 1, d'(k - 1));
    }
  }

  /** Wherever the first pass stopped, the second one stops there too, changes nothing, and returns the same. */
  lemma PassIsIdempotent(m: M, d: nat -> Draw, d': nat -> Draw)
    requires m.ctl.Idle?
    ensures var m1 := CleanPassOf(m, d);
            var m2 := CleanPassOf(m1, d');
            m1.ctl.Idle? && m2.w == m1.w && m2.ctl == m1.ctl
  {
    var n := Stop(m.w);
    var m1 := CleanPassOf(m, d);
    hide Prog, Blocked, After, CleanPassOf;
    CleanPassRefines(m, d);
    CleanPassRefines(m1, d');
    StopKept(m.w, n, d);
    SecondPassIdle(m.w, n, d, n, d');
    AfterKeepsIdentity(m.w, n, d);
    BlockedKept(m.w, n, d, n);
  }
}
