/** The machine's fault-free pass refines the ideal one. */
module Refinement {
  import opened Api
  import opened Builders
  import opened Plan
  import opened Machine
  import opened Safety
  import opened Soundness
  import opened Ideal
  import opened CleanPass
  import Template

  // ---- sights do not change during the pass ----------------------------------------------

  /** Only SyncSecret alters the secret, and only SyncChangelog the config map. */
  lemma EffectKeepsBody(i: Instr, w0: World, w: World, d: Draw, k: Key)
    requires k in w.store
    requires k.kind == Secret ==> i != SyncSecret
    requires k.kind == ConfigMap ==> i != SyncChangelog
    requires k.kind != ApplicationSet
    ensures k in Effect(i, w0, w, d).store && Effect(i, w0, w, d).store[k] == w.store[k]
  {
    hide FieldValue, SightText, Set, GetRdsSecret, ManifestPath, View, Accept, GetApplicationSet, Build;
    assert ItemKey(AppSet, w0.cr).kind == ApplicationSet;
    assert ItemKey(DbSecret, w0.cr).kind == Secret && ItemKey(ChangelogMap, w0.cr).kind == ConfigMap;
    hide ItemKey;
  }

  lemma {:induction false} EarlyBody(w0: World, a: nat, n: nat, d: nat -> Draw, k: Key)
    requires a <= n <= |Prog(w0.cr.spec)| && k in After(w0, a, d).store && k.kind != ApplicationSet
    requires k.kind == Secret ==> n <= SYNC_SECRET_AT
    requires k.kind == ConfigMap ==> n <= LiquibaseAt(w0.cr.spec) + 3
    ensures k in After(w0, n, d).store && After(w0, n, d).store[k] == After(w0, a, d).store[k]
  {
    hide Effect, Prog, LiquibaseAt;
    if a < n {
      EarlyBody(w0, a, n - 1, d, k);
      SyncPositions(w0.cr.spec, n - 1);
      EffectKeepsBody(Prog(w0.cr.spec)[n - 1], w0, After(w0, n - 1, d), d(n - 1), k);
    }
  }

  lemma SyncPositions(s: JiraSpec, n: nat)
    requires n < |Prog(s)|
    ensures Prog(s)[n] == SyncSecret ==> n == SYNC_SECRET_AT
    ensures Prog(s)[n] == SyncChangelog ==> n == LiquibaseAt(s) + 3
    ensures Prog(s)[n] == Read(SecretHost) ==> n == 10
    ensures Prog(s)[n] == Read(ChangelogData) ==> n == LiquibaseAt(s) + 2
    ensures Prog(s)[n] == Create(ChangelogMap) ==> n == LiquibaseAt(s) + 1
  {
    RankAt(s, n);
    hide Prog, LiquibaseAt;
  }

  /** What an extraction finds in a fresh object does not depend on the pass that built it. */
  lemma FreshExtract(q: Query, p: Pass, d: Draw, j: Jira)
    requires QueryItem(q).Some? && q != ChangelogData && SameIdentity(p.jira, j) && p.jira.spec == j.spec
    ensures Extract(q, Build(QueryItem(q).value, p, d)) == Extract(q, Build(QueryItem(q).value, Pass(j, map[], false), NO_DRAW))
  {
  }

  lemma MadeSight(w0: World, n: nat, d: nat -> Draw, q: Query)
    requires n < |Prog(w0.cr.spec)| && Prog(w0.cr.spec)[n] == Read(q) && QueryItem(q).Some? && q != ChangelogData
    requires ItemKey(QueryItem(q).value, w0.cr) !in w0.store
    ensures var key := ItemKey(QueryItem(q).value, w0.cr);
            && key in After(w0, n, d).store
            && Extract(q, After(w0, n, d).store[key]) == Extract(q, Build(QueryItem(q).value, Pass(w0.cr, map[], false), NO_DRAW))
  {
    hide Prog, Effect, LiquibaseAt, QueryItem, Extract, Build, View, ItemKey, After;
    var key := ItemKey(QueryItem(q).value, w0.cr);
    QueryKinds(q, w0.cr);
    SyncPositions(w0.cr.spec, n);
    MadeForQuery(w0, n, d, q);
    var i := Maker(w0, n, d, key);
    EarlyBody(w0, i + 1, n, d, key);
    SameMaker(w0, n, q, i);
    FreshExtract(q, View(w0), d(i), w0.cr);
  }

  lemma SightOfObject(q: Query, w: World)
    requires QueryItem(q).Some?
    ensures Sight(q, w) == Extract(q, ObjectOf(QueryItem(q).value, w))
  {
    hide Extract, ObjectOf;
  }

  /** When its turn comes, a query finds what it would have found, or would have been given, at the start. */
  lemma ObjectSight(w0: World, n: nat, d: nat -> Draw, q: Query)
    requires n < |Prog(w0.cr.spec)| && Prog(w0.cr.spec)[n] == Read(q) && QueryItem(q).Some?
    requires q == ChangelogData ==> ItemKey(ChangelogMap, w0.cr) in w0.store
    ensures var key := ItemKey(QueryItem(q).value, w0.cr);
            key in After(w0, n, d).store && Extract(q, After(w0, n, d).store[key]) == Sight(q, w0)
  {
    var key := ItemKey(QueryItem(q).value, w0.cr);
    assert q == ChangelogData ==> key in w0.store;
    hide Prog, Effect, LiquibaseAt, QueryItem, Extract, Build, View, Sight, ItemKey;
    QueryKinds(q, w0.cr);
    SyncPositions(w0.cr.spec, n);
    SightOfObject(q, w0);
    if key in w0.store {
      EarlyBody(w0, 0, n, d, key);
    } else {
      MadeSight(w0, n, d, q);
    }
  }

  lemma QueryKinds(q: Query, j: Jira)
    requires QueryItem(q).Some?
    ensures var kind := ItemKey(QueryItem(q).value, j).kind;
            && kind != ApplicationSet && (kind == Secret ==> q == SecretHost) && (kind == ConfigMap ==> q == ChangelogData)
  {
  }

  lemma MadeForQuery(w0: World, n: nat, d: nat -> Draw, q: Query)
    requires n < |Prog(w0.cr.spec)| && Prog(w0.cr.spec)[n] == Read(q) && QueryItem(q).Some?
    ensures ItemKey(QueryItem(q).value, w0.cr) in After(w0, n, d).store
  {
    hide Prog, ItemKey, Effect;
    var k := ObjectBefore(w0.cr.spec, n);
    hide QueryItem;
    MadeStays(w0, k, n, d);
  }

  lemma SameMaker(w0: World, n: nat, q: Query, i: nat)
    requires n < |Prog(w0.cr.spec)| && Prog(w0.cr.spec)[n] == Read(q) && QueryItem(q).Some?
    requires i < |Prog(w0.cr.spec)| && MakesKey(Prog(w0.cr.spec)[i], ItemKey(QueryItem(q).value, w0.cr), w0.cr)
    ensures Makes(Prog(w0.cr.spec)[i]) == QueryItem(q)
  {
    hide Prog, ItemKey;
    var k := ObjectBefore(w0.cr.spec, n);
    assert MakesKey(Prog(w0.cr.spec)[k], ItemKey(QueryItem(q).value, w0.cr), w0.cr);
    hide QueryItem;
    OneMaker(w0.cr, i, k, ItemKey(Makes(Prog(w0.cr.spec)[k]).value, w0.cr));
  }

  /** In the FSx branch no volume is created by the operator. */
  lemma NoVolumeMade(w0: World, n: nat, d: nat -> Draw, k: Key)
    requires n <= |Prog(w0.cr.spec)| && BackendOf(w0.cr.spec) == Fsx && k.kind == PersistentVolume
    ensures k in After(w0, n, d).store <==> k in w0.store
    ensures k in w0.store ==> After(w0, n, d).store[k] == w0.store[k]
  {
    hide Prog, Effect;
    AfterKeeps(w0, 0, n, d);
    if k in After(w0, n, d).store && k !in w0.store {
      var i := Maker(w0, n, d, k);
      ItemsFit(w0.cr.spec, i);
      NoVolumeItem(Makes(Prog(w0.cr.spec)[i]).value, w0.cr);
    }
  }

  lemma NoVolumeItem(item: Item, j: Jira)
    requires BelongsTo(item, Fsx)
    ensures ItemKey(item, j).kind != PersistentVolume
  {
  }

  lemma ClaimsAreFsx(s: JiraSpec, k: nat)
    requires k < |Storage(s)| && BackendOf(s) != Fsx && Storage(s)[k].Read?
    ensures Storage(s)[k].query !in {VolumeHandle, ClaimVolume, ClaimPhase}
  {
    if BackendOf(s) == Ebs {
      assert EBS[k] == Storage(s)[k];
    } else {
      EfsLayout(s, k);
    }
  }

  lemma HandleReadInFsx(s: JiraSpec, n: nat)
    requires n < |Prog(s)| && Prog(s)[n].Read? && Prog(s)[n].query in {VolumeHandle, ClaimVolume, ClaimPhase}
    ensures BackendOf(s) == Fsx
  {
    Segments(s, n);
    hide Prog, Storage, BackendOf, StorageAt, PublishAt;
    if !(StorageAt(s) <= n < PublishAt(s)) {
      HeadHasNoClaims(s, n);
    } else if BackendOf(s) != Fsx {
      ClaimsAreFsx(s, n - StorageAt(s));
    }
  }

  lemma HeadHasNoClaims(s: JiraSpec, n: nat)
    requires n < |Prog(s)| && !(StorageAt(s) <= n < PublishAt(s)) && Prog(s)[n].Read?
    ensures Prog(s)[n].query !in {VolumeHandle, ClaimVolume, ClaimPhase}
  {
    Piece(s, n);
    hide Prog, StorageAt, PublishAt, LiquibaseAt;
  }

  // ---- one instruction ---------------------------------------------------------------------

  lemma PeekIsSight(w0: World, n: nat, d: nat -> Draw, p: Pass, q: Query)
    requires n < |Prog(w0.cr.spec)| && Prog(w0.cr.spec)[n] == Read(q) && Seen(p, w0, n)
    requires SameIdentity(p.jira, w0.cr) && p.jira.spec == w0.cr.spec
    requires q == ChangelogData ==> ItemKey(ChangelogMap, w0.cr) in w0.store
    ensures Peek(q, p, After(w0, n, d)) == Sight(q, w0)
  {
    AfterKeepsIdentity(w0, n, d);
    hide Prog, Extract, ObjectOf, Effect, Seen, ItemKey;
    if QueryItem(q).Some? {
      ObjectSight(w0, n, d, q);
      KeyDependsOnIdentity(QueryItem(q).value, p.jira, w0.cr);
      ObjectPeek(q, p, After(w0, n, d));
      hide Sight, Peek;
    } else if q == VolumeHandle {
      hide Peek, Sight;
      HandlePeek(w0, n, d, p);
    } else {
      hide After;
    }
  }

  lemma ObjectPeek(q: Query, p: Pass, w: World)
    requires QueryItem(q).Some? && ItemKey(QueryItem(q).value, p.jira) in w.store
    ensures Peek(q, p, w) == Extract(q, w.store[ItemKey(QueryItem(q).value, p.jira)])
  {
    hide Extract;
  }

  lemma HandlePeek(w0: World, n: nat, d: nat -> Draw, p: Pass)
    requires n < |Prog(w0.cr.spec)| && Prog(w0.cr.spec)[n] == Read(VolumeHandle) && Seen(p, w0, n)
    ensures Peek(VolumeHandle, p, After(w0, n, d)) == Sight(VolumeHandle, w0)
  {
    HandleReadInFsx(w0.cr.spec, n);
    UsedIsKnown(p, w0, n, ClaimVolume);
    KnownText(p, w0, ClaimVolume);
    hide Prog, Effect, ObjectOf, Seen, ItemKey;
    var v := TextOf(p, ClaimVolume);
    assert v == ClaimedVolume(ObjectOf(FsxPvc, w0));
    NoVolumeMade(w0, n, d, Key(PersistentVolume, "", v));
  }

  /** The builders get the same inputs. */
  lemma BuildSame(item: Item, p: Pass, p': Pass, d: Draw)
    requires SameIdentity(p.jira, p'.jira) && p.jira.spec == p'.jira.spec
    requires forall q | q in Uses(Create(item)) :: TextOf(p, q) == TextOf(p', q)
    ensures Build(item, p, d) == Build(item, p', d)
  {
    hide TextOf, Template.Manifest, ItemKey;
    match item
    case ChangelogMap => assert Changelog in Uses(Create(item));
    case NfsPv => assert VolumeId in Uses(Create(item));
    case SharedNfsPv => assert ServiceIp in Uses(Create(item));
    case Target(_) => assert FileSystemId in Uses(Create(item));
    case EfsPv => assert FileSystemId in Uses(Create(item));
    case AppSet => SameApplicationSet(p.jira, p'.jira);
    case _ =>
  }

  lemma ViewText(w0: World, q: Query)
    requires q in {VolumeId, ServiceIp, FileSystemId, Changelog}
    ensures TextOf(View(w0), q) == SightText(q, w0)
  {
    hide Sight;
  }

  lemma BuildAsViewed(w0: World, n: nat, p: Pass, item: Item, d: Draw)
    requires n < |Prog(w0.cr.spec)| && Prog(w0.cr.spec)[n] == Create(item) && Seen(p, w0, n)
    requires SameIdentity(p.jira, w0.cr) && p.jira.spec == w0.cr.spec
    ensures Build(item, p, d) == Build(item, View(w0), d)
  {
    hide Prog, Build, Seen, Sight, TextOf, SightText, View;
    forall q | q in Uses(Create(item))
      ensures TextOf(p, q) == TextOf(View(w0), q)
    {
      UsedIsKnown(p, w0, n, q);
      KnownText(p, w0, q);
      ViewText(w0, q);
    }
    BuildSame(item, p, View(w0), d);
  }

  ghost predicate Goes(u: M, w0: World, n: nat, d: nat -> Draw)
  {
    Tracks(u, w0, n, d) && Blocked(Prog(w0.cr.spec)[n], w0).None?
  }

  lemma SeenGrows(p: Pass, p': Pass, w0: World, n: nat)
    requires Seen(p, w0, n) && n < |Prog(w0.cr.spec)| && !Prog(w0.cr.spec)[n].Read? && p'.obs == p.obs
    ensures Seen(p', w0, n + 1)
  {
    hide Prog, Sight, ItemKey;
    forall k: nat | k < n + 1 && k < |Prog(w0.cr.spec)| && Prog(w0.cr.spec)[k].Read?
      ensures Knows(p', w0, Prog(w0.cr.spec)[k].query)
    {
      assert Knows(p, w0, Prog(w0.cr.spec)[k].query);
    }
  }

  lemma SeenRead(p: Pass, q: Query, v: Reading, w0: World, n: nat)
    requires Seen(p, w0, n) && n < |Prog(w0.cr.spec)| && Prog(w0.cr.spec)[n] == Read(q) && Sight(q, w0) == Got(v)
    ensures Seen(p.(obs := p.obs[q := v]), w0, n + 1)
  {
    hide Prog, Sight, ItemKey;
    var p' := p.(obs := p.obs[q := v]);
    forall k: nat | k < n + 1 && k < |Prog(w0.cr.spec)| && Prog(w0.cr.spec)[k].Read?
      ensures Knows(p', w0, Prog(w0.cr.spec)[k].query)
    {
      if k < n {
        assert Knows(p, w0, Prog(w0.cr.spec)[k].query);
      }
    }
  }

  lemma NotYetMade(w0: World, n: nat, d: nat -> Draw, item: Item)
    requires n < |Prog(w0.cr.spec)| && Prog(w0.cr.spec)[n] == Create(item)
    ensures ItemKey(item, w0.cr) in After(w0, n, d).store <==> ItemKey(item, w0.cr) in w0.store
  {
    hide Prog, Effect, ItemKey;
    AfterKeeps(w0, 0, n, d);
    var k := ItemKey(item, w0.cr);
    if k in After(w0, n, d).store && k !in w0.store {
      var i := Maker(w0, n, d, k);
      assert MakesKey(Prog(w0.cr.spec)[n], k, w0.cr);
      OneMaker(w0.cr, i, n, k);
      ProgDistinct(w0.cr.spec, i, n);
    }
  }

  lemma CreateTracks(u: M, w0: World, n: nat, d: nat -> Draw, item: Item)
    requires Goes(u, w0, n, d) && Prog(w0.cr.spec)[n] == Create(item) && n + 1 < |Prog(w0.cr.spec)|
    ensures Tracks(DoCreate(u, n, u.ctl.p, item, NoFault, d(n)), w0, n + 1, d)
  {
    var p := u.ctl.p;
    AfterKeepsIdentity(w0, n, d);
    BuildAsViewed(w0, n, p, item, d(n));
    NotYetMade(w0, n, d, item);
    BuildKey(item, View(w0), d(n));
    SeenGrows(p, p.(existed := true), w0, n);
    SeenGrows(p, p.(existed := false), w0, n);
    SyncPositions(w0.cr.spec, n);
    CreatePositions(w0.cr.spec, n);
    hide Prog, Build, Seen, ItemKey, View, LiquibaseAt, Blocked;
    assert At(w0.cr.spec, n) == Create(item);
  }

  lemma ChangelogPositions(s: JiraSpec)
    ensures LiquibaseAt(s) + 2 < |Prog(s)|
    ensures Prog(s)[LiquibaseAt(s) + 1] == Create(ChangelogMap)
    ensures Prog(s)[LiquibaseAt(s) + 2] == Read(ChangelogData)
  {
    hide Prog, LiquibaseAt, StorageAt, PublishAt;
    ProgLength(s);
    Piece(s, 0);
    Piece(s, LiquibaseAt(s) + 1);
    Piece(s, LiquibaseAt(s) + 2);
  }

  lemma CreatePositions(s: JiraSpec, n: nat)
    requires n < |Prog(s)|
    ensures n == LiquibaseAt(s) + 1 <==> Prog(s)[n] == Create(ChangelogMap)
    ensures n == LiquibaseAt(s) + 2 <==> Prog(s)[n] == Read(ChangelogData)
  {
    hide Prog, LiquibaseAt;
    ChangelogPositions(s);
    RankAt(s, n);
  }

  lemma ReadTracks(u: M, w0: World, n: nat, d: nat -> Draw, q: Query)
    requires Goes(u, w0, n, d) && Prog(w0.cr.spec)[n] == Read(q) && n + 1 < |Prog(w0.cr.spec)|
    ensures Tracks(DoRead(u, n, u.ctl.p, q, NoFault), w0, n + 1, d)
  {
    var p := u.ctl.p;
    AfterKeepsIdentity(w0, n, d);
    CreatePositions(w0.cr.spec, n);
    SyncPositions(w0.cr.spec, n);
    if q == ChangelogData && ItemKey(ChangelogMap, w0.cr) !in w0.store {
      SkipSeen(p, w0, n);
    } else {
      PeekIsSight(w0, n, d, p, q);
      if Sight(q, w0).Got? {
        SeenRead(p, q, Sight(q, w0).r, w0, n);
      }
      if q == ChangelogData {
        ConfigMapSight(w0);
      }
    }
    hide Prog, Seen, ItemKey, LiquibaseAt, Peek, Sight;
    assert At(w0.cr.spec, n) == Read(q);
  }

  lemma ConfigMapSight(w0: World)
    ensures Sight(ChangelogData, w0).Got?
  {
  }

  lemma SkipSeen(p: Pass, w0: World, n: nat)
    requires Seen(p, w0, n) && n < |Prog(w0.cr.spec)| && Prog(w0.cr.spec)[n] == Read(ChangelogData)
    requires ItemKey(ChangelogMap, w0.cr) !in w0.store
    ensures Seen(p, w0, n + 1)
  {
    hide Prog, Sight, ItemKey;
  }

  lemma WaitTracks(u: M, w0: World, n: nat, d: nat -> Draw, g: Gate)
    requires Goes(u, w0, n, d) && Prog(w0.cr.spec)[n] == Wait(g) && n + 1 < |Prog(w0.cr.spec)|
    ensures Tracks(DoWait(u, n, u.ctl.p, g), w0, n + 1, d)
  {
    var p := u.ctl.p;
    AfterKeepsIdentity(w0, n, d);
    CreatePositions(w0.cr.spec, n);
    AfterWait(w0.cr.spec, n);
    UsedIsKnown(p, w0, n, GateQuery(g));
    SeenGrows(p, p, w0, n);
    NotChangelog(g);
    hide Prog, Seen, ItemKey, LiquibaseAt, Sight, Judge, GateQuery;
    assert At(w0.cr.spec, n) == Wait(g);
  }

  lemma NotChangelog(g: Gate)
    ensures GateQuery(g) != ChangelogData
  {
  }

  lemma AfterWait(s: JiraSpec, n: nat)
    requires n < |Prog(s)| && !Prog(s)[n].Create? && Prog(s)[n] != Read(ChangelogData)
    ensures n + 1 != LiquibaseAt(s) + 2 && n + 1 != LiquibaseAt(s) + 3
  {
    CreatePositions(s, n);
  }

  // ---- writes ------------------------------------------------------------------------------

  lemma FieldAsViewed(w0: World, n: nat, p: Pass, fld: Field)
    requires n < |Prog(w0.cr.spec)| && Prog(w0.cr.spec)[n] == Write(fld) && Seen(p, w0, n)
    ensures ValueOf(fld, p) == FieldValue(fld, w0)
  {
    hide Prog, Seen, Sight, TextOf, SightText, Knows;
    if fld != ResetField && fld != LiquibaseField {
      var q := Uses(Write(fld))[0];
      assert q in Uses(Write(fld));
      UsedIsKnown(p, w0, n, q);
      KnownText(p, w0, q);
    }
  }

  lemma SameStatus(s: JiraStatus, f: Field)
    ensures Set(s, f, Get(s, f)) == s
  {
  }

  lemma WriteTracks(u: M, w0: World, n: nat, d: nat -> Draw, fld: Field)
    requires Goes(u, w0, n, d) && Prog(w0.cr.spec)[n] == Write(fld) && n + 1 < |Prog(w0.cr.spec)|
    ensures Tracks(DoWrite(u, n, u.ctl.p, fld, NoFault), w0, n + 1, d)
  {
    hide Prog, Seen, ItemKey, LiquibaseAt, Blocked, ValueOf, FieldValue, Set, Get;
    var p := u.ctl.p;
    AfterKeepsIdentity(w0, n, d);
    FieldAsViewed(w0, n, p, fld);
    AfterWait(w0.cr.spec, n);
    SameStatus(p.jira.status, fld);
    var m' := DoWrite(u, n, p, fld, NoFault);
    assert At(w0.cr.spec, n) == Write(fld);
    SeenGrows(p, m'.ctl.p, w0, n);
  }

  lemma SecretStored(w0: World, n: nat, d: nat -> Draw)
    requires SYNC_SECRET_AT <= n <= |Prog(w0.cr.spec)|
    ensures ItemKey(DbSecret, w0.cr) in After(w0, n, d).store
  {
    ProgLength(w0.cr.spec);
    assert Prog(w0.cr.spec)[3] == Create(DbSecret);
    hide Prog, Effect, ItemKey;
    MadeStays(w0, 3, n, d);
  }

  lemma SyncUses()
    ensures SecretHost in Uses(SyncSecret) && RdsEndpoint in Uses(SyncSecret)
    ensures Changelog in Uses(SyncChangelog) && ChangelogData in Uses(SyncChangelog)
  {
  }

  lemma SameSecret(a: Jira, b: Jira, hostname: string, d: Draw)
    requires SameIdentity(a, b)
    ensures GetRdsSecret(a, hostname, a.name, d).key == ItemKey(DbSecret, b)
    ensures GetRdsSecret(a, hostname, a.name, d).body == GetRdsSecret(b, hostname, b.name, d).body
  {
  }

  lemma SyncSecretTracks(u: M, w0: World, n: nat, d: nat -> Draw)
    requires Goes(u, w0, n, d) && Prog(w0.cr.spec)[n] == SyncSecret && n + 1 < |Prog(w0.cr.spec)|
    ensures Tracks(DoSyncSecret(u, n, u.ctl.p, NoFault, d(n)), w0, n + 1, d)
  {
    hide Prog, Seen, LiquibaseAt, Blocked, TextOf, SightText, GetRdsSecret, ItemKey, Uses;
    var p := u.ctl.p;
    AfterKeepsIdentity(w0, n, d);
    AfterWait(w0.cr.spec, n);
    SyncPositions(w0.cr.spec, n);
    SecretStored(w0, n, d);
    SyncUses();
    SameSecret(p.jira, w0.cr, TextOf(p, RdsEndpoint), d(n));
    UsedIsKnown(p, w0, n, SecretHost);
    UsedIsKnown(p, w0, n, RdsEndpoint);
    KnownText(p, w0, SecretHost);
    KnownText(p, w0, RdsEndpoint);
    SeenGrows(p, p, w0, n);
    assert At(w0.cr.spec, n) == SyncSecret;
  }

  /** A config map made in this pass already holds the changelog. */
  lemma NewMapHoldsChangelog(w0: World, n: nat, d: nat -> Draw)
    requires n < |Prog(w0.cr.spec)| && Prog(w0.cr.spec)[n] == SyncChangelog
    ensures var k := ItemKey(ChangelogMap, w0.cr);
            k in After(w0, n, d).store
            && (k !in w0.store ==> After(w0, n, d).store[k].body == ConfigMapBody(SightText(Changelog, w0)))
  {
    var s := w0.cr.spec;
    var k := ItemKey(ChangelogMap, w0.cr);
    SyncPositions(s, n);
    ChangelogPositions(s);
    hide Prog, Effect, LiquibaseAt, ItemKey;
    MadeStays(w0, LiquibaseAt(s) + 1, n, d);
    if k !in w0.store {
      var i := Maker(w0, n, d, k);
      MapKey(w0.cr);
      EarlyBody(w0, i + 1, n, d, k);
      assert MakesKey(Prog(s)[LiquibaseAt(s) + 1], k, w0.cr);
      OneMaker(w0.cr, i, LiquibaseAt(s) + 1, k);
      MapBody(w0, d(i));
    }
  }

  lemma MapKey(j: Jira)
    ensures ItemKey(ChangelogMap, j).kind == ConfigMap
  {
  }

  lemma MapBody(w0: World, d: Draw)
    ensures Build(ChangelogMap, View(w0), d).body == ConfigMapBody(SightText(Changelog, w0))
  {
    ViewText(w0, Changelog);
    hide TextOf, View, SightText;
  }

  lemma SyncChangelogStep(w0: World, n: nat, d: nat -> Draw)
    requires n < |Prog(w0.cr.spec)| && Prog(w0.cr.spec)[n] == SyncChangelog
    ensures var w := After(w0, n, d);
            After(w0, n + 1, d) ==
            if ItemKey(ChangelogMap, w0.cr) in w0.store && SightText(ChangelogData, w0) == SightText(Changelog, w0) then w
            else SetBody(w, ItemKey(ChangelogMap, w0.cr), ConfigMapBody(SightText(Changelog, w0)))
  {
    hide Prog, SightText, ItemKey, SetBody;
  }

  lemma SyncChangelogTracks(u: M, w0: World, n: nat, d: nat -> Draw)
    requires Goes(u, w0, n, d) && Prog(w0.cr.spec)[n] == SyncChangelog && n + 1 < |Prog(w0.cr.spec)|
    ensures Tracks(DoSyncChangelog(u, n, u.ctl.p, NoFault), w0, n + 1, d)
  {
    hide Prog, Seen, LiquibaseAt, Blocked, TextOf, SightText, GetLiquibaseConfigMap, ItemKey, Uses, Effect, After;
    var p := u.ctl.p;
    AfterKeepsIdentity(w0, n, d);
    AfterWait(w0.cr.spec, n);
    SyncPositions(w0.cr.spec, n);
    NewMapHoldsChangelog(w0, n, d);
    SyncUses();
    UsedIsKnown(p, w0, n, Changelog);
    UsedIsKnown(p, w0, n, ChangelogData);
    KnownText(p, w0, Changelog);
    if ItemKey(ChangelogMap, w0.cr) in w0.store {
      KnownData(p, w0);
    }
    SeenGrows(p, p, w0, n);
    SameConfigMap(p.jira, w0.cr, TextOf(p, Changelog));
    SyncChangelogStep(w0, n, d);
  }

  lemma SameConfigMap(a: Jira, b: Jira, c: string)
    requires SameIdentity(a, b)
    ensures GetLiquibaseConfigMap(a, a.name, c).key == ItemKey(ChangelogMap, b)
    ensures GetLiquibaseConfigMap(a, a.name, c).body == ConfigMapBody(c)
  {
  }

  lemma KnownData(p: Pass, w0: World)
    requires Knows(p, w0, ChangelogData) && ItemKey(ChangelogMap, w0.cr) in w0.store
    ensures TextOf(p, ChangelogData) == SightText(ChangelogData, w0)
  {
    hide Sight, ItemKey;
  }

  lemma RenderTracks(u: M, w0: World, n: nat, d: nat -> Draw)
    requires Goes(u, w0, n, d) && Prog(w0.cr.spec)[n] == RenderManifest && n + 1 < |Prog(w0.cr.spec)|
    ensures Tracks(DoRender(u, n, u.ctl.p, NoFault), w0, n + 1, d)
  {
    hide Prog, Seen, LiquibaseAt, Blocked, GetApplicationSet, ItemKey;
    var p := u.ctl.p;
    AfterKeepsIdentity(w0, n, d);
    AfterWait(w0.cr.spec, n);
    SameApplicationSet(p.jira, w0.cr);
    SeenGrows(p, p, w0, n);
    assert At(w0.cr.spec, n) == RenderManifest;
  }

  lemma RenderBeforeApply(s: JiraSpec, n: nat)
    requires n < |Prog(s)| && Prog(s)[n] == ApplyManifest
    ensures n > 0 && Prog(s)[n - 1] == RenderManifest
  {
    RankAt(s, n);
    Piece(s, n - 1);
    hide Prog, LiquibaseAt, StorageAt, PublishAt;
  }

  lemma ManifestRendered(w0: World, n: nat, d: nat -> Draw)
    requires n < |Prog(w0.cr.spec)| && Prog(w0.cr.spec)[n] == ApplyManifest
    ensures ManifestPath(w0.cr) in After(w0, n, d).files
    ensures After(w0, n, d).files[ManifestPath(w0.cr)] == GetApplicationSet(w0.cr)
  {
    hide Prog, GetApplicationSet, ManifestPath;
    RenderBeforeApply(w0.cr.spec, n);
  }

  lemma ApplyTracks(u: M, w0: World, n: nat, d: nat -> Draw)
    requires Goes(u, w0, n, d) && Prog(w0.cr.spec)[n] == ApplyManifest && n + 1 < |Prog(w0.cr.spec)|
    ensures Tracks(DoApply(u, n, u.ctl.p, NoFault, d(n)), w0, n + 1, d)
  {
    hide Prog, Seen, LiquibaseAt, Blocked, GetApplicationSet, ItemKey, Build, View;
    var p := u.ctl.p;
    AfterKeepsIdentity(w0, n, d);
    AfterWait(w0.cr.spec, n);
    ManifestRendered(w0, n, d);
    SetAsBuilt(p, d(n));
    SetAsBuilt(View(w0), d(n));
    AppSetKey(w0.cr);
    SeenGrows(p, p, w0, n);
    assert At(w0.cr.spec, n) == ApplyManifest;
  }

  // ---- the whole pass ----------------------------------------------------------------------

  lemma StepTracks(u: M, w0: World, n: nat, d: nat -> Draw)
    requires Goes(u, w0, n, d)
    ensures Tracks(Step(u, Call(NoFault, d(n))), w0, n + 1, d)
  {
    EndBlocks(w0.cr.spec, w0);
    AfterKeepsIdentity(w0, n, d);
    FinishIsLast(w0.cr.spec, n);
    UnfoldCall(u, n, u.ctl.p, NoFault, d(n));
    hide Prog, Tracks, Exec, After, Blocked;
    match Prog(w0.cr.spec)[n]
    case Create(item) => CreateTracks(u, w0, n, d, item);
    case Read(q) => ReadTracks(u, w0, n, d, q);
    case Wait(g) => WaitTracks(u, w0, n, d, g);
    case Write(fld) => WriteTracks(u, w0, n, d, fld);
    case SyncSecret => SyncSecretTracks(u, w0, n, d);
    case SyncChangelog => SyncChangelogTracks(u, w0, n, d);
    case RenderManifest => RenderTracks(u, w0, n, d);
    case ApplyManifest => ApplyTracks(u, w0, n, d);
  }

  /** At the first closed gate the pass ends, with that gate's requeue delay. */
  lemma StopEnds(u: M, w0: World, n: nat, d: nat -> Draw)
    requires Tracks(u, w0, n, d) && Blocked(Prog(w0.cr.spec)[n], w0).Some?
    ensures var m' := Step(u, Call(NoFault, d(n)));
            m'.w == u.w && m'.ctl == Idle(Blocked(Prog(w0.cr.spec)[n], w0).value)
  {
    var p := u.ctl.p;
    AfterKeepsIdentity(w0, n, d);
    assert At(w0.cr.spec, n) == Prog(w0.cr.spec)[n];
    UnfoldCall(u, n, p, NoFault, d(n));
    hide Exec, Seen, After;
    match Prog(w0.cr.spec)[n]
    case Read(q) =>
      PeekIsSight(w0, n, d, p, q);
      SecretSight(w0);
      hide Prog, Peek, Sight;
    case Wait(g) =>
      UsedIsKnown(p, w0, n, GateQuery(g));
      NotChangelog(g);
      hide Prog, Sight, Judge, GateQuery;
    case Finish => hide Prog;
  }

  lemma SecretSight(w0: World)
    ensures Sight(SecretHost, w0).Got?
  {
  }

  lemma CallsUnfold(m: M, d: nat -> Draw, n: nat)
    ensures Calls(m, d, n + 1) == Step(Calls(m, d, n), Call(NoFault, d(n)))
  {
    hide Step;
  }

  lemma BeginTracks(m: M, d: nat -> Draw)
    requires m.ctl.Idle?
    ensures Tracks(Step(m, Begin(NoFault)), m.w, 0, d)
  {
    ProgLength(m.w.cr.spec);
    hide Prog;
  }

  lemma {:induction false} CallsTrack(m: M, d: nat -> Draw, n: nat)
    requires m.ctl.Idle? && n <= Stop(m.w)
    ensures Tracks(Calls(Step(m, Begin(NoFault)), d, n), m.w, n, d)
  {
    hide Prog, Tracks, Step;
    BeginTracks(m, d);
    if n > 0 {
      CallsTrack(m, d, n - 1);
      TrackGoes(Calls(Step(m, Begin(NoFault)), d, n - 1), m.w, n - 1, d);
      StepTracks(Calls(Step(m, Begin(NoFault)), d, n - 1), m.w, n - 1, d);
    }
  }

  lemma TrackGoes(u: M, w0: World, n: nat, d: nat -> Draw)
    requires Tracks(u, w0, n, d) && n < Stop(w0)
    ensures Goes(u, w0, n, d)
  {
    hide Prog, Blocked, Seen, After;
  }

  lemma {:induction false} IdleStays(m: M, d: nat -> Draw, a: nat, n: nat)
    requires a <= n && Calls(m, d, a).ctl.Idle?
    ensures Calls(m, d, n) == Calls(m, d, a)
  {
    if a < n {
      IdleStays(m, d, a, n - 1);
    }
  }

  /** Refinement: whatever passwords are drawn, a fault-free pass leaves exactly what the plan up to the
      first closed gate makes of the world, and returns what that gate asks for. */
  lemma CleanPassRefines(m: M, d: nat -> Draw)
    requires m.ctl.Idle?
    ensures var n := Stop(m.w);
            && CleanPassOf(m, d).w == After(m.w, n, d)
            && CleanPassOf(m, d).ctl == Idle(Blocked(Prog(m.w.cr.spec)[n], m.w).value)
  {
    var n := Stop(m.w);
    var u := Step(m, Begin(NoFault));
    hide Prog, Step, Blocked, After;
    CallsTrack(m, d, n);
    assert Calls(u, d, n).w == After(m.w, n, d);
    hide Tracks;
    StopEnds(Calls(u, d, n), m.w, n, d);
    CallsUnfold(u, d, n);
    IdleStays(u, d, n + 1, |Prog(m.w.cr.spec)|);
  }
}
