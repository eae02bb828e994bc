/** One pass of the machine without faults, with nothing else happening, does what Ideal says. */
module CleanPass {
  import opened Api
  import opened Plan
  import opened Machine
  import opened Soundness
  import opened Ideal
  import Order

  /** n calls in a row. */
  function Calls(m: M, d: nat -> Draw, n: nat): M
  {
    if n == 0 then m else Step(Calls(m, d, n - 1), Call(NoFault, d(n - 1)))
  }

  /** A pass begun now, with as many calls as the program has instructions. */
  function CleanPassOf(m: M, d: nat -> Draw): M
  {
    Calls(Step(m, Begin(NoFault)), d, |Prog(m.w.cr.spec)|)
  }

  function CallEvents(d: nat -> Draw, n: nat): seq<Event>
  {
    if n == 0 then [] else CallEvents(d, n - 1) + [Call(NoFault, d(n - 1))]
  }

  /** Such a pass is one of the machine's runs. */
  lemma {:induction false} CallsAreRun(m: M, d: nat -> Draw, n: nat)
    ensures Calls(m, d, n) == Run(m, CallEvents(d, n))
  {
    hide Step;
    if n > 0 {
      CallsAreRun(m, d, n - 1);
      RunSnoc(m, CallEvents(d, n - 1), Call(NoFault, d(n - 1)));
    }
  }

  // ---- what the pass knows ---------------------------------------------------------------

  ghost predicate Seen(p: Pass, w0: World, n: nat)
  {
    forall k: nat | k < n && k < |Prog(w0.cr.spec)| && Prog(w0.cr.spec)[k].Read? ::
      Knows(p, w0, Prog(w0.cr.spec)[k].query)
  }

  ghost predicate Knows(p: Pass, w0: World, q: Query)
  {
    || (q == ChangelogData && ItemKey(ChangelogMap, w0.cr) !in w0.store)
    || (q in p.obs && Sight(q, w0) == Got(p.obs[q]))
  }

  ghost predicate Tracks(u: M, w0: World, n: nat, d: nat -> Draw)
  {
    && n < |Prog(w0.cr.spec)|
    && u.ctl.Running? && u.ctl.pos == n
    && u.w == After(w0, n, d) && u.ctl.p.jira == u.w.cr
    && Seen(u.ctl.p, w0, n)
    && (n == LiquibaseAt(w0.cr.spec) + 2 || n == LiquibaseAt(w0.cr.spec) + 3 ==>
          (u.ctl.p.existed <==> ItemKey(ChangelogMap, w0.cr) in w0.store))
  }

  lemma KnownText(p: Pass, w0: World, q: Query)
    requires Knows(p, w0, q) && q != ChangelogData
    ensures TextOf(p, q) == SightText(q, w0)
  {
    hide Sight;
  }

  // ---- what stands in front of what ------------------------------------------------------

  /** The reads whose results an instruction uses. */
  function Uses(i: Instr): seq<Query>
  {
    match i
    case Create(ChangelogMap) => [Changelog]
    case Create(NfsPv) => [VolumeId]
    case Create(SharedNfsPv) => [ServiceIp]
    case Create(Target(_)) => [FileSystemId]
    case Create(EfsPv) => [FileSystemId]
    case Wait(g) => [GateQuery(g)]
    case Read(VolumeHandle) => [ClaimVolume]
    case Write(RdsStatusField) => [RdsStatus]
    case Write(EndpointField) => [RdsEndpoint]
    case Write(EbsIdField) => [VolumeId]
    case Write(FsxIdField) => [VolumeHandle]
    case Write(EfsIdField) => [FileSystemId]
    case Write(SyncField) => [AppSync]
    case Write(HealthField) => [AppHealth]
    case SyncSecret => [RdsEndpoint, SecretHost]
    case SyncChangelog => [Changelog, ChangelogData]
    case _ => []
  }

  /** Where a query is read. */
  function ReadAt(q: Query, s: JiraSpec): int
  {
    Rank(Read(q), s)
  }

  lemma EbsUses(s: JiraSpec, k: nat, q: Query)
    requires BackendOf(s) == Ebs && k < |EBS| && q in Uses(EBS[k])
    ensures StorageAt(s) <= ReadAt(q, s) < StorageAt(s) + k && EBS[ReadAt(q, s) - StorageAt(s)] == Read(q)
  {
    hide StorageAt, PublishAt, LiquibaseAt;
  }

  lemma FsxUses(s: JiraSpec, k: nat, q: Query)
    requires BackendOf(s) == Fsx && k < |FSX| && q in Uses(FSX[k])
    ensures StorageAt(s) <= ReadAt(q, s) < StorageAt(s) + k && FSX[ReadAt(q, s) - StorageAt(s)] == Read(q)
  {
    hide StorageAt, PublishAt, LiquibaseAt;
  }

  lemma TargetUses(s: JiraSpec, k: nat, q: Query)
    requires q in Uses(TargetInstr(k))
    ensures q == FileSystemId || (q == TargetState(k / 3) && k % 3 == 2)
  {
  }

  lemma FileSystemReadAt(s: JiraSpec)
    requires BackendOf(s) == Efs
    ensures ReadAt(FileSystemId, s) == StorageAt(s) + 1 && |Storage(s)| > 5 && Storage(s)[1] == Read(FileSystemId)
  {
    EfsLayout(s, 1);
    hide StorageAt;
  }

  lemma TargetReadAt(s: JiraSpec, k: nat)
    requires BackendOf(s) == Efs && k < 3 * |s.network.subnetIds| && k % 3 == 2
    ensures |Storage(s)| == 6 + 3 * |s.network.subnetIds|
    ensures ReadAt(TargetState(k / 3), s) == StorageAt(s) + 2 + k && Storage(s)[2 + k] == Read(TargetState(k / 3))
  {
    Order.EfsLength(s);
    EfsLayout(s, 2 + k);
    hide StorageAt, Storage;
    assert k == 3 * (k / 3) + 2;
    assert (k - 1) / 3 == k / 3 && (k - 1) % 3 == 1;
  }

  lemma EfsUses(s: JiraSpec, k: nat, q: Query)
    requires BackendOf(s) == Efs && k < |Storage(s)| && q in Uses(Storage(s)[k])
    ensures StorageAt(s) <= ReadAt(q, s) < StorageAt(s) + k && Storage(s)[ReadAt(q, s) - StorageAt(s)] == Read(q)
  {
    EfsLayout(s, k);
    FileSystemReadAt(s);
    hide Storage, StorageAt, Rank;
    if 3 <= k < 3 + 3 * |s.network.subnetIds| {
      hide Uses, ReadAt;
      TargetUses(s, k - 3, q);
      if q != FileSystemId {
        TargetReadAt(s, k - 3);
      }
    } else {
      hide ReadAt;
    }
  }

  lemma DatabaseUses(s: JiraSpec, k: nat, q: Query)
    requires k < |DATABASE| && q in Uses(DATABASE[k])
    ensures 0 <= ReadAt(q, s) < k && DATABASE[ReadAt(q, s)] == Read(q)
  {
    hide StorageAt, PublishAt, LiquibaseAt;
  }

  lemma ResetUses(s: JiraSpec, k: nat, q: Query)
    requires k < |RESET| && q in Uses(RESET[k])
    ensures 13 <= ReadAt(q, s) < 13 + k && RESET[ReadAt(q, s) - 13] == Read(q)
  {
    hide StorageAt, PublishAt, LiquibaseAt;
  }

  lemma LiquibaseUses(s: JiraSpec, k: nat, q: Query)
    requires k < |LIQUIBASE| && q in Uses(LIQUIBASE[k])
    ensures LiquibaseAt(s) <= ReadAt(q, s) < LiquibaseAt(s) + k && LIQUIBASE[ReadAt(q, s) - LiquibaseAt(s)] == Read(q)
  {
    hide StorageAt, PublishAt, LiquibaseAt;
  }

  lemma PublishUses(s: JiraSpec, k: nat, q: Query)
    requires k < |PUBLISH| && q in Uses(PUBLISH[k])
    ensures PublishAt(s) <= ReadAt(q, s) < PublishAt(s) + k && PUBLISH[ReadAt(q, s) - PublishAt(s)] == Read(q)
  {
    hide StorageAt, PublishAt, LiquibaseAt;
  }

  /** The segments of the program, read off one position at a time. */
  lemma Piece(s: JiraSpec, at: nat)
    requires at < |Prog(s)|
    ensures at < |DATABASE| ==> Prog(s)[at] == DATABASE[at]
    ensures |DATABASE| <= at < LiquibaseAt(s) ==> at - |DATABASE| < |RESET| && Prog(s)[at] == RESET[at - |DATABASE|]
    ensures LiquibaseAt(s) <= at < StorageAt(s) ==> Prog(s)[at] == LIQUIBASE[at - LiquibaseAt(s)]
    ensures PublishAt(s) <= at ==> Prog(s)[at] == PUBLISH[at - PublishAt(s)]
    ensures LiquibaseAt(s) <= |DATABASE| + |RESET| && StorageAt(s) == LiquibaseAt(s) + |LIQUIBASE| <= PublishAt(s)
    ensures LiquibaseAt(s) == |DATABASE| || LiquibaseAt(s) == |DATABASE| + |RESET|
    ensures |Prog(s)| == PublishAt(s) + |PUBLISH|
  {
    Segments(s, at);
    hide Storage;
  }

  lemma HeadUses(s: JiraSpec, n: nat, q: Query)
    requires n < |Prog(s)| && q in Uses(Prog(s)[n]) && !(StorageAt(s) <= n < PublishAt(s))
    ensures 0 <= ReadAt(q, s) < n && Prog(s)[ReadAt(q, s)] == Read(q)
  {
    hide Prog, Uses, ReadAt, LiquibaseAt, StorageAt, PublishAt;
    Piece(s, n);
    if n < |DATABASE| {
      DatabaseUses(s, n, q);
    } else if n < LiquibaseAt(s) {
      ResetUses(s, n - |DATABASE|, q);
    } else if n < StorageAt(s) {
      LiquibaseUses(s, n - LiquibaseAt(s), q);
    } else {
      PublishUses(s, n - PublishAt(s), q);
    }
    Piece(s, ReadAt(q, s));
  }

  lemma UsesBefore(s: JiraSpec, n: nat, q: Query)
    requires n < |Prog(s)| && q in Uses(Prog(s)[n])
    ensures 0 <= ReadAt(q, s) < n && Prog(s)[ReadAt(q, s)] == Read(q)
  {
    if StorageAt(s) <= n < PublishAt(s) {
      Segments(s, n);
      hide Prog, Uses, ReadAt, StorageAt, PublishAt;
      var k := n - StorageAt(s);
      StorageUses(s, k, q);
      StorageSegment(s, ReadAt(q, s) - StorageAt(s));
    } else {
      hide Prog, Uses, ReadAt, StorageAt, PublishAt;
      HeadUses(s, n, q);
    }
  }

  lemma StorageUses(s: JiraSpec, k: nat, q: Query)
    requires k < |Storage(s)| && q in Uses(Storage(s)[k])
    ensures StorageAt(s) <= ReadAt(q, s) < StorageAt(s) + k && Storage(s)[ReadAt(q, s) - StorageAt(s)] == Read(q)
  {
    hide StorageAt, Uses, ReadAt;
    match BackendOf(s) {
      case Ebs => EbsUses(s, k, q);
      case Fsx => FsxUses(s, k, q);
      case Efs => EfsUses(s, k, q);
    }
  }

  lemma UsedIsKnown(p: Pass, w0: World, n: nat, q: Query)
    requires n < |Prog(w0.cr.spec)| && q in Uses(Prog(w0.cr.spec)[n]) && Seen(p, w0, n)
    ensures Knows(p, w0, q)
  {
    UsesBefore(w0.cr.spec, n, q);
    hide Prog, Uses, ReadAt, Sight;
    assert Prog(w0.cr.spec)[ReadAt(q, w0.cr.spec)].query == q;
  }

  /** Where the object of a query is created. */
  lemma EbsObjects(s: JiraSpec, k: nat)
    requires k < |EBS| && EBS[k].Read?
    ensures QueryItem(EBS[k].query).Some?
    ensures var at := Rank(Create(QueryItem(EBS[k].query).value), s) - StorageAt(s);
            0 <= at < k && EBS[at] == Create(QueryItem(EBS[k].query).value)
  {
    hide StorageAt, PublishAt, LiquibaseAt;
  }

  lemma FsxObjects(s: JiraSpec, k: nat)
    requires k < |FSX| && FSX[k].Read? && QueryItem(FSX[k].query).Some?
    ensures var at := Rank(Create(QueryItem(FSX[k].query).value), s) - StorageAt(s);
            0 <= at < k && FSX[at] == Create(QueryItem(FSX[k].query).value)
  {
    hide StorageAt, PublishAt, LiquibaseAt;
  }

  lemma EfsObjects(s: JiraSpec, k: nat)
    requires BackendOf(s) == Efs && k < |Storage(s)| && Storage(s)[k].Read?
    ensures QueryItem(Storage(s)[k].query).Some?
    ensures var at := Rank(Create(QueryItem(Storage(s)[k].query).value), s) - StorageAt(s);
            0 <= at < k && Storage(s)[at] == Create(QueryItem(Storage(s)[k].query).value)
  {
    EfsLayout(s, k);
    EfsLayout(s, 0);
    hide Storage, StorageAt, PublishAt, LiquibaseAt;
    if 3 <= k {
      EfsLayout(s, k - 1);
      assert (k - 3) == 3 * ((k - 3) / 3) + 1;
    }
  }

  lemma StorageObjects(s: JiraSpec, k: nat)
    requires k < |Storage(s)| && Storage(s)[k].Read? && QueryItem(Storage(s)[k].query).Some?
    ensures var at := Rank(Create(QueryItem(Storage(s)[k].query).value), s) - StorageAt(s);
            0 <= at < k && Storage(s)[at] == Create(QueryItem(Storage(s)[k].query).value)
  {
    hide StorageAt, QueryItem, Rank;
    match BackendOf(s) {
      case Ebs => EbsObjects(s, k);
      case Fsx => FsxObjects(s, k);
      case Efs => EfsObjects(s, k);
    }
  }

  predicate HasObject(i: Instr)
  {
    i.Read? && QueryItem(i.query).Some?
  }

  function MakerOf(i: Instr): Instr
  {
    if HasObject(i) then Create(QueryItem(i.query).value) else Finish
  }

  lemma DatabaseObjects(s: JiraSpec, k: nat)
    requires k < |DATABASE| && HasObject(DATABASE[k])
    ensures 0 <= Rank(MakerOf(DATABASE[k]), s) < k && DATABASE[Rank(MakerOf(DATABASE[k]), s)] == MakerOf(DATABASE[k])
  {
    hide StorageAt, PublishAt, LiquibaseAt;
  }

  lemma ResetObjects(s: JiraSpec, k: nat)
    requires k < |RESET| && HasObject(RESET[k])
    ensures var at := Rank(MakerOf(RESET[k]), s) - 13; 0 <= at < k && RESET[at] == MakerOf(RESET[k])
  {
    hide StorageAt, PublishAt, LiquibaseAt;
  }

  lemma LiquibaseObjects(s: JiraSpec, k: nat)
    requires k < |LIQUIBASE| && HasObject(LIQUIBASE[k])
    ensures var at := Rank(MakerOf(LIQUIBASE[k]), s) - LiquibaseAt(s); 0 <= at < k && LIQUIBASE[at] == MakerOf(LIQUIBASE[k])
  {
    hide StorageAt, PublishAt, LiquibaseAt;
  }

  /** Every object is created before it is read, within the same pass. */
  lemma ObjectBefore(s: JiraSpec, n: nat) returns (k: nat)
    requires n < |Prog(s)| && HasObject(Prog(s)[n])
    ensures k < n && Prog(s)[k] == MakerOf(Prog(s)[n])
  {
    Piece(s, n);
    if StorageAt(s) <= n < PublishAt(s) {
      Segments(s, n);
      hide Prog, QueryItem, StorageAt, PublishAt, Rank;
      StorageObjects(s, n - StorageAt(s));
      k := Rank(MakerOf(Prog(s)[n]), s) - StorageAt(s);
      StorageSegment(s, k);
      k := StorageAt(s) + k;
    } else {
      hide Prog, QueryItem, StorageAt, PublishAt, LiquibaseAt, Rank, HasObject, MakerOf;
      k := 0;
      if n < |DATABASE| {
        DatabaseObjects(s, n);
      } else if n < LiquibaseAt(s) {
        ResetObjects(s, n - |DATABASE|);
      } else if n < StorageAt(s) {
        LiquibaseObjects(s, n - LiquibaseAt(s));
      } else {
        PublishHasNoObjects(n - PublishAt(s));
      }
      k := Rank(MakerOf(Prog(s)[n]), s);
      Piece(s, k);
    }
  }

  lemma PublishHasNoObjects(k: nat)
    requires k < |PUBLISH|
    ensures !HasObject(PUBLISH[k])
  {
  }
}
