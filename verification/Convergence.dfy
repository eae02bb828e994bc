/** How many passes it takes: the closed gates are a measure that passes leave alone and the environment
    lowers, and there are linearly many of them in the number of subnets. */
module Convergence {
  import opened Api
  import opened Plan
  import opened Machine
  import opened Safety
  import opened Frame
  import opened Ideal
  import opened CleanPass
  import opened Refinement
  import opened Fixpoint

  // ---- counting gates ----------------------------------------------------------------------

  /** The instructions a fault-free pass can stop at before its end: the waits, and the reads of what
      others provide, namely the changelog file, the bound volume and the application. */
  predicate IsGate(i: Instr)
  {
    || i.Wait?
    || (i.Read? && i.query in {Changelog, VolumeHandle, AppSync, AppHealth})
  }

  function GateCount(prog: seq<Instr>): nat
  {
    if prog == [] then 0 else (if IsGate(prog[0]) then 1 else 0) + GateCount(prog[1..])
  }

  /** The database's availability and endpoint, the changelog and its job, the two questions about the
      application; the password reset of a restored database; and the gates of the branch. */
  function Gates(s: JiraSpec): nat
  {
    6 + (if s.database.snapshotId != "" then 1 else 0)
    + match BackendOf(s) case Ebs => 3 case Fsx => 2 case Efs => 1 + |s.network.subnetIds|
  }

  lemma {:induction false} GateCountAdds(a: seq<Instr>, b: seq<Instr>)
    ensures GateCount(a + b) == GateCount(a) + GateCount(b)
  {
    hide IsGate;
    if a == [] {
      assert a + b == b;
    } else {
      GateCountAdds(a[1..], b);
      assert (a + b)[1..] == a[1..] + b;
    }
  }

  lemma OneTarget(i: nat)
    ensures GateCount([Create(Target(i)), Read(TargetState(i)), Wait(TargetAvailable(i))]) == 1
  {
    var three := [Create(Target(i)), Read(TargetState(i)), Wait(TargetAvailable(i))];
    assert three[1..] == [Read(TargetState(i)), Wait(TargetAvailable(i))];
    assert three[1..][1..] == [Wait(TargetAvailable(i))];
    assert three[1..][1..][1..] == [];
    assert GateCount(three[1..][1..]) == 1;
    assert GateCount(three[1..]) == 1;
  }

  lemma TargetsSnoc(i: nat)
    ensures Targets(i + 1) == Targets(i) + [Create(Target(i)), Read(TargetState(i)), Wait(TargetAvailable(i))]
  {
    assert (3 * i) / 3 == i && (3 * i) % 3 == 0;
    assert (3 * i + 1) / 3 == i && (3 * i + 1) % 3 == 1;
    assert (3 * i + 2) / 3 == i && (3 * i + 2) % 3 == 2;
  }

  lemma {:induction false} GatesOfTargets(n: nat)
    ensures GateCount(Targets(n)) == n
  {
    if n > 0 {
      hide Targets;
      GatesOfTargets(n - 1);
      TargetsSnoc(n - 1);
      OneTarget(n - 1);
      GateCountAdds(Targets(n - 1), [Create(Target(n - 1)), Read(TargetState(n - 1)), Wait(TargetAvailable(n - 1))]);
    }
  }

  lemma {:induction false} NoGates(prog: seq<Instr>)
    requires forall k | 0 <= k < |prog| :: !IsGate(prog[k])
    ensures GateCount(prog) == 0
  {
    hide IsGate;
    if prog != [] {
      NoGates(prog[1..]);
    }
  }

  /** The count, from the first gate on. */
  lemma FirstGate(prog: seq<Instr>, k: nat)
    requires k < |prog| && IsGate(prog[k]) && forall i | 0 <= i < k :: !IsGate(prog[i])
    ensures GateCount(prog) == 1 + GateCount(prog[k + 1..])
  {
    hide IsGate;
    GateCountAdds(prog[..k], prog[k..]);
    assert prog[..k] + prog[k..] == prog;
    NoGates(prog[..k]);
    assert prog[k..][1..] == prog[k + 1..];
  }

  lemma GatesOfHead()
    ensures GateCount(DATABASE) == 2 && GateCount(RESET) == 1 && GateCount(LIQUIBASE) == 2
  {
    hide GateCount;
    FirstGate(DATABASE, 7);
    FirstGate(DATABASE[8..], 1);
    NoGates(DATABASE[8..][2..]);
    FirstGate(RESET, 3);
    NoGates(RESET[4..]);
    FirstGate(LIQUIBASE, 0);
    FirstGate(LIQUIBASE[1..], 5);
    NoGates(LIQUIBASE[1..][6..]);
  }

  lemma GatesOfBranches()
    ensures GateCount(EBS) == 3 && GateCount(FSX) == 2 && GateCount(EFS_HEAD) == 1 && GateCount(EFS_TAIL) == 0
  {
    hide GateCount;
    FirstGate(EBS, 2);
    FirstGate(EBS[3..], 4);
    FirstGate(EBS[3..][5..], 2);
    NoGates(EBS[3..][5..][3..]);
    FirstGate(FSX, 4);
    FirstGate(FSX[5..], 1);
    NoGates(FSX[5..][2..]);
    FirstGate(EFS_HEAD, 2);
    NoGates(EFS_HEAD[3..]);
    NoGates(EFS_TAIL);
  }

  lemma GatesOfPublish()
    ensures GateCount(PUBLISH) == 2
  {
    hide GateCount;
    FirstGate(PUBLISH, 2);
    FirstGate(PUBLISH[3..], 1);
    NoGates(PUBLISH[3..][2..]);
  }

  lemma GatesOfEfs(n: nat)
    ensures GateCount(EFS_HEAD + Targets(n) + EFS_TAIL) == 1 + n
  {
    GatesOfBranches();
    GatesOfTargets(n);
    GateCountAdds(EFS_HEAD, Targets(n));
    GateCountAdds(EFS_HEAD + Targets(n), EFS_TAIL);
    hide GateCount, Targets;
  }

  lemma GatesOfStorage(s: JiraSpec)
    ensures GateCount(Storage(s)) == match BackendOf(s) case Ebs => 3 case Fsx => 2 case Efs => 1 + |s.network.subnetIds|
  {
    hide GateCount, Targets;
    match BackendOf(s)
    case Ebs => GatesOfBranches();
    case Fsx => GatesOfBranches();
    case Efs => GatesOfEfs(|s.network.subnetIds|);
  }

  lemma FiveParts(a: seq<Instr>, b: seq<Instr>, c: seq<Instr>, d: seq<Instr>, e: seq<Instr>)
    ensures GateCount(a + b + c + d + e) ==
            GateCount(a) + GateCount(b) + GateCount(c) + GateCount(d) + GateCount(e)
  {
    hide GateCount;
    GateCountAdds(a, b);
    GateCountAdds(a + b, c);
    GateCountAdds(a + b + c, d);
    GateCountAdds(a + b + c + d, e);
  }

  lemma GatesOfReset(s: JiraSpec)
    ensures GateCount(Reset(s)) == if s.database.snapshotId != "" then 1 else 0
  {
    hide GateCount;
    GatesOfHead();
    NoGates([]);
  }

  /** The number of gates is linear in the number of subnets. */
  lemma GatesOfProg(s: JiraSpec)
    ensures GateCount(Prog(s)) == Gates(s)
  {
    FiveParts(DATABASE, Reset(s), LIQUIBASE, Storage(s), PUBLISH);
    hide GateCount, Storage, Reset;
    GatesOfHead();
    GatesOfReset(s);
    GatesOfStorage(s);
    GatesOfPublish();
  }

  // ---- the measure -------------------------------------------------------------------------

  predicate IsClosed(i: Instr, w: World)
  {
    IsGate(i) && Blocked(i, w).Some?
  }

  function ClosedIn(prog: seq<Instr>, w: World): (n: nat)
    ensures n <= GateCount(prog)
  {
    if prog == [] then 0 else (if IsClosed(prog[0], w) then 1 else 0) + ClosedIn(prog[1..], w)
  }

  function Closed(w: World): nat
  {
    ClosedIn(Prog(w.cr.spec), w)
  }

  lemma {:induction false} FewerClosed(prog: seq<Instr>, w: World, w': World)
    requires forall i | i in prog && IsClosed(i, w') :: IsClosed(i, w)
    ensures ClosedIn(prog, w') <= ClosedIn(prog, w)
    ensures (exists i :: i in prog && IsClosed(i, w) && !IsClosed(i, w')) ==> ClosedIn(prog, w') < ClosedIn(prog, w)
  {
    hide IsClosed;
    if prog != [] {
      FewerClosed(prog[1..], w, w');
    }
  }

  lemma {:induction false} NoneClosed(prog: seq<Instr>, w: World, i: Instr)
    requires i in prog && IsClosed(i, w)
    ensures ClosedIn(prog, w) > 0
  {
    hide IsClosed;
    if prog[0] != i {
      NoneClosed(prog[1..], w, i);
    }
  }

  lemma OnlyGatesBlock(i: Instr, w: World)
    requires Blocked(i, w).Some? && i != Finish
    ensures IsGate(i)
  {
    if i.Read? && QueryItem(i.query).Some? {
      SightOfObject(i.query, w);
      ObjectsAreReadable(i.query, ObjectOf(QueryItem(i.query).value, w));
      hide Sight;
    }
  }

  lemma ObjectsAreReadable(q: Query, o: Obj)
    requires QueryItem(q).Some?
    ensures Extract(q, o).Got?
  {
  }

  // ---- an environment that does not go back --------------------------------------------------

  /** What one gate or another waits for is not taken away again. */
  predicate Advances(a: Live, b: Live)
  {
    && (a.rdsStatus == "available" ==> b.rdsStatus == "available")
    && (a.endpoint != "" ==> b.endpoint != "")
    && (a.succeeded >= 1 ==> b.succeeded >= 1)
    && (Filled(a.volumeId) ==> Filled(b.volumeId))
    && (Filled(a.fileSystemId) ==> Filled(b.fileSystemId))
    && (a.lifeCycle == Some("available") ==> b.lifeCycle == Some("available"))
    && (a.clusterIp != "" ==> b.clusterIp != "")
    && (a.readyReplicas >= 1 ==> b.readyReplicas >= 1)
    && (a.phase == "Bound" ==> b.phase == "Bound")
    && (a.boundVolume != "" ==> b.boundVolume == a.boundVolume)
  }

  predicate Filled(o: Option<string>)
  {
    o.Some? && o.value != ""
  }

  predicate Calm(w: World, a: Action)
  {
    match a
    case SetLive(k, live) => k in w.store ==> Advances(w.store[k].live, live)
    case Provision(_, _) => true
    case Delete(_) => false
    case EditSpec(_) => false
    case Touch => true
    case SetChangelog(c) => w.changelog.Some? ==> c.Some?
    case SetApplication(a) => w.app.Some? ==> a.Some?
  }

  ghost predicate Onward(w: World, w': World)
  {
    && SameIdentity(w'.cr, w.cr) && w'.cr.spec == w.cr.spec
    && (forall k | k in w.store ::
          k in w'.store && w'.store[k].body == w.store[k].body && Advances(w.store[k].live, w'.store[k].live))
    && (forall k | k in w'.store && k !in w.store :: k.kind == PersistentVolume)
    && (w.changelog.Some? ==> w'.changelog.Some?)
    && (w.app.Some? ==> w'.app.Some?)
  }

  lemma CalmIsOnward(m: M, a: Action)
    requires Calm(m.w, a)
    ensures Onward(m.w, Act(m, a).w)
  {
  }

  lemma ObjectStaysOpen(g: Gate, o: Obj, o': Obj)
    requires o'.body == o.body && Advances(o.live, o'.live)
    requires Extract(GateQuery(g), o).Got? && Judge(g, Extract(GateQuery(g), o).r) == Open
    ensures Extract(GateQuery(g), o').Got? && Judge(g, Extract(GateQuery(g), o').r) == Open
  {
  }

  lemma GateObject(g: Gate)
    ensures QueryItem(GateQuery(g)).Some? && GateQuery(g) != ChangelogData
  {
  }

  lemma NotAVolume(q: Query, j: Jira)
    requires QueryItem(q).Some?
    ensures ItemKey(QueryItem(q).value, j).kind != PersistentVolume
  {
  }

  lemma WaitStaysOpen(g: Gate, w: World, w': World)
    requires Onward(w, w') && Blocked(Wait(g), w).None?
    ensures Blocked(Wait(g), w').None?
  {
    var q := GateQuery(g);
    GateObject(g);
    var item := QueryItem(q).value;
    NotAVolume(q, w.cr);
    SightOfObject(q, w);
    SightOfObject(q, w');
    KeyDependsOnIdentity(item, w.cr, w'.cr);
    hide Sight, ItemKey, Extract, Build, Advances, QueryItem, GateQuery, Judge;
    if ItemKey(item, w.cr) in w.store {
      ObjectStaysOpen(g, ObjectOf(item, w), ObjectOf(item, w'));
    } else {
      FreshExtract(q, Pass(w.cr, map[], false), NO_DRAW, w'.cr);
    }
  }

  lemma ClaimStays(w: World, w': World)
    requires Onward(w, w') && ClaimedVolume(ObjectOf(FsxPvc, w)) != ""
    ensures ClaimedVolume(ObjectOf(FsxPvc, w')) == ClaimedVolume(ObjectOf(FsxPvc, w))
  {
    var key := ItemKey(FsxPvc, w.cr);
    assert ItemKey(FsxPvc, w'.cr) == key && key.kind == PersistentVolumeClaim;
    if key in w.store {
      hide ItemKey;
    }
  }

  lemma ReadStaysOpen(q: Query, w: World, w': World)
    requires Onward(w, w') && IsGate(Read(q)) && Blocked(Read(q), w).None?
    ensures Blocked(Read(q), w').None?
  {
    hide ItemKey, ObjectOf;
    if q == VolumeHandle {
      ClaimStays(w, w');
    }
  }

  lemma OnwardKeepsOpen(i: Instr, w: World, w': World)
    requires Onward(w, w') && IsClosed(i, w')
    ensures IsClosed(i, w)
  {
    hide Onward, Blocked;
    if Blocked(i, w).None? {
      match i
      case Wait(g) => WaitStaysOpen(g, w, w');
      case Read(q) => ReadStaysOpen(q, w, w');
    }
  }

  // ---- calls, failing or not -----------------------------------------------------------------

  /** What any call leaves as it is: the resource's identity and spec, and every object that it does not update. */
  ghost predicate Stays(w: World, w': World)
  {
    && SameIdentity(w'.cr, w.cr) && w'.cr.spec == w.cr.spec
    && (forall k | k in w.store :: k in w'.store && (!Updated(k.kind) ==> w'.store[k] == w.store[k]))
    && w'.changelog == w.changelog && w'.app == w.app
  }

  lemma CallStays(m: M, f: Fault, d: Draw)
    requires Intact(m) && m.ctl.Running?
    ensures Stays(m.w, Step(m, Call(f, d)).w)
  {
    hide Exec, Build;
    CallIsOrderly(m, m.ctl.pos, m.ctl.p, f, d);
    CallIsFrugal(m, m.ctl.pos, m.ctl.p, f, d);
    CallKeepsOutside(m, m.ctl.pos, m.ctl.p, f, d);
  }

  lemma FreshIsClosed(g: Gate, o: Obj)
    requires o.live == FRESH && Extract(GateQuery(g), o).Got?
    ensures Judge(g, Extract(GateQuery(g), o).r) != Open
  {
  }

  /** A gate is open only on an object that exists, of a kind that no call alters. */
  lemma OpenMeansStored(g: Gate, w: World)
    requires Blocked(Wait(g), w).None?
    ensures QueryItem(GateQuery(g)).Some?
    ensures var k := ItemKey(QueryItem(GateQuery(g)).value, w.cr); k in w.store && !Updated(k.kind)
  {
    hide Sight, ItemKey, Extract, Build, QueryItem, GateQuery, Judge;
    var q := GateQuery(g);
    GateObject(g);
    var item := QueryItem(q).value;
    QueryKinds(q, w.cr);
    GateIsNoData(g);
    SightOfObject(q, w);
    if ItemKey(item, w.cr) !in w.store {
      BuildKey(item, Pass(w.cr, map[], false), NO_DRAW);
      FreshIsClosed(g, ObjectOf(item, w));
    }
  }

  lemma GateIsNoData(g: Gate)
    ensures GateQuery(g) != SecretHost && GateQuery(g) != ChangelogData
  {
  }

  lemma WaitStays(g: Gate, w: World, w': World)
    requires Stays(w, w') && Blocked(Wait(g), w).None?
    ensures Blocked(Wait(g), w').None?
  {
    OpenMeansStored(g, w);
    var q := GateQuery(g);
    SightOfObject(q, w);
    SightOfObject(q, w');
    KeyDependsOnIdentity(QueryItem(q).value, w.cr, w'.cr);
    hide Sight, ItemKey, Extract, Build, QueryItem, GateQuery, Judge;
  }

  lemma ClaimStored(w: World)
    requires ClaimedVolume(ObjectOf(FsxPvc, w)) != ""
    ensures ItemKey(FsxPvc, w.cr) in w.store
  {
  }

  lemma ReadStays(q: Query, w: World, w': World)
    requires Stays(w, w') && IsGate(Read(q)) && Blocked(Read(q), w).None?
    ensures Blocked(Read(q), w').None?
  {
    if q == VolumeHandle {
      ClaimStored(w);
      assert ItemKey(FsxPvc, w'.cr) == ItemKey(FsxPvc, w.cr) && !Updated(ItemKey(FsxPvc, w.cr).kind);
      hide ItemKey, Build;
    }
  }

  lemma StaysKeepsOpen(i: Instr, w: World, w': World)
    requires Stays(w, w') && IsClosed(i, w')
    ensures IsClosed(i, w)
  {
    hide Stays, Blocked;
    if Blocked(i, w).None? {
      match i
      case Wait(g) => WaitStays(g, w, w');
      case Read(q) => ReadStays(q, w, w');
    }
  }

  // ---- whole runs ------------------------------------------------------------------------------

  /** Any event but an edit of the spec, a deletion, or a step of the environment that goes back. Passes may
      begin, fail at any call, or die. */
  predicate CalmEvent(m: M, e: Event)
  {
    e.Env? ==> Calm(m.w, e.a)
  }

  ghost predicate CalmRun(m: M, es: seq<Event>)
  {
    es != [] ==> CalmRun(m, es[..|es| - 1]) && CalmEvent(Run(m, es[..|es| - 1]), es[|es| - 1])
  }

  /** m' is as far as m: the same plan, and no gate of it has closed. */
  ghost predicate AsOpen(m: M, m': M)
  {
    && SameIdentity(m'.w.cr, m.w.cr) && m'.w.cr.spec == m.w.cr.spec
    && (forall i | IsClosed(i, m'.w) :: IsClosed(i, m.w))
  }

  lemma CalmStep(m: M, e: Event)
    requires Versioned(m) && Intact(m) && CalmEvent(m, e)
    ensures AsOpen(m, Step(m, e))
  {
    hide Exec, Act, IsClosed, Calm, Versioned, Intact;
    var w, w' := m.w, Step(m, e).w;
    match e {
      case Call(f, d) => if m.ctl.Running? { CallStays(m, f, d); }
      case Env(a) => CalmIsOnward(m, a);
      case _ =>
    }
    forall i | IsClosed(i, w')
      ensures IsClosed(i, w)
    {
      if e.Env? {
        OnwardKeepsOpen(i, w, w');
      } else if e.Call? && m.ctl.Running? {
        StaysKeepsOpen(i, w, w');
      }
    }
  }

  lemma AsOpenCounts(m: M, m': M)
    requires AsOpen(m, m')
    ensures Closed(m'.w) <= Closed(m.w)
  {
    hide Prog, IsClosed;
    FewerClosed(Prog(m.w.cr.spec), m.w, m'.w);
  }

  /** The measure never grows, whatever passes do and wherever they fail, while the environment does not go back. */
  lemma {:induction false} CalmNeverCloses(m: M, es: seq<Event>)
    requires Versioned(m) && Intact(m) && CalmRun(m, es)
    ensures AsOpen(m, Run(m, es)) && Closed(Run(m, es).w) <= Closed(m.w)
    ensures Versioned(Run(m, es)) && Intact(Run(m, es))
  {
    hide Step, CalmEvent, IsClosed, Versioned, Intact, Closed;
    RunKeepsIntact(m, es);
    if es != [] {
      var u := Run(m, es[..|es| - 1]);
      CalmNeverCloses(m, es[..|es| - 1]);
      CalmStep(u, es[|es| - 1]);
    }
    AsOpenCounts(m, Run(m, es));
  }

  /** A pass leaves the measure as it is: what it creates starts out closed. */
  lemma PassKeepsClosed(w0: World, n: nat, d: nat -> Draw)
    requires n <= |Prog(w0.cr.spec)|
    ensures Closed(After(w0, n, d)) == Closed(w0)
  {
    var s := w0.cr.spec;
    var w1 := After(w0, n, d);
    AfterKeepsIdentity(w0, n, d);
    hide Prog, After, Blocked;
    forall i | i in Prog(s)
      ensures IsClosed(i, w0) <==> IsClosed(i, w1)
    {
      var k: nat :| k < |Prog(s)| && Prog(s)[k] == i;
      BlockedKept(w0, n, d, k);
    }
    FewerClosed(Prog(s), w0, w1);
    FewerClosed(Prog(s), w1, w0);
  }

  // ---- rounds ------------------------------------------------------------------------------

  /** Anything that may happen, and an undisturbed pass after it. */
  datatype Round = Round(es: seq<Event>, draws: nat -> Draw)

  function Rounds(m: M, rs: seq<Round>): M
    decreases |rs|
  {
    if rs == [] then m else Rounds(CleanPassOf(Run(m, rs[0].es), rs[0].draws), rs[1..])
  }

  predicate AtEnd(w: World)
  {
    Stop(w) == |Prog(w.cr.spec)| - 1
  }

  /** The gate at which a pass stops on w is open on w'. */
  predicate OpensNext(w: World, w': World)
  {
    AtEnd(w) || Blocked(Prog(w.cr.spec)[Stop(w)], w').None?
  }

  /** Between two undisturbed passes the environment does not go back, and opens at least the gate at which the
      first of them stopped; other passes may come and fail in between. */
  ghost predicate Helpful(m: M, rs: seq<Round>)
    decreases |rs|
  {
    rs == [] ||
    (&& CalmRun(m, rs[0].es) && Run(m, rs[0].es).ctl.Idle?
     && OpensNext(m.w, Run(m, rs[0].es).w)
     && Helpful(CleanPassOf(Run(m, rs[0].es), rs[0].draws), rs[1..]))
  }

  /** An undisturbed pass as a run. */
  function PassEvents(s: JiraSpec, d: nat -> Draw): seq<Event>
  {
    [Begin(NoFault)] + CallEvents(d, |Prog(s)|)
  }

  lemma CleanPassIsRun(m: M, d: nat -> Draw)
    ensures CleanPassOf(m, d) == Run(m, PassEvents(m.w.cr.spec, d))
  {
    hide Prog, Step;
    var n := |Prog(m.w.cr.spec)|;
    assert [Begin(NoFault)][..0] == [];
    assert Run(m, [Begin(NoFault)]) == Step(m, Begin(NoFault));
    CallsAreRun(Step(m, Begin(NoFault)), d, n);
    RunConcat(m, [Begin(NoFault)], CallEvents(d, n));
  }

  /** So all the rounds are one run. */
  lemma {:induction false} RoundsAreRun(m: M, rs: seq<Round>) returns (es: seq<Event>)
    ensures Rounds(m, rs) == Run(m, es)
    decreases |rs|
  {
    hide Step, CleanPassOf;
    es := [];
    if rs != [] {
      var m1 := Run(m, rs[0].es);
      var pass := PassEvents(m1.w.cr.spec, rs[0].draws);
      CleanPassIsRun(m1, rs[0].draws);
      var rest := RoundsAreRun(CleanPassOf(m1, rs[0].draws), rs[1..]);
      RunConcat(m, rs[0].es, pass);
      RunConcat(m, rs[0].es + pass, rest);
      es := rs[0].es + pass + rest;
    }
  }

  lemma PassKeepsHistory(m: M, d: nat -> Draw)
    requires Versioned(m) && Intact(m)
    ensures Versioned(CleanPassOf(m, d)) && Intact(CleanPassOf(m, d))
  {
    hide Versioned, Intact, CleanPassOf, Run;
    CleanPassIsRun(m, d);
    RunKeepsIntact(m, PassEvents(m.w.cr.spec, d));
  }

  /** The state a fault-free pass leaves: it returned what its first closed gate asks for, and everything
      in front of that gate exists. */
  ghost predicate Rested(m: M)
  {
    && m.ctl == Idle(Blocked(Prog(m.w.cr.spec)[Stop(m.w)], m.w).value)
    && forall k: nat | k < Stop(m.w) && Makes(Prog(m.w.cr.spec)[k]).Some? ::
         ItemKey(Makes(Prog(m.w.cr.spec)[k]).value, m.w.cr) in m.w.store
  }

  lemma PassRests(m: M, d: nat -> Draw)
    requires m.ctl.Idle?
    ensures var m1 := CleanPassOf(m, d);
            Rested(m1) && Closed(m1.w) == Closed(m.w) && Stop(m1.w) == Stop(m.w)
            && SameIdentity(m1.w.cr, m.w.cr) && m1.w.cr.spec == m.w.cr.spec
  {
    var n := Stop(m.w);
    var m1 := CleanPassOf(m, d);
    hide Prog, Blocked, After, CleanPassOf, Closed;
    CleanPassRefines(m, d);
    StopKept(m.w, n, d);
    AfterKeepsIdentity(m.w, n, d);
    BlockedKept(m.w, n, d, n);
    PassKeepsClosed(m.w, n, d);
    forall k: nat | k < Stop(m1.w) && Makes(Prog(m1.w.cr.spec)[k]).Some?
      ensures ItemKey(Makes(Prog(m1.w.cr.spec)[k]).value, m1.w.cr) in m1.w.store
    {
      KeyDependsOnIdentity(Makes(Prog(m.w.cr.spec)[k]).value, m.w.cr, m1.w.cr);
      hide ItemKey;
      MadeStays(m.w, k, n, d);
    }
  }

  lemma StopIsClosed(w: World)
    requires !AtEnd(w)
    ensures Prog(w.cr.spec)[Stop(w)] in Prog(w.cr.spec) && IsClosed(Prog(w.cr.spec)[Stop(w)], w)
  {
    var n := Stop(w);
    hide Prog, Blocked;
    FinishIsLast(w.cr.spec, n);
    OnlyGatesBlock(Prog(w.cr.spec)[n], w);
  }

  /** Opening the gate the last pass stopped at lowers the measure. */
  lemma OpeningLowers(w: World, w': World)
    requires w'.cr.spec == w.cr.spec && OpensNext(w, w') && !AtEnd(w)
    requires forall i | IsClosed(i, w') :: IsClosed(i, w)
    ensures Closed(w') < Closed(w)
  {
    StopIsClosed(w);
    hide Prog, Blocked;
    FewerClosed(Prog(w.cr.spec), w, w');
  }

  lemma SameEnd(w: World, w': World)
    requires w'.cr.spec == w.cr.spec && forall i | IsClosed(i, w') :: IsClosed(i, w)
    requires AtEnd(w)
    ensures AtEnd(w')
  {
    if !AtEnd(w') {
      StopIsClosed(w');
      hide Prog, Blocked, IsClosed;
      var k := Stop(w');
      assert IsClosed(Prog(w.cr.spec)[k], w);
      ClosedStops(w, k);
    }
  }

  lemma ClosedStops(w: World, k: nat)
    requires k < |Prog(w.cr.spec)| && IsClosed(Prog(w.cr.spec)[k], w)
    ensures Stop(w) <= k
  {
    hide Prog, Blocked;
  }

  lemma {:induction false} RoundsLower(m: M, rs: seq<Round>)
    requires Versioned(m) && Intact(m) && Rested(m) && Helpful(m, rs)
    ensures var f := Rounds(m, rs);
            && Rested(f) && SameIdentity(f.w.cr, m.w.cr) && f.w.cr.spec == m.w.cr.spec
            && (AtEnd(f.w) || Closed(f.w) + |rs| <= Closed(m.w))
    decreases |rs|
  {
    hide Prog, Blocked, CleanPassOf, Closed, Rested, AtEnd, IsClosed, Stop, Versioned, Intact, Run, CalmRun;
    if rs != [] {
      var m1 := Run(m, rs[0].es);
      var m2 := CleanPassOf(m1, rs[0].draws);
      CalmNeverCloses(m, rs[0].es);
      PassKeepsHistory(m1, rs[0].draws);
      PassRests(m1, rs[0].draws);
      RoundsLower(m2, rs[1..]);
      if AtEnd(m.w) {
        SameEnd(m.w, m1.w);
        EndStays(m1.w, m2.w);
        EndedRounds(m2, rs[1..]);
      } else {
        OpeningLowers(m.w, m1.w);
      }
    }
  }

  lemma EndStays(w: World, w': World)
    requires AtEnd(w) && Stop(w') == Stop(w) && w'.cr.spec == w.cr.spec
    ensures AtEnd(w')
  {
    hide Prog, Stop;
  }

  lemma {:induction false} EndedRounds(m: M, rs: seq<Round>)
    requires Versioned(m) && Intact(m) && Helpful(m, rs) && AtEnd(m.w)
    ensures AtEnd(Rounds(m, rs).w)
    decreases |rs|
  {
    hide Prog, Blocked, CleanPassOf, Closed, Rested, AtEnd, IsClosed, Stop, Versioned, Intact, Run, CalmRun;
    if rs != [] {
      var m1 := Run(m, rs[0].es);
      var m2 := CleanPassOf(m1, rs[0].draws);
      CalmNeverCloses(m, rs[0].es);
      PassKeepsHistory(m1, rs[0].draws);
      PassRests(m1, rs[0].draws);
      SameEnd(m.w, m1.w);
      EndStays(m1.w, m2.w);
      EndedRounds(m2, rs[1..]);
    }
  }

  lemma EndMeansAll(m: M)
    requires Rested(m) && AtEnd(m.w)
    ensures m.ctl == Idle(Returned(300, false))
    ensures forall k | PlanKey(k, m.w.cr) :: k in m.w.store
  {
    EndBlocks(m.w.cr.spec, m.w);
    hide Prog, Blocked, ItemKey;
    forall k | PlanKey(k, m.w.cr)
      ensures k in m.w.store
    {
      var i: nat :| i < |Prog(m.w.cr.spec)| && MakesKey(Prog(m.w.cr.spec)[i], k, m.w.cr);
      FinishIsLast(m.w.cr.spec, i);
    }
  }

  /** Convergence: in any run, with passes that fail and crash among them, one undisturbed pass and as many
      more as there are gates reach the final return with every object of the plan in place. */
  lemma Converges(m: M, d: nat -> Draw, rs: seq<Round>)
    requires Versioned(m) && Intact(m) && m.ctl.Idle?
    requires Helpful(CleanPassOf(m, d), rs) && |rs| >= Gates(m.w.cr.spec)
    ensures var f := Rounds(CleanPassOf(m, d), rs);
            && f.ctl == Idle(Returned(300, false))
            && (forall k | PlanKey(k, m.w.cr) :: k in f.w.store)
  {
    hide CleanPassOf, Rested, Helpful, IsClosed, Blocked, Stop, Rounds, Prog, Gates, Versioned, Intact;
    var m0 := CleanPassOf(m, d);
    var f := Rounds(m0, rs);
    PassRests(m, d);
    PassKeepsHistory(m, d);
    RoundsLower(m0, rs);
    GatesOfProg(m.w.cr.spec);
    if !AtEnd(f.w) {
      StopIsClosed(f.w);
      NoneClosed(Prog(f.w.cr.spec), f.w, Prog(f.w.cr.spec)[Stop(f.w)]);
    }
    EndMeansAll(f);
    SamePlan(m.w.cr, f.w.cr);
  }

  lemma SamePlan(a: Jira, b: Jira)
    requires SameIdentity(a, b) && a.spec == b.spec
    ensures forall k :: PlanKey(k, a) <==> PlanKey(k, b)
  {
    forall k
      ensures PlanKey(k, a) <==> PlanKey(k, b)
    {
      if PlanKey(k, a) { SamePlanKey(a, b, k); }
      if PlanKey(k, b) { SamePlanKey(b, a, k); }
    }
  }

  lemma SamePlanKey(a: Jira, b: Jira, k: Key)
    requires SameIdentity(a, b) && a.spec == b.spec && PlanKey(k, a)
    ensures PlanKey(k, b)
  {
    hide Prog;
    var i: nat :| i < |Prog(a.spec)| && MakesKey(Prog(a.spec)[i], k, a);
    KeyDependsOnIdentity(Makes(Prog(a.spec)[i]).value, a, b);
    hide ItemKey;
    assert MakesKey(Prog(b.spec)[i], k, b);
  }
}
