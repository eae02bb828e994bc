/** For every resource, a run from an empty cluster to the final return: between two passes the providers bring up what
    has been created so far. So every gate of every plan opens, and the hypothesis of Converges can be met. */
module Arrival {
  import opened Api
  import opened Plan
  import opened Machine
  import opened Safety
  import opened Frame
  import opened Ideal
  import opened CleanPass
  import opened Refinement
  import opened Convergence
  import opened Opening
  import opened Schedule
  import opened Results
  import Order
  import Template
  import Witness

  /** What providers write into an object in the end, each controller its own fields. */
  const READY: Live :=
    Live("available", "db.internal", 1, Some("vol-1"), Some("fs-1"), Some("available"), "10.0.0.1", 1, "Bound", "pv-1")

  const VOLUME := Key(PersistentVolume, "", "pv-1")

  const HANDLE := Csi("fsx.csi.aws.com", "fsvol-1")

  const APPLICATION := Application("Synced", "Healthy")

  // ---- the providers' turn -----------------------------------------------------------------------

  /** Bring up the objects of the first n instructions. */
  function Raise(j: Jira, n: nat): seq<Event>
    requires n <= |Prog(j.spec)|
  {
    if n == 0 then []
    else Raise(j, n - 1) + match Makes(Prog(j.spec)[n - 1])
                           case Some(item) => [Env(SetLive(ItemKey(item, j), READY))]
                           case None => []
  }

  const REST: seq<Event> := [
    Env(SetChangelog(Some("databaseChangeLog:"))), Env(SetApplication(Some(APPLICATION))),
    Env(Provision("pv-1", HANDLE))]

  function Turn(j: Jira): seq<Event>
  {
    Raise(j, |Prog(j.spec)|) + REST
  }

  /** The objects of the plan are as they were created, or up; nothing but the provider's volume is bound. */
  ghost predicate Tended(m: M, j: Jira)
  {
    && m.ctl.Idle? && SameIdentity(m.w.cr, j) && m.w.cr.spec == j.spec
    && (forall k | k in m.w.store && PlanKey(k, j) :: m.w.store[k].live == FRESH || m.w.store[k].live == READY)
    && (BackendOf(j.spec) == Fsx ==> Unclaimed(m.w, j))
  }

  ghost predicate Unclaimed(w: World, j: Jira)
  {
    && (forall k | k in w.store && k.kind == PersistentVolume ::
          w.store[k].body.PvBody? && w.store[k].body.source == HANDLE)
    && (ItemKey(FsxPvc, j) in w.store ==>
          var claim := w.store[ItemKey(FsxPvc, j)].body; claim.PvcBody? && claim.volumeName == "")
  }

  /** The same objects, some of them up. */
  ghost predicate Lifted(w: World, w': World, j: Jira)
  {
    && w' == w.(store := w'.store) && w'.store.Keys == w.store.Keys
    && forall k | k in w.store ::
         w'.store[k] == w.store[k] || (PlanKey(k, j) && w'.store[k] == w.store[k].(live := READY))
  }

  ghost predicate Up(w: World, j: Jira, n: nat)
  {
    forall i: nat | i < n && i < |Prog(j.spec)| && Makes(Prog(j.spec)[i]).Some? ::
      var k := ItemKey(Makes(Prog(j.spec)[i]).value, j);
      k in w.store ==> w.store[k].live == READY
  }

  lemma ReadyIsCalm(w: World, k: Key)
    requires k in w.store ==> w.store[k].live == FRESH || w.store[k].live == READY
    ensures Calm(w, SetLive(k, READY))
  {
  }

  lemma LiftOne(m: M, j: Jira, k: Key)
    requires PlanKey(k, j)
    ensures var m' := Act(m, SetLive(k, READY));
            && Lifted(m.w, m'.w, j) && m'.ctl == m.ctl && (k in m'.w.store ==> m'.w.store[k].live == READY)
            && (forall x | x in m.w.store && m.w.store[x].live == READY :: m'.w.store[x].live == READY)
  {
    hide PlanKey;
  }

  lemma LiftedTwice(w: World, u: World, w': World, j: Jira)
    requires Lifted(w, u, j) && Lifted(u, w', j)
    ensures Lifted(w, w', j)
  {
    hide PlanKey;
  }

  lemma CalmSnoc(m: M, es: seq<Event>, e: Event)
    requires CalmRun(m, es) && CalmEvent(Run(m, es), e)
    ensures CalmRun(m, es + [e]) && Run(m, es + [e]) == Step(Run(m, es), e)
  {
    hide Run, CalmEvent;
    assert (es + [e])[..|es|] == es;
    RunSnoc(m, es, e);
  }

  lemma {:induction false} Raised(m: M, j: Jira, n: nat)
    requires Tended(m, j) && n <= |Prog(j.spec)|
    ensures var m' := Run(m, Raise(j, n));
            CalmRun(m, Raise(j, n)) && m'.ctl == m.ctl && Lifted(m.w, m'.w, j) && Up(m'.w, j, n)
  {
    hide Prog, ItemKey, Run, CalmRun, PlanKey, Act, Calm;
    if n > 0 {
      var es := Raise(j, n - 1);
      var u := Run(m, es);
      Raised(m, j, n - 1);
      hide Raise;
      if Makes(Prog(j.spec)[n - 1]).Some? {
        var k := ItemKey(Makes(Prog(j.spec)[n - 1]).value, j);
        RaisesKey(j, n);
        IsPlanKey(j, n - 1);
        ReadyIsCalm(u.w, k);
        CalmSnoc(m, es, Env(SetLive(k, READY)));
        LiftOne(u, j, k);
        LiftedTwice(m.w, u.w, Act(u, SetLive(k, READY)).w, j);
      } else {
        RaisesNothing(j, n);
      }
    } else {
      NoEvents(m);
    }
  }

  lemma NoEvents(m: M)
    ensures Run(m, []) == m && CalmRun(m, [])
  {
  }

  lemma RaisesKey(j: Jira, n: nat)
    requires 0 < n <= |Prog(j.spec)| && Makes(Prog(j.spec)[n - 1]).Some?
    ensures Raise(j, n) == Raise(j, n - 1) + [Env(SetLive(ItemKey(Makes(Prog(j.spec)[n - 1]).value, j), READY))]
  {
    hide Prog, ItemKey;
  }

  lemma RaisesNothing(j: Jira, n: nat)
    requires 0 < n <= |Prog(j.spec)| && Makes(Prog(j.spec)[n - 1]).None?
    ensures Raise(j, n) == Raise(j, n - 1)
  {
    hide Prog, ItemKey;
  }

  lemma IsPlanKey(j: Jira, n: nat)
    requires n < |Prog(j.spec)| && Makes(Prog(j.spec)[n]).Some?
    ensures PlanKey(ItemKey(Makes(Prog(j.spec)[n]).value, j), j)
  {
    hide Prog, ItemKey;
    assert MakesKey(Prog(j.spec)[n], ItemKey(Makes(Prog(j.spec)[n]).value, j), j);
  }

  /** Everything that a gate can ask for is there. */
  ghost predicate Provided(w: World, j: Jira)
  {
    && Up(w, j, |Prog(j.spec)|) && w.changelog.Some? && w.app == Some(APPLICATION)
    && (BackendOf(j.spec) == Fsx ==> VOLUME in w.store && w.store[VOLUME].body.PvBody? && w.store[VOLUME].body.source == HANDLE)
  }

  lemma RestCalm(m: M)
    ensures CalmRun(m, REST)
    ensures Run(m, REST) == Act(Act(Act(m, SetChangelog(Some("databaseChangeLog:"))),
                                    SetApplication(Some(APPLICATION))), Provision("pv-1", HANDLE))
  {
    hide Act, Calm;
    var a, b, c := REST[0], REST[1], REST[2];
    NoEvents(m);
    ProvisionsAreCalm(m.w);
    CalmSnoc(m, [], a);
    ProvisionsAreCalm(Step(m, a).w);
    CalmSnoc(m, [] + [a], b);
    ProvisionsAreCalm(Step(Step(m, a), b).w);
    CalmSnoc(m, [] + [a] + [b], c);
    assert [] + [a] + [b] + [c] == REST;
  }

  lemma ProvisionsAreCalm(w: World)
    ensures Calm(w, SetChangelog(Some("databaseChangeLog:"))) && Calm(w, SetApplication(Some(APPLICATION)))
    ensures Calm(w, Provision("pv-1", HANDLE))
  {
  }

  lemma {:induction false} CalmConcat(m: M, a: seq<Event>, b: seq<Event>)
    requires CalmRun(m, a) && CalmRun(Run(m, a), b)
    ensures CalmRun(m, a + b)
  {
    hide Run, CalmEvent;
    if b == [] {
      assert a + b == a;
    } else {
      var c := b[..|b| - 1];
      CalmConcat(m, a, c);
      RunConcat(m, a, c);
      assert (a + b)[..|a + b| - 1] == a + c;
      assert (a + b)[|a + b| - 1] == b[|b| - 1];
    }
  }

  lemma RestProvides(m: M, j: Jira)
    requires Tended(m, j) && Up(m.w, j, |Prog(j.spec)|)
    ensures Provided(RestOf(m).w, j) && RestOf(m).ctl == m.ctl
    ensures SameIdentity(RestOf(m).w.cr, j) && RestOf(m).w.cr.spec == j.spec
    ensures forall k | k in m.w.store :: k in RestOf(m).w.store && RestOf(m).w.store[k] == m.w.store[k]
    ensures forall k | k in RestOf(m).w.store && k !in m.w.store ::
              k == VOLUME && RestOf(m).w.store[k].live == FRESH && RestOf(m).w.store[k].body.PvBody?
              && RestOf(m).w.store[k].body.source == HANDLE
  {
    hide Prog, ItemKey, PlanKey;
    var m' := RestOf(m);
    forall i: nat | i < |Prog(j.spec)| && Makes(Prog(j.spec)[i]).Some? && ItemKey(Makes(Prog(j.spec)[i]).value, j) in m'.w.store
      ensures m'.w.store[ItemKey(Makes(Prog(j.spec)[i]).value, j)].live == READY
    {
      NotTheVolume(j, i);
    }
  }

  function RestOf(m: M): M
  {
    Act(Act(Act(m, SetChangelog(Some("databaseChangeLog:"))), SetApplication(Some(APPLICATION))),
        Provision("pv-1", HANDLE))
  }

  /** No volume of a plan has so short a name. */
  lemma NotTheVolume(j: Jira, i: nat)
    requires i < |Prog(j.spec)| && Makes(Prog(j.spec)[i]).Some?
    ensures ItemKey(Makes(Prog(j.spec)[i]).value, j) != VOLUME
  {
    hide Prog;
    NfsNames(j);
    SharedNames(j);
    assert |j.name + "-nfs-server" + "-" + j.uid| >= 11;
    assert |"jira-shared-home-pv" + "-" + j.uid| >= 19;
  }

  lemma LiftTends(m: M, m': M, j: Jira)
    requires Tended(m, j) && Lifted(m.w, m'.w, j) && m'.ctl == m.ctl
    ensures Tended(m', j)
  {
    hide PlanKey, ItemKey, BackendOf;
  }

  lemma RestTends(m: M, j: Jira)
    requires Tended(m, j) && Up(m.w, j, |Prog(j.spec)|)
    ensures Tended(RestOf(m), j)
  {
    RestProvides(m, j);
    assert ItemKey(FsxPvc, j).kind == PersistentVolumeClaim;
    hide PlanKey, ItemKey, BackendOf, Up, RestOf, Prog;
  }

  /** The providers' turn takes nothing back and leaves nothing wanting. */
  lemma TurnProvides(m: M, j: Jira)
    requires Tended(m, j)
    ensures var m' := Run(m, Turn(j));
            && CalmRun(m, Turn(j)) && m'.ctl == m.ctl && Tended(m', j) && Provided(m'.w, j)
            && m.w.store.Keys <= m'.w.store.Keys
  {
    hide Prog, Run, CalmRun, Raise, Tended, Provided, Up, RestOf;
    var n := |Prog(j.spec)|;
    var u := Run(m, Raise(j, n));
    Raised(m, j, n);
    LiftTends(m, u, j);
    RestCalm(u);
    CalmConcat(m, Raise(j, n), REST);
    RunConcat(m, Raise(j, n), REST);
    RestIs(u);
    RestProvides(u, j);
    RestTends(u, j);
  }

  lemma RestIs(m: M)
    ensures Act(Act(Act(m, SetChangelog(Some("databaseChangeLog:"))), SetApplication(Some(APPLICATION))),
                Provision("pv-1", HANDLE)) == RestOf(m)
  {
    hide Act;
  }

  // ---- what a pass keeps -------------------------------------------------------------------------

  lemma NewObject(w0: World, n: nat, d: nat -> Draw, k: Key) returns (item: Item, d0: Draw)
    requires n <= |Prog(w0.cr.spec)| && k !in w0.store && k in After(w0, n, d).store
    ensures ItemKey(item, w0.cr) == k && BelongsTo(item, BackendOf(w0.cr.spec))
    ensures After(w0, n, d).store[k].live == FRESH
    ensures !Updated(k.kind) ==> After(w0, n, d).store[k].body == Build(item, View(w0), d0).body
  {
    hide Prog, After, Build, ItemKey, View, Effect, BackendOf, BelongsTo;
    var i := Maker(w0, n, d, k);
    item, d0 := Makes(Prog(w0.cr.spec)[i]).value, d(i);
    ItemsFit(w0.cr.spec, i);
    AfterKeeps(w0, i + 1, n, d);
  }

  lemma FreshClaimIsUnnamed(p: Pass, d: Draw)
    ensures var body := Build(FsxPvc, p, d).body; body.PvcBody? && body.volumeName == ""
  {
  }

  lemma PassTends(m: M, j: Jira, d: nat -> Draw)
    requires Tended(m, j)
    ensures Tended(CleanPassOf(m, d), j)
  {
    var n := Stop(m.w);
    var w' := After(m.w, n, d);
    CleanPassRefines(m, d);
    AfterKeepsIdentity(m.w, n, d);
    AfterKeeps(m.w, 0, n, d);
    assert After(m.w, 0, d) == m.w by { Witness.AfterNothing(m.w, d); }
    hide CleanPassOf, After, Blocked, Stop, Prog, PlanKey;
    forall k | k in w'.store && PlanKey(k, j)
      ensures w'.store[k].live == FRESH || w'.store[k].live == READY
    {
      if k !in m.w.store {
        var item, d0 := NewObject(m.w, n, d, k);
      }
    }
    if BackendOf(j.spec) == Fsx {
      PassUnclaimed(m.w, j, n, d);
    }
  }

  lemma PassUnclaimed(w: World, j: Jira, n: nat, d: nat -> Draw)
    requires SameIdentity(w.cr, j) && w.cr.spec == j.spec && BackendOf(j.spec) == Fsx && Unclaimed(w, j)
    requires n <= |Prog(w.cr.spec)|
    ensures Unclaimed(After(w, n, d), j)
  {
    hide After, Prog, ItemKey, BackendOf, Build;
    var w' := After(w, n, d);
    AfterKeeps(w, 0, n, d);
    Witness.AfterNothing(w, d);
    KeyDependsOnIdentity(FsxPvc, w.cr, j);
    SharedNames(j);
    var claim := ItemKey(FsxPvc, j);
    forall k | k in w'.store && k.kind == PersistentVolume
      ensures w'.store[k].body.PvBody? && w'.store[k].body.source == HANDLE
    {
      NoVolumeMade(w, n, d, k);
    }
    if claim in w'.store && claim !in w.store {
      var item, d0 := NewObject(w, n, d, claim);
      KeysDistinct(item, FsxPvc, w.cr, Fsx);
      FreshClaimIsUnnamed(View(w), d0);
    }
  }

  // ---- every gate opens --------------------------------------------------------------------------

  /** A gate is open on an object that is up. */
  lemma ReadyOpens(g: Gate, w: World)
    requires QueryItem(GateQuery(g)).Some?
    requires var k := ItemKey(QueryItem(GateQuery(g)).value, w.cr); k in w.store && w.store[k].live == READY
    ensures Blocked(Wait(g), w).None?
  {
    hide Blocked, ItemKey;
    match g
    case RdsAvailable => AvailableGate(w); DatabaseNames(w.cr);
    case EndpointKnown => EndpointGate(w); DatabaseNames(w.cr);
    case ResetDone => ResetGate(w); JobNames(w.cr);
    case LiquibaseDone => LiquibaseGate(w); JobNames(w.cr);
    case VolumeIdKnown => VolumeGate(w); NfsNames(w.cr);
    case ServiceIpKnown => ServiceGate(w); NfsNames(w.cr);
    case NfsReady => ServerGate(w); NfsNames(w.cr);
    case ClaimBound => ClaimGate(w); SharedNames(w.cr);
    case FileSystemIdKnown => FileSystemGate(w); SharedNames(w.cr);
    case TargetAvailable(i) => TargetGate(w, i);
  }

  /** What a gate looks at was created in front of it. */
  lemma ObjectInPlace(m: M, j: Jira, n: nat, q: Query)
    requires Rested(m) && Tended(m, j) && n <= Stop(m.w) && q in Uses(Prog(m.w.cr.spec)[n]) && QueryItem(q).Some?
    ensures ItemKey(QueryItem(q).value, m.w.cr) in m.w.store && PlanKey(ItemKey(QueryItem(q).value, m.w.cr), j)
    ensures exists i: nat :: i < |Prog(j.spec)| && Makes(Prog(j.spec)[i]) == QueryItem(q)
  {
    hide Prog, ItemKey, Blocked, Uses, ReadAt, QueryItem, PlanKey, StopIn;
    var s := m.w.cr.spec;
    UsesBefore(s, n, q);
    var k := ObjectBefore(s, ReadAt(q, s));
    assert Makes(Prog(s)[k]) == QueryItem(q);
    KeyDependsOnIdentity(QueryItem(q).value, m.w.cr, j);
    IsPlanKey(j, k);
  }

  lemma ObjectUp(m: M, j: Jira, n: nat, q: Query)
    requires Rested(m) && Tended(m, j) && n <= Stop(m.w) && q in Uses(Prog(m.w.cr.spec)[n]) && QueryItem(q).Some?
    ensures var w' := Run(m, Turn(j)).w;
            var k := ItemKey(QueryItem(q).value, w'.cr);
            k in w'.store && w'.store[k].live == READY
  {
    hide Prog, ItemKey, Blocked, Uses, QueryItem, PlanKey, StopIn, Run, Turn, Rested;
    var w' := Run(m, Turn(j)).w;
    TurnProvides(m, j);
    ObjectInPlace(m, j, n, q);
    KeyDependsOnIdentity(QueryItem(q).value, m.w.cr, j);
    KeyDependsOnIdentity(QueryItem(q).value, w'.cr, j);
    var i: nat :| i < |Prog(j.spec)| && Makes(Prog(j.spec)[i]) == QueryItem(q);
    assert Up(w', j, |Prog(j.spec)|);
  }

  lemma HandleUp(m: M, j: Jira)
    requires Rested(m) && Tended(m, j) && Prog(m.w.cr.spec)[Stop(m.w)] == Read(VolumeHandle)
    ensures Blocked(Read(VolumeHandle), Run(m, Turn(j)).w).None?
  {
    hide Prog, Blocked, PlanKey, StopIn, Run, Turn, Rested, Stop, ItemKey;
    var n := Stop(m.w);
    var w' := Run(m, Turn(j)).w;
    HandleReadInFsx(m.w.cr.spec, n);
    ObjectUp(m, j, n, ClaimVolume);
    TurnProvides(m, j);
    KeyDependsOnIdentity(FsxPvc, w'.cr, j);
    SharedNames(w'.cr);
    HandleGate(w');
  }

  /** The gate at which a pass stopped is open when the providers have had their turn. */
  lemma TurnOpens(m: M, j: Jira)
    requires Rested(m) && Tended(m, j)
    ensures OpensNext(m.w, Run(m, Turn(j)).w)
  {
    hide Prog, Blocked, PlanKey, StopIn, Run, Turn, Rested, ItemKey, Tended;
    var n := Stop(m.w);
    var i := Prog(m.w.cr.spec)[n];
    var w' := Run(m, Turn(j)).w;
    if !AtEnd(m.w) {
      StopIsClosed(m.w);
      TurnProvides(m, j);
      match i
      case Wait(g) =>
        GateObject(g);
        ObjectUp(m, j, n, GateQuery(g));
        ReadyOpens(g, w');
      case Read(q) =>
        ChangelogGate(w');
        ApplicationGate(w');
        if q == VolumeHandle {
          HandleUp(m, j);
        }
    }
  }

  // ---- the run -----------------------------------------------------------------------------------

  function Times(r: Round, n: nat): seq<Round>
  {
    seq(n, (k: nat) => r)
  }

  lemma {:induction false} TurnsHelp(m: M, j: Jira, d: nat -> Draw, n: nat)
    requires Rested(m) && Tended(m, j)
    ensures Helpful(m, Times(Round(Turn(j), d), n))
    decreases n
  {
    hide Rested, Tended, Run, Turn, CalmRun, OpensNext, CleanPassOf;
    if n > 0 {
      var r := Round(Turn(j), d);
      var m1 := Run(m, Turn(j));
      TurnProvides(m, j);
      TurnOpens(m, j);
      assert m1.ctl.Idle? by { TendedIsIdle(m1, j); }
      PassRests(m1, d);
      PassTends(m1, j, d);
      TurnsHelp(CleanPassOf(m1, d), j, d, n - 1);
      assert Times(r, n)[1..] == Times(r, n - 1);
    }
  }

  lemma TendedIsIdle(m: M, j: Jira)
    requires Tended(m, j)
    ensures m.ctl.Idle?
  {
  }

  lemma FirstIsTended(j: Jira)
    ensures Tended(Witness.FirstState(j), j) && Versioned(Witness.FirstState(j)) && Intact(Witness.FirstState(j))
  {
  }

  lemma {:induction false} LastRound(m: M, j: Jira, d: nat -> Draw, n: nat) returns (x: M)
    requires Rested(m) && Tended(m, j) && n > 0
    ensures Rounds(m, Times(Round(Turn(j), d), n)) == CleanPassOf(x, d) && Tended(x, j) && Provided(x.w, j)
    decreases n
  {
    hide Rested, Tended, Run, Turn, Provided, CleanPassOf;
    var r := Round(Turn(j), d);
    x := Run(m, Turn(j));
    TurnProvides(m, j);
    TendedIsIdle(x, j);
    var rest := Times(r, n)[1..];
    assert rest == Times(r, n - 1) && Times(r, n)[0] == r;
    if n > 1 {
      PassRests(x, d);
      PassTends(x, j, d);
      x := LastRound(CleanPassOf(x, d), j, d, n - 1);
    } else {
      assert rest == [];
    }
  }

  lemma {:induction false} TargetsNeverLong(w: World, i: nat)
    ensures TargetsDue(w, i) != Some(Returned(300, false))
    decreases |w.cr.spec.network.subnetIds| - i
  {
    if i < |w.cr.spec.network.subnetIds| {
      TargetsNeverLong(w, i + 1);
    }
  }

  /** Only the end of a plan is left after five minutes without error. */
  lemma EndIsDue(w: World)
    requires Due(w) == Returned(300, false)
    ensures PastStorage(w) && w.app.Some?
  {
    hide TargetsDue;
    TargetsNeverLong(w, 0);
  }

  lemma ItemIsUp(w: World, j: Jira, item: Item)
    requires Provided(w, j) && PlanKey(ItemKey(item, j), j) && ItemKey(item, j) in w.store
    ensures w.store[ItemKey(item, j)].live == READY
  {
    hide Prog, ItemKey;
    var n: nat :| n < |Prog(j.spec)| && MakesKey(Prog(j.spec)[n], ItemKey(item, j), j);
    assert Up(w, j, |Prog(j.spec)|);
  }

  /** The status that says so. */
  ghost predicate Reported(st: JiraStatus, s: JiraSpec)
  {
    && st.rdsStatus == "available" && st.endpoint == "db.internal"
    && (s.database.snapshotId != "" ==> st.resetJob == "Succeeded") && st.liquibaseJob == "Succeeded"
    && (if s.sharedFs.ebs.snapshotId != "" then st.ebsId == "vol-1"
        else if s.sharedFs.fsx.snapshotId != "" then st.fsxId == "fsvol-1"
        else st.efsId == "fs-1")
    && st.sync == "Synced" && st.health == "Healthy"
  }

  lemma DatabasePlanned(j: Jira)
    ensures PlanKey(ItemKey(Rds, j), j)
  {
    Witness.RdsMade(j.spec);
    hide Prog, ItemKey;
    assert MakesKey(Prog(j.spec)[4], ItemKey(Rds, j), j);
  }

  lemma StoragePlanned(j: Jira)
    ensures BackendOf(j.spec) == Ebs ==> PlanKey(ItemKey(Volume, j), j)
    ensures BackendOf(j.spec) == Fsx ==> PlanKey(ItemKey(FsxPvc, j), j)
    ensures BackendOf(j.spec) == Efs ==> PlanKey(ItemKey(SharedFileSystem, j), j)
  {
    hide Prog, ItemKey, StorageAt, PublishAt, Storage;
    var at := StorageAt(j.spec);
    match BackendOf(j.spec) {
      case Ebs =>
        FirstOfStorage(j.spec, 0);
        assert MakesKey(Prog(j.spec)[at], ItemKey(Volume, j), j);
      case Fsx =>
        FirstOfStorage(j.spec, 2);
        assert MakesKey(Prog(j.spec)[at + 2], ItemKey(FsxPvc, j), j);
      case Efs =>
        FirstOfStorage(j.spec, 0);
        assert MakesKey(Prog(j.spec)[at], ItemKey(SharedFileSystem, j), j);
    }
  }

  lemma FirstOfStorage(s: JiraSpec, k: nat)
    requires k == 0 || (k == 2 && BackendOf(s) == Fsx)
    ensures StorageAt(s) + k < |Prog(s)|
    ensures Prog(s)[StorageAt(s) + k] ==
            match BackendOf(s)
            case Ebs => Create(Volume)
            case Fsx => if k == 0 then Create(SnapshotContent) else Create(FsxPvc)
            case Efs => Create(SharedFileSystem)
  {
    ProgLength(s);
    if BackendOf(s) == Efs { EfsLayout(s, 0); }
    Order.StorageInProg(s, k);
    hide Prog, StorageAt;
  }

  lemma DatabaseReported(w: World, j: Jira, d: nat -> Draw)
    requires SameIdentity(w.cr, j) && w.cr.spec == j.spec && Provided(w, j) && PastStorage(w)
    ensures var st := After(w, Stop(w), d).cr.status;
            && st.rdsStatus == "available" && st.endpoint == "db.internal"
            && (j.spec.database.snapshotId != "" ==> st.resetJob == "Succeeded") && st.liquibaseJob == "Succeeded"
            && st.sync == "Synced" && st.health == "Healthy"
  {
    hide After, Stop, PlanKey, ItemKey, Provided, LiquibaseDue, ResetDue, StorageDue, Template.Manifest;
    RecordsStatus(w, d);
    RecordsEndpoint(w, d);
    if j.spec.database.snapshotId != "" {
      RecordsReset(w, d);
    }
    RecordsLiquibase(w, d);
    RecordsApplication(w, d);
    DatabasePlanned(j);
    DatabaseNames(j);
    ItemIsUp(w, j, Rds);
    AppIs(w, j);
  }

  lemma AppIs(w: World, j: Jira)
    requires Provided(w, j)
    ensures w.app == Some(APPLICATION)
  {
    hide Up;
  }

  lemma StorageReported(w: World, j: Jira, d: nat -> Draw)
    requires SameIdentity(w.cr, j) && w.cr.spec == j.spec && Provided(w, j) && PastStorage(w)
    requires BackendOf(j.spec) == Fsx ==> Unclaimed(w, j)
    ensures var st := After(w, Stop(w), d).cr.status;
            if j.spec.sharedFs.ebs.snapshotId != "" then st.ebsId == "vol-1"
            else if j.spec.sharedFs.fsx.snapshotId != "" then st.fsxId == "fsvol-1"
            else st.efsId == "fs-1"
  {
    hide After, Stop, PlanKey, ItemKey, Provided, PastStorage;
    StoragePlanned(j);
    match BackendOf(j.spec)
    case Ebs =>
      RecordsVolume(w, d);
      NfsNames(j);
      ItemIsUp(w, j, Volume);
    case Fsx =>
      RecordsHandle(w, d);
    case Efs =>
      RecordsFileSystem(w, d);
      SharedNames(j);
      ItemIsUp(w, j, SharedFileSystem);
  }

  /** For every resource, whatever its backend, subnets and passwords: from an empty cluster, with the providers
      bringing up what exists after each pass, as many passes as there are gates and one more reach the final
      return. The ApplicationSet exists then, and everything in front of it, and the status says so. */
  lemma EveryResourceArrives(j: Jira, d: nat -> Draw) returns (rs: seq<Round>, es: seq<Event>)
    ensures var m := Witness.FirstState(j);
            && |rs| == Gates(j.spec) && Helpful(CleanPassOf(m, d), rs)
            && var f := Rounds(CleanPassOf(m, d), rs);
               && f == Run(m, es) && f.ctl == Idle(Returned(300, false))
               && Key(ApplicationSet, j.spec.argo.namespace, j.name) in f.w.store
               && (forall k | PlanKey(k, j) :: k in f.w.store) && Reported(f.w.cr.status, j.spec)
  {
    hide CleanPassOf, Rounds, Gates, Tended, Rested, Helpful, Versioned, Intact, PlanKey, Run, Turn, ItemKey, Provided,
      Reported;
    var m := Witness.FirstState(j);
    var m0 := CleanPassOf(m, d);
    rs := Times(Round(Turn(j), d), Gates(j.spec));
    FirstIsTended(j);
    PassRests(m, d);
    PassTends(m, j, d);
    TurnsHelp(m0, j, d, Gates(j.spec));
    Converges(m, d, rs);
    CleanPassIsRun(m, d);
    var rest := RoundsAreRun(m0, rs);
    es := PassEvents(m.w.cr.spec, d) + rest;
    RunConcat(m, PassEvents(m.w.cr.spec, d), rest);
    SetIsPlanned(j);
    SomeGates(j.spec);
    var x := LastRound(m0, j, d, Gates(j.spec));
    EndReported(x, j, d);
  }

  lemma SomeGates(s: JiraSpec)
    ensures Gates(s) > 0
  {
  }

  lemma EndReported(x: M, j: Jira, d: nat -> Draw)
    requires Tended(x, j) && Provided(x.w, j) && CleanPassOf(x, d).ctl == Idle(Returned(300, false))
    ensures Reported(CleanPassOf(x, d).w.cr.status, j.spec)
  {
    hide CleanPassOf, Prog, Blocked, Stop, After, PlanKey, Provided, Unclaimed, Due, PastStorage;
    CleanPassRefines(x, d);
    LeavesWhenDue(x.w);
    StopInside(x.w);
    EndIsDue(x.w);
    DatabaseReported(x.w, j, d);
    StorageReported(x.w, j, d);
  }

  lemma StopInside(w: World)
    ensures Stop(w) < |Prog(w.cr.spec)| && At(w.cr.spec, Stop(w)) == Prog(w.cr.spec)[Stop(w)]
  {
    hide Prog, Blocked, StopIn;
  }

  lemma SetIsPlanned(j: Jira)
    ensures PlanKey(Key(ApplicationSet, j.spec.argo.namespace, j.name), j)
  {
    ProgLength(j.spec);
    var n := PublishAt(j.spec) + 1;
    assert Prog(j.spec)[n] == ApplyManifest;
    hide Prog;
    assert MakesKey(Prog(j.spec)[n], Key(ApplicationSet, j.spec.argo.namespace, j.name), j);
  }
}
