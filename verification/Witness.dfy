/** A run in which a failed read replaces passwords that a job already uses, for every resource: the database
    becomes available, one pass brings the secret in line and creates the job, and the next pass fails to
    read the secret. */
module Witness {
  import opened Api
  import opened Builders
  import opened Plan
  import opened Machine
  import opened Safety
  import opened Frame
  import opened Soundness
  import opened Secrets
  import opened Ideal
  import opened CleanPass
  import opened Refinement
  import opened Fixpoint
  import Convergence

  const ENDPOINT := "db.internal"

  /** What the provider writes once the database is up. */
  const PROVISIONED: Live := FRESH.(rdsStatus := "available", endpoint := ENDPOINT)

  /** An empty cluster to which the resource was just submitted. */
  function FirstState(j: Jira): M
  {
    M(World(map[], j, map[], Some(""), None), Idle(NeverRan), {}, map[], map[j.version := j.spec], 0)
  }

  lemma FirstIsClean(j: Jira)
    requires j.status == NO_STATUS
    ensures Clean(FirstState(j), j)
  {
    hide PlanKey;
  }

  /** The job that uses the passwords first. */
  function FirstJob(s: JiraSpec): Item
  {
    if s.database.snapshotId != "" then ResetJob else LiquibaseJob
  }

  // ---- what is in the way ----------------------------------------------------------------------

  ghost predicate DatabaseUp(w: World)
  {
    var k := ItemKey(Rds, w.cr);
    k in w.store && w.store[k].live == PROVISIONED && w.changelog.Some?
  }

  lemma CreatesGo(s: JiraSpec, w: World, k: nat)
    requires k < 5
    ensures k < |Prog(s)| && Blocked(Prog(s)[k], w).None?
  {
    ProgLength(s);
  }

  lemma DatabaseSights(w: World)
    requires DatabaseUp(w)
    ensures Sight(RdsStatus, w) == Got(Text("available")) && Sight(RdsEndpoint, w) == Got(Text(ENDPOINT))
  {
    SightOfObject(RdsStatus, w);
    SightOfObject(RdsEndpoint, w);
    hide ItemKey, Sight;
  }

  lemma DatabaseGoes(w: World, k: nat)
    requires DatabaseUp(w) && k < |DATABASE|
    ensures Blocked(DATABASE[k], w).None?
  {
    DatabaseSights(w);
    SecretSight(w);
    hide Sight, DatabaseUp;
  }

  lemma ResetStarts(w: World, k: nat)
    requires k < 2
    ensures Blocked(RESET[k], w).None?
  {
  }

  lemma LiquibaseStarts(w: World, k: nat)
    requires DatabaseUp(w) && k < 5
    ensures Blocked(LIQUIBASE[k], w).None?
  {
  }

  /** Where the job is created. */
  function JobAt(s: JiraSpec): nat
  {
    if s.database.snapshotId != "" then 14 else 17
  }

  lemma JobIsThere(s: JiraSpec)
    ensures JobAt(s) < |Prog(s)| - 1 && Prog(s)[JobAt(s)] == Create(FirstJob(s))
    ensures s.database.snapshotId != "" ==> LiquibaseAt(s) == 18
    ensures s.database.snapshotId == "" ==> LiquibaseAt(s) == 13
  {
    ProgLength(s);
  }

  lemma InstrGoes(w: World, k: nat)
    requires DatabaseUp(w) && k <= JobAt(w.cr.spec)
    ensures k < |Prog(w.cr.spec)| && Blocked(Prog(w.cr.spec)[k], w).None?
  {
    hide Prog, Blocked, DatabaseUp, LiquibaseAt, StorageAt, PublishAt;
    var s := w.cr.spec;
    JobIsThere(s);
    Piece(s, k);
    if k < |DATABASE| {
      DatabaseGoes(w, k);
    } else if s.database.snapshotId != "" {
      ResetStarts(w, k - |DATABASE|);
    } else {
      LiquibaseStarts(w, k - |DATABASE|);
    }
  }

  /** With the database up, a pass gets past the creation of the job. */
  lemma StopsLate(w: World)
    requires DatabaseUp(w)
    ensures Stop(w) > JobAt(w.cr.spec)
  {
    hide Prog, Blocked, DatabaseUp;
    if Stop(w) <= JobAt(w.cr.spec) {
      InstrGoes(w, Stop(w));
    }
  }

  lemma StopsAfterCreates(w: World)
    ensures Stop(w) >= 5
  {
    hide Prog, Blocked;
    if Stop(w) < 5 {
      CreatesGo(w.cr.spec, w, Stop(w));
    }
  }

  // ---- the run, stage by stage -----------------------------------------------------------------

  /** A pass that stops at the new database. */
  lemma FirstStage(j: Jira, d: nat -> Draw) returns (m: M)
    ensures m == CleanPassOf(FirstState(j), d) && m.ctl.Idle? && SameIdentity(m.w.cr, j) && m.w.cr.spec == j.spec
    ensures var k := ItemKey(Rds, j); k in m.w.store && m.w.store[k].live == FRESH
    ensures m.w.changelog == Some("")
  {
    hide Prog, Blocked, CleanPassOf, After, ItemKey;
    var m0 := FirstState(j);
    m := CleanPassOf(m0, d);
    CleanPassRefines(m0, d);
    StopsAfterCreates(m0.w);
    AfterKeepsIdentity(m0.w, Stop(m0.w), d);
    RdsMade(j.spec);
    MadeStays(m0.w, 4, Stop(m0.w), d);
    var i := Maker(m0.w, Stop(m0.w), d, ItemKey(Rds, j));
  }

  lemma RdsMade(s: JiraSpec)
    ensures |Prog(s)| > 10 && Prog(s)[4] == Create(Rds) && Prog(s)[10] == Read(SecretHost)
  {
    ProgLength(s);
  }

  /** The provider brings the database up. */
  lemma SecondStage(m1: M, j: Jira) returns (m: M)
    requires SameIdentity(m1.w.cr, j) && m1.w.cr.spec == j.spec && m1.w.changelog == Some("")
    requires ItemKey(Rds, j) in m1.w.store && m1.w.store[ItemKey(Rds, j)].live == FRESH
    ensures m == Step(m1, Env(SetLive(ItemKey(Rds, j), PROVISIONED)))
    ensures m.ctl == m1.ctl && m.w.cr == m1.w.cr && DatabaseUp(m.w)
    ensures Reliable(m1, Env(SetLive(ItemKey(Rds, j), PROVISIONED)), j)
  {
    m := Step(m1, Env(SetLive(ItemKey(Rds, j), PROVISIONED)));
    KeyDependsOnIdentity(Rds, m1.w.cr, j);
    hide ItemKey;
  }

  /** A pass that brings the secret in line and creates the job. */
  lemma ThirdStage(m2: M, j: Jira, d: nat -> Draw) returns (m: M)
    requires m2.ctl.Idle? && SameIdentity(m2.w.cr, j) && m2.w.cr.spec == j.spec && DatabaseUp(m2.w)
    ensures m == CleanPassOf(m2, d) && m.ctl.Idle? && m.w == After(m2.w, Stop(m2.w), d)
    ensures SameIdentity(m.w.cr, j) && m.w.cr.spec == j.spec && Synced(m.w, j) && WorldText(RdsEndpoint, m.w, j) == ENDPOINT
    ensures ItemKey(FirstJob(j.spec), j) in m.w.store
    ensures Stop(m2.w) > 12 && Stop(m.w) == Stop(m2.w)
  {
    hide Prog, Blocked, CleanPassOf, After;
    m := CleanPassOf(m2, d);
    var n := Stop(m2.w);
    CleanPassRefines(m2, d);
    StopsLate(m2.w);
    StopKept(m2.w, n, d);
    AfterKeepsIdentity(m2.w, n, d);
    JobIsThere(j.spec);
    MadeStays(m2.w, JobAt(j.spec), n, d);
    SecretHeld(m2.w, n, d);
    DatabaseSights(m2.w);
    AfterKeeps(m2.w, 0, n, d);
    assert After(m2.w, 0, d) == m2.w by { AfterNothing(m2.w, d); }
    KeyDependsOnIdentity(FirstJob(j.spec), m2.w.cr, j);
    KeyDependsOnIdentity(DbSecret, m2.w.cr, j);
    KeyDependsOnIdentity(Rds, m2.w.cr, j);
    hide ItemKey, Sight, Stop;
    HostFound(m.w, j);
  }

  lemma AfterNothing(w: World, d: nat -> Draw)
    ensures After(w, 0, d) == w
  {
    hide Effect, At;
  }

  lemma HostFound(w: World, j: Jira)
    requires ItemKey(DbSecret, j) in w.store
    requires Extract(SecretHost, w.store[ItemKey(DbSecret, j)]) == Got(Text(ENDPOINT))
    ensures HostOf(w, j) == ENDPOINT != ""
  {
    hide ItemKey;
  }

  /** The next pass, up to its read of the secret. */
  lemma FourthStage(m2: M, m3: M, j: Jira, d: nat -> Draw) returns (m: M)
    requires m3.ctl.Idle? && SameIdentity(m3.w.cr, j) && m3.w.cr.spec == j.spec
    requires m3.w == After(m2.w, Stop(m2.w), d) && Stop(m2.w) > 12 && Stop(m3.w) == Stop(m2.w)
    ensures m == Calls(Step(m3, Begin(NoFault)), d, 10) && m.w == m3.w
    ensures m.ctl.Running? && At(m.ctl.p.jira.spec, m.ctl.pos) == Read(SecretHost)
  {
    hide Prog, Stop, After, Step;
    m := Calls(Step(m3, Begin(NoFault)), d, 10);
    CallsTrack(m3, d, 10);
    AfterKeepsIdentity(m2.w, Stop(m2.w), d);
    SecondPassIdle(m2.w, Stop(m2.w), d, 10, d);
    RdsMade(j.spec);
  }

  // ---- it is a reliable run --------------------------------------------------------------------

  predicate NoFaults(es: seq<Event>)
  {
    forall e | e in es :: e == Begin(NoFault) || (e.Call? && e.f == NoFault)
  }

  lemma {:induction false} NoFaultsReliable(m: M, es: seq<Event>, j: Jira)
    requires NoFaults(es)
    ensures ReliableRun(m, es, j)
  {
    hide Run, At;
    if es != [] {
      assert es[|es| - 1] in es;
      NoFaultsReliable(m, es[..|es| - 1], j);
    }
  }

  lemma {:induction false} ReliableConcat(m: M, a: seq<Event>, b: seq<Event>, j: Jira)
    requires ReliableRun(m, a, j) && ReliableRun(Run(m, a), b, j)
    ensures ReliableRun(m, a + b, j)
  {
    hide Run, Reliable;
    if b == [] {
      assert a + b == a;
    } else {
      var c := b[..|b| - 1];
      ReliableConcat(m, a, c, j);
      RunConcat(m, a, c);
      assert (a + b)[..|a + b| - 1] == a + c;
      assert (a + b)[|a + b| - 1] == b[|b| - 1];
    }
  }

  lemma {:induction false} CallsHaveNoFaults(d: nat -> Draw, n: nat)
    ensures NoFaults(CallEvents(d, n)) && NoFaults([Begin(NoFault)] + CallEvents(d, n))
  {
    if n > 0 {
      CallsHaveNoFaults(d, n - 1);
    }
  }

  /** One stage more of a reliable run. */
  lemma Extend(m: M, a: seq<Event>, b: seq<Event>, j: Jira)
    requires ReliableRun(m, a, j) && NoFaults(b)
    ensures ReliableRun(m, a + b, j) && Run(m, a + b) == Run(Run(m, a), b)
  {
    NoFaultsReliable(Run(m, a), b, j);
    ReliableConcat(m, a, b, j);
    RunConcat(m, a, b);
  }

  lemma OneEvent(m: M, a: seq<Event>, e: Event, j: Jira)
    requires ReliableRun(m, a, j) && Reliable(Run(m, a), e, j)
    ensures ReliableRun(m, a + [e], j) && Run(m, a + [e]) == Step(Run(m, a), e)
  {
    hide Run, Reliable, Step;
    assert (a + [e])[..|a|] == a;
    RunSnoc(m, a, e);
  }

  lemma PassIsQuiet(s: JiraSpec, d: nat -> Draw)
    ensures NoFaults(Convergence.PassEvents(s, d))
  {
    hide Prog;
    CallsHaveNoFaults(d, |Prog(s)|);
  }

  lemma PassUpTo(m: M, d: nat -> Draw, n: nat)
    ensures Run(m, [Begin(NoFault)] + CallEvents(d, n)) == Calls(Step(m, Begin(NoFault)), d, n)
  {
    hide Step;
    assert [Begin(NoFault)][..0] == [];
    assert Run(m, [Begin(NoFault)]) == Step(m, Begin(NoFault));
    CallsAreRun(Step(m, Begin(NoFault)), d, n);
    RunConcat(m, [Begin(NoFault)], CallEvents(d, n));
  }

  /** For every resource there is a reliable run from an empty cluster to a state in which a job uses the final
      passwords and the running pass is about to read the secret. */
  lemma PasswordsInUse(j: Jira, d: nat -> Draw) returns (es: seq<Event>)
    requires j.status == NO_STATUS
    ensures Clean(FirstState(j), j) && ReliableRun(FirstState(j), es, j)
    ensures var m := Run(FirstState(j), es);
            && Good(m, j) && Synced(m.w, j) && WorldText(RdsEndpoint, m.w, j) == ENDPOINT
            && ItemKey(FirstJob(j.spec), j) in m.births
            && m.ctl.Running? && At(m.ctl.p.jira.spec, m.ctl.pos) == Read(SecretHost)
  {
    hide Run, Step, CleanPassOf, Calls, Good, Synced, Settled, Clean, ReliableRun, Reliable, Stop, After, ItemKey, At,
      DatabaseUp, WorldText, NoFaults;
    var m0 := FirstState(j);
    FirstIsClean(j);
    var pass := Convergence.PassEvents(j.spec, d);
    PassIsQuiet(j.spec, d);
    NoFaultsReliable(m0, pass, j);
    Convergence.CleanPassIsRun(m0, d);
    var m1 := FirstStage(j, d);
    var up := Env(SetLive(ItemKey(Rds, j), PROVISIONED));
    var m2 := SecondStage(m1, j);
    OneEvent(m0, pass, up, j);
    var m3 := ThirdStage(m2, j, d);
    Convergence.CleanPassIsRun(m2, d);
    Extend(m0, pass + [up], pass, j);
    var m4 := FourthStage(m2, m3, j, d);
    CallsHaveNoFaults(d, 10);
    PassUpTo(m3, d, 10);
    Extend(m0, pass + [up] + pass, [Begin(NoFault)] + CallEvents(d, 10), j);
    es := pass + [up] + pass + ([Begin(NoFault)] + CallEvents(d, 10));
    assert Run(m0, es) == m4;
    CleanIsGood(m0, j);
    ReliableRunSettles(m0, es, j);
    JobIsBorn(m4, j);
  }

  lemma JobIsBorn(m: M, j: Jira)
    requires Good(m, j) && ItemKey(FirstJob(j.spec), j) in m.w.store
    ensures ItemKey(FirstJob(j.spec), j) in m.births
  {
    hide Prog, ItemKey, InPass, Ordered, Versioned, Sound, GetApplicationSet;
    JobIsThere(j.spec);
    assert MakesKey(Prog(j.spec)[JobAt(j.spec)], ItemKey(FirstJob(j.spec), j), j);
  }

  /** There a failed read replaces the passwords that the job uses, whatever they were and whatever is drawn. */
  lemma PasswordsReplaced(j: Jira, d: nat -> Draw, d1: Draw, d2: Draw) returns (es: seq<Event>)
    requires j.status == NO_STATUS
    ensures Clean(FirstState(j), j) && ReliableRun(FirstState(j), es, j)
    ensures var m := Run(FirstState(j), es);
            var m' := Run(m, [Call(Refused, d1), Call(NoFault, d2)]);
            var k := ItemKey(DbSecret, j);
            && ItemKey(FirstJob(j.spec), j) in m.births
            && k in m.w.store && k in m'.w.store
            && m'.w.store[k].body == GetRdsSecret(j, ENDPOINT, j.name, d2).body
            && m'.rewrites == m.rewrites + 1
  {
    hide Run, Good, Synced, Clean, ReliableRun, ItemKey, At, WorldText, GetRdsSecret;
    es := PasswordsInUse(j, d);
    FailedReadRewritesSecret(Run(FirstState(j), es), Refused, d1, d2, j);
  }
}
