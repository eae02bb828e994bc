/** How often the database passwords change. The secret is rewritten when the hostname read from it differs
    from the provider's endpoint, and a failed read counts as the empty hostname. */
module Secrets {
  import opened Api
  import opened Builders
  import opened Plan
  import opened Machine
  import opened Safety
  import opened Frame
  import opened Soundness

  /** The additional assumption: the read of the secret never fails. */
  ghost predicate Reliable(m: M, e: Event, j: Jira)
  {
    && Steady(m, e, j)
    && (e.Call? && m.ctl.Running? && At(m.ctl.p.jira.spec, m.ctl.pos) == Read(SecretHost) ==> e.f == NoFault)
  }

  ghost predicate ReliableRun(m: M, es: seq<Event>, j: Jira)
  {
    es != [] ==> ReliableRun(m, es[..|es| - 1], j) && Reliable(Run(m, es[..|es| - 1]), es[|es| - 1], j)
  }

  ghost predicate Good(m: M, j: Jira)
  {
    Inv(m, j) && Versioned(m) && Sound(m, j)
  }

  /** The hostname that SyncSecret compares is the stored one, and a rewrite has synced the secret. */
  ghost predicate Settled(m: M, j: Jira)
  {
    && (m.ctl.Running? && m.ctl.pos == SYNC_SECRET_AT ==> TextOf(m.ctl.p, SecretHost) == HostOf(m.w, j))
    && (m.rewrites == 0 || (m.rewrites == 1 && Synced(m.w, j)))
  }

  lemma GoodStep(m: M, e: Event, j: Jira)
    requires Good(m, j) && Steady(m, e, j)
    ensures Good(Step(m, e), j)
  {
    hide Inv, Versioned, Sound, Step;
    StepKeepsInv(m, e, j);
    StepKeepsVersioned(m, e);
    StepKeepsSound(m, e, j);
  }

  /** Only SyncSecret counts a rewrite. */
  lemma RewritesKept(m: M, pos: nat, p: Pass, f: Fault, d: Draw)
    requires At(p.jira.spec, pos) != SyncSecret
    ensures Exec(m, pos, p, f, d).rewrites == m.rewrites
  {
    hide At, Build, FailAfter, TextOf, ManifestPath, GetApplicationSet, Peek, Get, Set, ValueOf, Judge;
  }

  /** A secret that was read without a fault is compared as it is stored. */
  lemma ReadSecretHost(m: M, f: Fault, d: Draw, j: Jira)
    requires Good(m, j) && m.ctl.Running? && At(m.ctl.p.jira.spec, m.ctl.pos) == Read(SecretHost) && f == NoFault
    ensures var m' := DoRead(m, m.ctl.pos, m.ctl.p, SecretHost, f);
            m'.ctl.Running? && TextOf(m'.ctl.p, SecretHost) == HostOf(m'.w, j)
  {
    InstrAt(m, j);
    SecretPositions(Read(SecretHost), j.spec);
    SecretExists(m, j);
    hide Inv, Sound, Versioned, Prog, Rank, At;
  }

  lemma SecretExists(m: M, j: Jira)
    requires Inv(m, j) && m.ctl.Running? && m.ctl.pos > 3
    ensures ItemKey(DbSecret, j) in m.w.store
  {
    ProgLength(j.spec);
    assert Prog(j.spec)[3] == Create(DbSecret);
    hide Prog, ItemKey, GetApplicationSet, Ordered;
    assert Done(Prog(j.spec)[3], m, j);
  }

  lemma CallSettles(m: M, f: Fault, d: Draw, j: Jira)
    requires Good(m, j) && Settled(m, j) && m.ctl.Running? && Reliable(m, Call(f, d), j)
    ensures Settled(Step(m, Call(f, d)), j)
    ensures Synced(m.w, j) ==>
              Step(m, Call(f, d)).rewrites == m.rewrites
              && ItemKey(DbSecret, j) in m.w.store && ItemKey(DbSecret, j) in Step(m, Call(f, d)).w.store
              && Step(m, Call(f, d)).w.store[ItemKey(DbSecret, j)] == m.w.store[ItemKey(DbSecret, j)]
  {
    var pos, p := m.ctl.pos, m.ctl.p;
    var m' := Exec(m, pos, p, f, d);
    var k := ItemKey(DbSecret, j);
    assert k.kind == Secret;
    CallGrows(m, f, d, j);
    InstrAt(m, j);
    SecretPositions(Prog(j.spec)[pos], j.spec);
    FilesAreSets(m, j);
    NextPos(m, pos, p, f, d);
    if At(p.jira.spec, pos) == SyncSecret {
      SyncSettles(m, f, d, j);
    } else {
      RewritesKept(m, pos, p, f, d);
      if k in m.w.store {
        SecretKept(m, pos, p, f, d, k);
      }
      if At(p.jira.spec, pos) == Read(SecretHost) {
        ReadSecretHost(m, f, d, j);
      }
      hide Inv, Sound, Versioned, Exec, Prog, Rank, ItemKey, WorldText;
    }
  }

  lemma NextPos(m: M, pos: nat, p: Pass, f: Fault, d: Draw)
    ensures Exec(m, pos, p, f, d).ctl.Running? ==> Exec(m, pos, p, f, d).ctl.pos == pos + 1
  {
    hide Exec, GetLiquibaseConfigMap;
    UnfoldCall(m, pos, p, f, d);
    hide At, Build, FailAfter, TextOf, ManifestPath, GetApplicationSet, Peek, Get, Set, ValueOf, Judge, GetRdsSecret;
  }

  lemma SyncSettles(m: M, f: Fault, d: Draw, j: Jira)
    requires Good(m, j) && Settled(m, j) && m.ctl.Running? && At(m.ctl.p.jira.spec, m.ctl.pos) == SyncSecret
    ensures Settled(Exec(m, m.ctl.pos, m.ctl.p, f, d), j)
    ensures Synced(m.w, j) ==>
              Exec(m, m.ctl.pos, m.ctl.p, f, d).rewrites == m.rewrites
              && ItemKey(DbSecret, j) in m.w.store && Exec(m, m.ctl.pos, m.ctl.p, f, d).w.store == m.w.store
  {
    var pos, p := m.ctl.pos, m.ctl.p;
    var m' := DoSyncSecret(m, pos, p, f, d);
    assert m' == Exec(m, pos, p, f, d);
    CallExtends(m, f, d, j);
    InstrAt(m, j);
    SecretPositions(SyncSecret, j.spec);
    PassOfSound(m, j);
    EndpointRead(p, pos, m.w, j);
    hide Inv, Sound, Versioned, Exec, Prog, Rank, At, StatusSound, LocalsSound, PassOpen;
    SyncOutcome(m, pos, p, f, d, j);
    hide DoSyncSecret, WorldText, HostOf;
    TextKept(RdsEndpoint, m.w, m'.w, j);
  }

  lemma SyncOutcome(m: M, pos: nat, p: Pass, f: Fault, d: Draw, j: Jira)
    requires SameIdentity(p.jira, j)
    ensures var m' := DoSyncSecret(m, pos, p, f, d);
            && (m'.ctl.Running? ==> m'.ctl.pos == pos + 1)
            && (TextOf(p, SecretHost) == TextOf(p, RdsEndpoint) ==> m'.w == m.w && m'.rewrites == m.rewrites)
            && (|| (m'.rewrites == m.rewrites && m'.w == m.w)
                || (m'.rewrites == m.rewrites + 1 && HostOf(m'.w, j) == TextOf(p, RdsEndpoint)))
  {
    hide TextOf, FailAfter;
  }

  lemma StepSettles(m: M, e: Event, j: Jira)
    requires Good(m, j) && Settled(m, j) && Reliable(m, e, j)
    ensures Settled(Step(m, e), j)
    ensures Synced(m.w, j) ==> Synced(Step(m, e).w, j) && Step(m, e).rewrites == m.rewrites
    ensures Synced(m.w, j) ==>
              var k := ItemKey(DbSecret, j);
              k in m.w.store && k in Step(m, e).w.store && Step(m, e).w.store[k].body == m.w.store[k].body
  {
    match e
    case Call(f, d) =>
      if m.ctl.Running? {
        CallSettles(m, f, d, j);
        CallGrows(m, f, d, j);
      }
      hide Inv, Sound, Versioned, Exec, Settled, ItemKey, WorldText;
    case Env(a) =>
      ActGrows(m, a, j);
      ActKeepsHost(m, a, j);
      ActKeepsSecret(m, a, j);
      hide Inv, Sound, Versioned, ItemKey, WorldText, Extends, Steady;
    case Begin(_) => hide Inv, Sound, Versioned, WorldText;
    case Crash => hide Inv, Sound, Versioned, WorldText;
  }

  lemma ActKeepsSecret(m: M, a: Action, j: Jira)
    requires Benign(Env(a), j)
    ensures Act(m, a).ctl == m.ctl && Act(m, a).rewrites == m.rewrites
    ensures var k := ItemKey(DbSecret, j);
            k in m.w.store ==> k in Act(m, a).w.store && Act(m, a).w.store[k].body == m.w.store[k].body
  {
    assert ItemKey(DbSecret, j).kind == Secret;
    hide ItemKey;
  }

  lemma {:induction false} ReliableRunSettles(m: M, es: seq<Event>, j: Jira)
    requires Good(m, j) && Settled(m, j) && ReliableRun(m, es, j)
    ensures Good(Run(m, es), j) && Settled(Run(m, es), j)
  {
    hide Good, Settled, Step;
    if es != [] {
      var u, e := Run(m, es[..|es| - 1]), es[|es| - 1];
      ReliableRunSettles(m, es[..|es| - 1], j);
      GoodStep(u, e, j);
      StepSettles(u, e, j);
    }
  }

  /** With reliable reads and an endpoint that never changes, the passwords drawn at the creation of the
      secret are replaced at most once, and then the secret carries the endpoint. */
  lemma AtMostOneRewrite(m0: M, es: seq<Event>, j: Jira)
    requires Clean(m0, j) && ReliableRun(m0, es, j)
    ensures var m := Run(m0, es); m.rewrites <= 1 && (m.rewrites == 1 ==> Synced(m.w, j))
  {
    CleanIsGood(m0, j);
    hide Clean, Good, Run;
    ReliableRunSettles(m0, es, j);
  }

  lemma CleanIsGood(m0: M, j: Jira)
    requires Clean(m0, j)
    ensures Good(m0, j) && Settled(m0, j)
  {
    CleanIsInv(m0, j);
    InitialIsIntact(m0);
    assert Sound(m0, j) by { hide Prog, WorldText, Synced, JobDone; }
    hide Inv, Sound, Versioned;
  }

  /** Once the secret carries the endpoint, its content never changes again. */
  lemma {:induction false} SyncedSecretIsFinal(m: M, es: seq<Event>, j: Jira)
    requires Good(m, j) && Settled(m, j) && Synced(m.w, j) && ReliableRun(m, es, j)
    ensures var k := ItemKey(DbSecret, j);
            var m' := Run(m, es);
            && Synced(m'.w, j) && m'.rewrites == m.rewrites
            && k in m.w.store && k in m'.w.store && m'.w.store[k].body == m.w.store[k].body
  {
    hide Good, Settled, Step, WorldText, ItemKey;
    if es != [] {
      var u, e := Run(m, es[..|es| - 1]), es[|es| - 1];
      SyncedSecretIsFinal(m, es[..|es| - 1], j);
      ReliableRunSettles(m, es[..|es| - 1], j);
      StepSettles(u, e, j);
    }
  }

  /** A job that uses the passwords exists only when they are final. */
  lemma JobsSeeFinalPasswords(m0: M, before: seq<Event>, after: seq<Event>, j: Jira)
    requires Clean(m0, j) && ReliableRun(m0, before, j) && ReliableRun(Run(m0, before), after, j)
    requires ItemKey(ResetJob, j) in Run(m0, before).births || ItemKey(LiquibaseJob, j) in Run(m0, before).births
    ensures var k := ItemKey(DbSecret, j);
            var m, m' := Run(m0, before), Run(Run(m0, before), after);
            && Synced(m.w, j)
            && k in m.w.store && k in m'.w.store && m'.w.store[k].body == m.w.store[k].body
  {
    CleanIsGood(m0, j);
    hide Clean, Good, Run, Settled;
    ReliableRunSettles(m0, before, j);
    JobsMeanSynced(Run(m0, before), j);
    hide Synced;
    SyncedSecretIsFinal(Run(m0, before), after, j);
  }

  lemma JobsMeanSynced(m: M, j: Jira)
    requires Good(m, j)
    requires ItemKey(ResetJob, j) in m.births || ItemKey(LiquibaseJob, j) in m.births
    ensures Synced(m.w, j)
  {
    hide Inv, Versioned, StatusSound, PassSound, WorldText, ItemKey, Synced, BirthSound;
    JobKeys(j);
    JobIsNoDatabaseItem(m, j, if ItemKey(ResetJob, j) in m.births then ItemKey(ResetJob, j) else ItemKey(LiquibaseJob, j));
  }

  lemma JobKeys(j: Jira)
    ensures ItemKey(ResetJob, j).kind == Job && ItemKey(LiquibaseJob, j).kind == Job
  {
  }

  lemma JobIsNoDatabaseItem(m: M, j: Jira, k: Key)
    requires Inv(m, j) && k in m.births && k.kind == Job
    ensures !DatabaseItem(m.births[k].item)
  {
    hide InPass, Ordered, PlanKey, GetApplicationSet;
    assert ItemKey(m.births[k].item, j) == k;
  }

  /** Without reliable reads this fails: from any state in which the secret already carries the endpoint,
      the two calls that read and compare it draw new passwords exactly when the read failed, even though
      jobs and the database may long be using the old ones. */
  lemma FailedReadRewritesSecret(m: M, f: Fault, d1: Draw, d2: Draw, j: Jira)
    requires Good(m, j) && Synced(m.w, j)
    requires m.ctl.Running? && At(m.ctl.p.jira.spec, m.ctl.pos) == Read(SecretHost)
    ensures var k := ItemKey(DbSecret, j);
            var m' := Run(m, [Call(f, d1), Call(NoFault, d2)]);
            && k in m.w.store && k in m'.w.store
            && m'.w.store[k].body ==
               (if f == NoFault then m.w.store[k].body
                else GetRdsSecret(j, WorldText(RdsEndpoint, m.w, j), j.name, d2).body)
            && m'.rewrites == m.rewrites + (if f == NoFault then 0 else 1)
  {
    hide Good, Prog, Rank, DoRead, Exec, TextOf, DoSyncSecret, GetRdsSecret, ItemKey, At, WorldText;
    var u := Step(m, Call(f, d1));
    TwoCalls(m, Call(f, d1), Call(NoFault, d2));
    ReadingPosition(m, j);
    assert u == DoRead(m, 10, m.ctl.p, SecretHost, f) by { UnfoldRead(m, f, d1); }
    AfterFailedRead(m, f, j);
    KnownEndpoint(m, j);
    assert Step(u, Call(NoFault, d2)) == DoSyncSecret(u, 11, u.ctl.p, NoFault, d2) by { UnfoldSync(u, 11, NoFault, d2); }
    AfterSync(u, d2, j);
  }

  lemma TwoCalls(m: M, a: Event, b: Event)
    ensures Run(m, [a, b]) == Step(Step(m, a), b)
  {
    hide Step;
    assert [a, b][..1] == [a];
    assert [a][..0] == [];
    assert Run(m, [a]) == Step(m, a);
  }

  lemma UnfoldRead(m: M, f: Fault, d: Draw)
    requires m.ctl.Running? && At(m.ctl.p.jira.spec, m.ctl.pos) == Read(SecretHost)
    ensures Step(m, Call(f, d)) == DoRead(m, m.ctl.pos, m.ctl.p, SecretHost, f)
  {
    hide At, DoRead;
  }

  lemma UnfoldSync(m: M, pos: nat, f: Fault, d: Draw)
    requires m.ctl.Running? && m.ctl.pos == pos && At(m.ctl.p.jira.spec, pos) == SyncSecret
    ensures Step(m, Call(f, d)) == DoSyncSecret(m, pos, m.ctl.p, f, d)
  {
    hide At, DoSyncSecret;
  }

  lemma ReadingPosition(m: M, j: Jira)
    requires Good(m, j) && m.ctl.Running? && At(m.ctl.p.jira.spec, m.ctl.pos) == Read(SecretHost)
    ensures m.ctl.pos == 10 && ItemKey(DbSecret, j) in m.w.store
    ensures SameIdentity(m.ctl.p.jira, j) && m.ctl.p.jira.spec == j.spec
    ensures At(j.spec, 11) == SyncSecret
  {
    InstrAt(m, j);
    SecretPositions(Read(SecretHost), j.spec);
    SecretExists(m, j);
    ProgLength(j.spec);
    hide Inv, Sound, Versioned, Rank;
  }

  lemma AfterSync(u: M, d: Draw, j: Jira)
    requires u.ctl.Running? && SameIdentity(u.ctl.p.jira, j) && ItemKey(DbSecret, j) in u.w.store
    ensures var k := ItemKey(DbSecret, j);
            var m' := DoSyncSecret(u, 11, u.ctl.p, NoFault, d);
            var same := TextOf(u.ctl.p, SecretHost) == TextOf(u.ctl.p, RdsEndpoint);
            && k in m'.w.store
            && m'.w.store[k].body ==
               (if same then u.w.store[k].body else GetRdsSecret(j, TextOf(u.ctl.p, RdsEndpoint), j.name, d).body)
            && m'.rewrites == u.rewrites + (if same then 0 else 1)
  {
    hide TextOf;
  }

  lemma AfterFailedRead(m: M, f: Fault, j: Jira)
    requires m.ctl.Running? && m.ctl.pos == 10 && ItemKey(DbSecret, j) in m.w.store && SameIdentity(m.ctl.p.jira, j)
    ensures var u := DoRead(m, 10, m.ctl.p, SecretHost, f);
            && u.ctl.Running? && u.ctl.pos == 11 && u.ctl.p.jira == m.ctl.p.jira && u.w == m.w && u.rewrites == m.rewrites
            && TextOf(u.ctl.p, RdsEndpoint) == TextOf(m.ctl.p, RdsEndpoint)
            && TextOf(u.ctl.p, SecretHost) == (if f == NoFault then HostOf(m.w, j) else "")
  {
  }

  lemma KnownEndpoint(m: M, j: Jira)
    requires Good(m, j) && m.ctl.Running? && m.ctl.pos == 10
    ensures TextOf(m.ctl.p, RdsEndpoint) != "" && TextOf(m.ctl.p, RdsEndpoint) == WorldText(RdsEndpoint, m.w, j)
  {
    ProgLength(j.spec);
    assert Prog(j.spec)[9] == Wait(EndpointKnown);
    hide Prog, Inv, Versioned, StatusSound, BirthsSound, WorldText;
    assert PassOpen(m.ctl.p, m.ctl.pos, j.spec);
  }
}
