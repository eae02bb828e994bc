/** When the database secret changes, in any run at all: no assumption on users, providers, faults or spec. */
module Accounting {
  import opened Api
  import opened Builders
  import opened Plan
  import opened Machine
  import opened Frame
  import Soundness
  import Secrets
  import Refinement
  import Safety
  import Client

  /** The event is the call that compares the hostname read before with the endpoint, finds them different,
      and reaches an existing secret. */
  predicate Rewrites(m: M, e: Event)
  {
    && e.Call? && m.ctl.Running? && At(m.ctl.p.jira.spec, m.ctl.pos) == SyncSecret
    && TextOf(m.ctl.p, SecretHost) != TextOf(m.ctl.p, RdsEndpoint)
    && Key(Secret, m.ctl.p.jira.name, SECRET_NAME) in m.w.store && e.f != Refused
  }

  lemma CountsExactly(m: M, e: Event)
    ensures Step(m, e).rewrites == m.rewrites + if Rewrites(m, e) then 1 else 0
  {
    hide Exec, At, TextOf;
    if e.Call? && m.ctl.Running? {
      var pos, p := m.ctl.pos, m.ctl.p;
      if At(p.jira.spec, pos) == SyncSecret {
        UnfoldCall(m, pos, p, e.f, e.d);
      } else {
        Secrets.RewritesKept(m, pos, p, e.f, e.d);
      }
    }
  }

  /** A stored secret that nobody deletes keeps its content in every step, except that a counted rewrite
      replaces it by what the builder makes of the endpoint and three new passwords. */
  lemma SecretChangesAreCounted(m: M, e: Event)
    requires Versioned(m) && Intact(m)
    requires Key(Secret, m.w.cr.name, SECRET_NAME) in m.w.store && e != Env(Delete(Key(Secret, m.w.cr.name, SECRET_NAME)))
    ensures var k := Key(Secret, m.w.cr.name, SECRET_NAME);
            var m' := Step(m, e);
            && k in m'.w.store
            && m'.w.store[k].body ==
               if Rewrites(m, e)
               then
                 var host := TextOf(m.ctl.p, RdsEndpoint);
                 SecretBody(SecretData(
                              host, "jdbc:postgresql://" + host + "/postgres", "jdbc:postgresql://" + host + "/jira",
                              "postgres", e.d.password, e.d.appPassword, e.d.appRoPassword))
               else m.w.store[k].body
  {
    hide Exec, At, TextOf, Build;
    if e.Call? && m.ctl.Running? {
      CallChangesAreCounted(m, e);
    }
  }

  lemma CallChangesAreCounted(m: M, e: Event)
    requires Versioned(m) && Intact(m) && e.Call? && m.ctl.Running?
    requires Key(Secret, m.w.cr.name, SECRET_NAME) in m.w.store
    ensures var k := Key(Secret, m.w.cr.name, SECRET_NAME);
            var m' := Step(m, e);
            && k in m'.w.store
            && m'.w.store[k].body ==
               if Rewrites(m, e)
               then GetRdsSecret(m.ctl.p.jira, TextOf(m.ctl.p, RdsEndpoint), m.ctl.p.jira.name, e.d).body
               else m.w.store[k].body
  {
    hide Exec, At, TextOf, Build;
    var pos, p := m.ctl.pos, m.ctl.p;
    if At(p.jira.spec, pos) == SyncSecret {
      UnfoldCall(m, pos, p, e.f, e.d);
    } else {
      Soundness.SecretKept(m, pos, p, e.f, e.d, Key(Secret, m.w.cr.name, SECRET_NAME));
    }
  }

  /** The passes that a run begins. */
  function Begun(es: seq<Event>): nat
  {
    if es == [] then 0 else Begun(es[..|es| - 1]) + if es[|es| - 1].Begin? then 1 else 0
  }

  /** Whether the running pass may still rewrite the secret. */
  function Credit(m: M): nat
  {
    if m.ctl.Running? && m.ctl.pos <= Soundness.SYNC_SECRET_AT then 1 else 0
  }

  lemma SyncOnlyThere(s: JiraSpec, pos: nat)
    requires At(s, pos) == SyncSecret
    ensures pos == Soundness.SYNC_SECRET_AT
  {
    hide Prog;
    if pos < |Prog(s)| {
      Refinement.SyncPositions(s, pos);
    }
  }

  lemma CreditSpent(m: M, e: Event)
    ensures Step(m, e).rewrites + Credit(Step(m, e)) <= m.rewrites + Credit(m) + if e.Begin? then 1 else 0
  {
    hide Exec, At, TextOf, Act;
    CountsExactly(m, e);
    match e
    case Call(f, d) =>
      if m.ctl.Running? {
        var pos, p := m.ctl.pos, m.ctl.p;
        Secrets.NextPos(m, pos, p, f, d);
        if At(p.jira.spec, pos) == SyncSecret {
          SyncOnlyThere(p.jira.spec, pos);
        }
      }
    case Env(a) => Client.ActKeepsCtl(m, a);
    case _ =>
  }

  /** In every run the secret is rewritten at most once for each pass. */
  lemma {:induction false} OneRewritePerPass(m: M, es: seq<Event>)
    ensures Run(m, es).rewrites + Credit(Run(m, es)) <= m.rewrites + Credit(m) + Begun(es)
  {
    hide Step, Credit;
    if es != [] {
      OneRewritePerPass(m, es[..|es| - 1]);
      CreditSpent(Run(m, es[..|es| - 1]), es[|es| - 1]);
    }
  }

  /** If a run counts no rewrite, the passwords are those at its start. */
  lemma {:induction false} NoRewriteNoChange(m: M, es: seq<Event>)
    requires Versioned(m) && Intact(m) && Key(Secret, m.w.cr.name, SECRET_NAME) in m.w.store
    requires forall e | e in es :: e != Env(Delete(Key(Secret, m.w.cr.name, SECRET_NAME)))
    ensures var k := Key(Secret, m.w.cr.name, SECRET_NAME);
            var m' := Run(m, es);
            && m'.w.cr.name == m.w.cr.name && m'.rewrites >= m.rewrites && k in m'.w.store
            && (m'.rewrites == m.rewrites ==> m'.w.store[k].body == m.w.store[k].body)
  {
    hide Step, Versioned, Intact, Rewrites, TextOf;
    if es != [] {
      var init, e := es[..|es| - 1], es[|es| - 1];
      assert forall x | x in init :: x in es;
      assert e in es;
      NoRewriteNoChange(m, init);
      RunKeepsIntact(m, init);
      var u := Run(m, init);
      CountsExactly(u, e);
      SecretChangesAreCounted(u, e);
      NameKept(u, e);
    }
  }

  lemma NameKept(m: M, e: Event)
    requires Versioned(m)
    ensures Step(m, e).w.cr.name == m.w.cr.name
  {
    hide Exec;
    if e.Call? && m.ctl.Running? {
      CallIsOrderly(m, m.ctl.pos, m.ctl.p, e.f, e.d);
    }
  }

  // ---- what is in it ---------------------------------------------------------------------------

  /** Both URLs lead to the hostname in the same secret. */
  predicate Consistent(b: Body)
  {
    && b.SecretBody? && b.data.username == "postgres"
    && b.data.url == "jdbc:postgresql://" + b.data.hostname + "/postgres"
    && b.data.jdbcUrl == "jdbc:postgresql://" + b.data.hostname + "/jira"
  }

  ghost predicate SecretConsistent(m: M)
  {
    var k := Key(Secret, m.w.cr.name, SECRET_NAME);
    k in m.w.store ==> Consistent(m.w.store[k].body)
  }

  lemma SecretOnlyFromItem(item: Item, j: Jira)
    requires ItemKey(item, j).kind == Secret
    ensures item == DbSecret
  {
  }

  /** A new secret has no hostname yet, and the passwords that were drawn for it. */
  lemma NewSecretIsConsistent(m: M, e: Event)
    requires Versioned(m) && Intact(m)
    requires var k := Key(Secret, m.w.cr.name, SECRET_NAME); k !in m.w.store && k in Step(m, e).w.store
    ensures Consistent(Step(m, e).w.store[Key(Secret, m.w.cr.name, SECRET_NAME)].body) && e.Call?
    ensures var data := Step(m, e).w.store[Key(Secret, m.w.cr.name, SECRET_NAME)].body.data;
            && data.hostname == "replaceme"
            && data.password == e.d.password && data.appPassword == e.d.appPassword && data.appRoPassword == e.d.appRoPassword
  {
    hide Exec, At, Build, ItemKey, TextOf, Versioned, Consistent, DoCreate, DoApply;
    var k := Key(Secret, m.w.cr.name, SECRET_NAME);
    var pos, p := m.ctl.pos, m.ctl.p;
    UnfoldCall(m, pos, p, e.f, e.d);
    Safety.ExecQuiet(m, pos, p, e.f, e.d);
    match At(p.jira.spec, pos) {
      case Create(item) =>
        NewFromCreate(m, pos, p, item, e.f, e.d, k);
        BuildKey(item, p, e.d);
        SecretOnlyFromItem(item, p.jira);
        BuiltSecret(p, e.d);
      case ApplyManifest => NewFromApply(m, pos, p, e.f, e.d, k);
      case _ =>
    }
  }

  lemma NewFromCreate(m: M, pos: nat, p: Pass, item: Item, f: Fault, d: Draw, k: Key)
    requires k !in m.w.store && k in DoCreate(m, pos, p, item, f, d).w.store
    ensures k == Build(item, p, d).key && DoCreate(m, pos, p, item, f, d).w.store[k] == Build(item, p, d)
  {
    hide Build, FailAfter;
  }

  lemma NewFromApply(m: M, pos: nat, p: Pass, f: Fault, d: Draw, k: Key)
    requires Intact(m) && k !in m.w.store && k in DoApply(m, pos, p, f, d).w.store
    ensures k.kind == ApplicationSet
  {
    hide Build, FailAfter, ManifestPath;
  }

  lemma BuiltSecret(p: Pass, d: Draw)
    ensures var b := Build(DbSecret, p, d).body;
            && Consistent(b) && b.data.hostname == "replaceme"
            && b.data.password == d.password && b.data.appPassword == d.appPassword && b.data.appRoPassword == d.appRoPassword
  {
  }

  /** In every run, whatever happens, the URLs in the secret belong to its hostname. */
  lemma {:induction false} SecretStaysConsistent(m: M, es: seq<Event>)
    requires Versioned(m) && Intact(m) && SecretConsistent(m)
    ensures SecretConsistent(Run(m, es))
  {
    hide Step, Versioned, Intact, Rewrites, TextOf, Consistent;
    if es != [] {
      var init, e := es[..|es| - 1], es[|es| - 1];
      SecretStaysConsistent(m, init);
      RunKeepsIntact(m, init);
      StepStaysConsistent(Run(m, init), e);
    }
  }

  lemma StepStaysConsistent(m: M, e: Event)
    requires Versioned(m) && Intact(m) && SecretConsistent(m)
    ensures SecretConsistent(Step(m, e))
  {
    hide Step, Versioned, Intact, Rewrites, TextOf;
    var k := Key(Secret, m.w.cr.name, SECRET_NAME);
    NameKept(m, e);
    if e == Env(Delete(k)) {
      DeletedIsGone(m, k);
    } else if k in m.w.store {
      SecretChangesAreCounted(m, e);
    } else if k in Step(m, e).w.store {
      NewSecretIsConsistent(m, e);
    }
  }

  lemma DeletedIsGone(m: M, k: Key)
    ensures k !in Step(m, Env(Delete(k))).w.store
  {
  }
}
