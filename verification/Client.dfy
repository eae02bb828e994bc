/** The operator's side of the API server, the disk and kubectl, as an object with mutable state. Every
    call may fail, and anything may have happened just before it. */
module Client {
  import opened Api
  import opened Builders
  import opened Plan
  import opened Machine
  import Frame
  import Manifest
  import Template

  /** What Create reports: nothing, AlreadyExists, or any other error. */
  datatype Error = Nil | AlreadyExists | Failed

  /** What the running pass has read so far, the call it made last, and whether that call reported an error other
      than AlreadyExists. It outlives the pass. */
  datatype Log = Log(seen: map<Query, Reading>, latest: Option<Instr>, failed: bool) {
    function Saw(q: Query): Option<Reading>
    {
      if q in seen then Some(seen[q]) else None
    }

    function Number(q: Query): int
    {
      if q in seen && seen[q].Count? then seen[q].n else 0
    }
  }

  class Cluster {
    /** The cluster, the custom resource and the disk, and the number of calls made so far. */
    var w: World
    var tick: nat

    /** How each call fares, and what others do just before it. */
    const faults: nat -> Fault
    const acts: nat -> seq<Action>

    /** The state in which the running pass began, what has happened since, and where that leads. */
    ghost var start: M
    ghost var events: seq<Event>
    ghost var model: M
    ghost var log: Log

    constructor (w0: World, faults: nat -> Fault, acts: nat -> seq<Action>)
      ensures Valid() && w == w0 && tick == 0 && this.faults == faults && this.acts == acts
      ensures model.ctl == Idle(NeverRan) && events == []
    {
      w, tick := w0, 0;
      this.faults, this.acts := faults, acts;
      start := M(w0, Idle(NeverRan), {}, map[], map[w0.cr.version := w0.cr.spec], 0);
      model := M(w0, Idle(NeverRan), {}, map[], map[w0.cr.version := w0.cr.spec], 0);
      events := [];
      log := Log(map[], None, false);
    }

    /** An event of the running pass: one of its calls, or something the environment does. */
    ghost predicate Expected(e: Event)
    {
      || (e.Call? && (e.f == NoFault || exists t: nat :: e.f == faults(t)))
      || (e.Env? && exists t: nat :: e.a in acts(t))
    }

    /** No call fails, and nobody else does anything. */
    ghost predicate Undisturbed()
    {
      forall t: nat :: faults(t) == NoFault && acts(t) == []
    }

    /** The object is in the state that the machine reaches through the recorded events. */
    ghost predicate Valid()
      reads this
    {
      && model == Run(start, events) && model.w == w && Frame.Versioned(model)
      && forall e | e in events :: Expected(e)
    }

    /** The running pass stands at an instruction. */
    ghost predicate Facing(i: Instr)
      reads this
    {
      Valid() && model.ctl.Running? && At(model.ctl.p.jira.spec, model.ctl.pos) == i
    }

    /** The world that the next call meets, after what others do before it. */
    ghost function Met(): World
      reads this
    {
      Acts(model, acts(tick)).w
    }

    /** How the next call fares. */
    ghost function Luck(): Fault
      reads this
    {
      faults(tick)
    }

    ghost method Record(e: Event)
      requires model == Run(start, events) && (forall e | e in events :: Expected(e)) && Expected(e)
      requires Frame.Versioned(model)
      modifies this`events, this`model
      ensures model == Step(old(model), e) && model == Run(start, events) && Frame.Versioned(model)
      ensures forall e | e in events :: Expected(e)
    {
      RunSnoc(start, events, e);
      Frame.StepKeepsVersioned(model, e);
      hide Run, Step;
      events := events + [e];
      model := Step(model, e);
    }

    method Happen(a: Action)
      requires Valid() && exists t: nat :: a in acts(t)
      modifies this`w, this`events, this`model
      ensures Valid() && model == Act(old(model), a)
    {
      match a {
        case SetLive(k, live) =>
          if k in w.store { w := w.(store := w.store[k := w.store[k].(live := live)]); }
        case Provision(name, source) =>
          var k := Key(PersistentVolume, "", name);
          if k !in w.store {
            var o := Obj(k, [], PvBody(0, source, ReadWriteMany, Key(PersistentVolumeClaim, "", ""), "", []), FRESH);
            w := w.(store := w.store[k := o]);
          }
        case Delete(k) => w := w.(store := w.store - {k});
        case EditSpec(s) => w := w.(cr := w.cr.(spec := s, version := w.cr.version + 1));
        case Touch => w := w.(cr := w.cr.(version := w.cr.version + 1));
        case SetChangelog(c) => w := w.(changelog := c);
        case SetApplication(a) => w := w.(app := a);
      }
      Record(Env(a));
    }

    /** What others do before the next call. */
    method Interfere()
      requires Valid()
      modifies this`w, this`events, this`model
      ensures Valid() && model == Acts(old(model), acts(tick)) && model.ctl == old(model.ctl)
    {
      hide Act, Run;
      var i := 0;
      while i < |acts(tick)|
        invariant i <= |acts(tick)|
        invariant Valid() && model.ctl == old(model.ctl)
        invariant Acts(model, acts(tick)[i..]) == Acts(old(model), acts(tick))
      {
        assert acts(tick)[i] in acts(tick);
        assert acts(tick)[i..][0] == acts(tick)[i] && acts(tick)[i..][1..] == acts(tick)[i + 1..];
        ActKeepsCtl(model, acts(tick)[i]);
        Happen(acts(tick)[i]);
        i := i + 1;
      }
    }

    /** Read the custom resource: this begins the pass. */
    method GetJira() returns (jira: Option<Jira>)
      requires Valid() && model.ctl.Idle?
      modifies this
      ensures Valid() && tick == old(tick) + 1 && events == []
      ensures start == Step(Acts(old(model), acts(old(tick))), Begin(faults(old(tick)))) && model == start
      ensures model.ctl ==
              match jira case None => Idle(Returned(0, false)) case Some(j) => Running(0, Pass(j, map[], false))
      ensures w == old(Met()) && jira == if old(Luck()) == NoFault then Some(w.cr) else None
      ensures log == Log(map[], None, jira.None?)
    {
      hide Acts, Run;
      Interfere();
      var f := faults(tick);
      assert f == faults(tick);
      tick := tick + 1;
      jira := if f == NoFault then Some(w.cr) else None;
      start := Step(model, Begin(f));
      model := start;
      events := [];
      log := Log(map[], None, jira.None?);
      EmptyRun(start);
    }

    method Create(o: Obj, ghost item: Item, ghost d: Draw) returns (err: Error)
      requires Facing(Plan.Create(item)) && o == Build(item, model.ctl.p, d)
      modifies this`w, this`tick, this`events, this`model, this`log
      ensures tick == old(tick) + 1 && Valid()
      ensures model.ctl ==
              if err == Failed then Idle(Returned(FailAfter(Plan.Create(item)), true))
              else Running(old(model.ctl.pos) + 1, old(model.ctl.p).(existed := err == AlreadyExists))
      ensures Creates(o, old(Met()), old(Luck()), w, err)
      ensures log == Log(old(log.seen), Some(Plan.Create(item)), err == Failed)
    {
      hide Build, Acts, Run, At, FailAfter;
      Interfere();
      var f := faults(tick);
      assert f == faults(tick);
      tick := tick + 1;
      var taken := o.key in w.store;
      ghost var pos, p := model.ctl.pos, model.ctl.p;
      UnfoldCall(model, pos, p, f, d);
      if !taken && f != Refused {
        w := w.(store := w.store[o.key := o]);
      }
      hide Exec;
      Record(Call(f, d));
      err := if f != NoFault then Failed else if taken then AlreadyExists else Nil;
      log := Log(log.seen, Some(Plan.Create(item)), err == Failed);
    }

    /** Fetch the object of a query. */
    method Get(k: Key, ghost q: Query) returns (o: Option<Obj>)
      requires Facing(Read(q)) && q !in {Changelog, AppSync, AppHealth}
      requires QueryKey(q, model.ctl.p) == if k.name == "" then None else Some(k)
      requires q == ChangelogData ==> model.ctl.p.existed
      modifies this`w, this`tick, this`events, this`model, this`log
      ensures tick == old(tick) + 1 && Valid()
      ensures model.ctl == Answer(old(model.ctl.pos), old(model.ctl.p), q, if o.None? then Missing else Extract(q, o.value))
      ensures w == old(Met())
      ensures o == if old(Luck()) == NoFault && k.name != "" && k in w.store then Some(w.store[k]) else None
      ensures log == Log(Noted(old(log.seen), q, if o.None? then Missing else Extract(q, o.value)), Some(Read(q)), o.None?)
    {
      hide Acts, Run, At, FailAfter, QueryKey, Extract;
      Interfere();
      var f := faults(tick);
      assert f == faults(tick);
      tick := tick + 1;
      UnfoldCall(model, model.ctl.pos, model.ctl.p, f, Draw("", "", ""));
      hide Exec;
      o := if f == NoFault && k.name != "" && k in w.store then Some(w.store[k]) else None;
      log := Log(Noted(log.seen, q, if o.None? then Missing else Extract(q, o.value)), Some(Read(q)), o.None?);
      Record(Call(f, Draw("", "", "")));
    }

    /** Replace a stored object. */
    method Update(o: Obj, ghost i: Instr, ghost d: Draw) returns (err: Error)
      requires Facing(i) && Updates(i, o, model.ctl.p, d)
      modifies this`w, this`tick, this`events, this`model, this`log
      ensures tick == old(tick) + 1 && Valid() && err != AlreadyExists
      ensures model.ctl ==
              if err == Failed then Idle(Returned(FailAfter(i), true))
              else Running(old(model.ctl.pos) + 1, old(model.ctl.p))
      ensures w == if o.key !in old(Met()).store || old(Luck()) == Refused then old(Met())
                   else old(Met()).(store := old(Met()).store[o.key := old(Met()).store[o.key].(body := o.body)])
      ensures err == Nil <==> o.key in old(Met()).store && old(Luck()) == NoFault
      ensures log == Log(old(log.seen), Some(i), err != Nil)
    {
      hide Acts, Run, At, FailAfter, TextOf, GetRdsSecret, GetLiquibaseConfigMap;
      Interfere();
      var f := faults(tick);
      assert f == faults(tick);
      tick := tick + 1;
      UnfoldCall(model, model.ctl.pos, model.ctl.p, f, d);
      hide Exec;
      err := Failed;
      if o.key in w.store && f != Refused {
        w := w.(store := w.store[o.key := w.store[o.key].(body := o.body)]);
        err := if f == NoFault then Nil else Failed;
      }
      log := Log(log.seen, Some(i), err != Nil);
      Record(Call(f, d));
    }

    /** Update the status of the custom resource, provided that nobody else has changed it. The answer
        of the server replaces the caller's copy. */
    method UpdateStatus(jira: Jira, ghost fld: Field) returns (err: Error, answer: Jira)
      requires Facing(Write(fld))
      requires jira == model.ctl.p.jira.(status := Set(model.ctl.p.jira.status, fld, ValueOf(fld, model.ctl.p)))
      requires Unconditional(fld) || jira.status != model.ctl.p.jira.status
      modifies this`w, this`tick, this`events, this`model, this`log
      ensures tick == old(tick) + 1 && Valid() && err != AlreadyExists
      ensures model.ctl ==
              if err == Failed then Idle(Returned(FailAfter(Write(fld)), true))
              else Running(old(model.ctl.pos) + 1, old(model.ctl.p).(jira := answer))
      ensures err == Nil ==> SameIdentity(answer, jira) && answer.spec == jira.spec
      ensures w.cr.status == if jira.version == old(Met()).cr.version && old(Luck()) != Refused
                             then jira.status else old(Met()).cr.status
      ensures w.cr.version == if w.cr.status == old(Met()).cr.status then old(Met()).cr.version
                              else old(Met()).cr.version + 1
      ensures w == old(Met()).(cr := old(Met()).cr.(status := w.cr.status, version := w.cr.version))
      ensures err == Nil <==> jira.version == old(Met()).cr.version && old(Luck()) == NoFault
      ensures err == Nil ==> answer == w.cr && answer.status == jira.status
      ensures log == Log(old(log.seen), Some(Write(fld)), err != Nil)
    {
      hide Acts, Run, At, FailAfter, ValueOf, Accept, Frame.Versioned;
      Interfere();
      var f := faults(tick);
      assert f == faults(tick);
      tick := tick + 1;
      Frame.HeldVersion(model);
      AcceptIs(w.cr, jira.status);
      UnfoldCall(model, model.ctl.pos, model.ctl.p, f, Draw("", "", ""));
      SetToSame(model.ctl.p.jira.status, fld);
      hide Exec, Set, Machine.Get;
      err, answer := Failed, jira;
      if f != Refused && jira.version == w.cr.version {
        if w.cr.status != jira.status {
          w := w.(cr := w.cr.(status := jira.status, version := w.cr.version + 1));
        }
        if f == NoFault { err, answer := Nil, w.cr; }
      }
      log := Log(log.seen, Some(Write(fld)), err != Nil);
      Record(Call(f, Draw("", "", "")));
    }

    /** Read the changelog file. */
    method ReadChangelog() returns (c: Option<string>)
      requires Facing(Read(Changelog))
      modifies this`w, this`tick, this`events, this`model, this`log
      ensures tick == old(tick) + 1 && Valid()
      ensures model.ctl == Answer(old(model.ctl.pos), old(model.ctl.p), Changelog, Answered(c))
      ensures w == old(Met()) && c == if old(Luck()) == NoFault then w.changelog else None
      ensures log == Log(Noted(old(log.seen), Changelog, Answered(c)), Some(Read(Changelog)), c.None?)
    {
      hide Acts, Run, At, FailAfter;
      Interfere();
      var f := faults(tick);
      assert f == faults(tick);
      tick := tick + 1;
      UnfoldCall(model, model.ctl.pos, model.ctl.p, f, Draw("", "", ""));
      hide Exec;
      c := if f == NoFault then w.changelog else None;
      log := Log(Noted(log.seen, Changelog, Answered(c)), Some(Read(Changelog)), c.None?);
      Record(Call(f, Draw("", "", "")));
    }

    /** ProcessApplicationSetTemplate: render the template into this resource's own file. */
    method WriteManifest(jira: Jira) returns (err: Error)
      requires Facing(RenderManifest) && jira == model.ctl.p.jira
      modifies this`w, this`tick, this`events, this`model, this`log
      ensures tick == old(tick) + 1 && Valid() && err != AlreadyExists
      ensures model.ctl ==
              if err == Failed then Idle(Returned(FailAfter(RenderManifest), true))
              else Running(old(model.ctl.pos) + 1, old(model.ctl.p))
      ensures w == if old(Luck()) == Refused then old(Met())
                   else old(Met()).(files := old(Met()).files[ManifestPath(jira) := GetApplicationSet(jira)])
      ensures err == Nil <==> old(Luck()) == NoFault
      ensures log == Log(old(log.seen), Some(RenderManifest), err != Nil)
    {
      hide Acts, Run, At, FailAfter, Template.Manifest;
      Interfere();
      var f := faults(tick);
      assert f == faults(tick);
      tick := tick + 1;
      UnfoldCall(model, model.ctl.pos, model.ctl.p, f, Draw("", "", ""));
      hide Exec;
      var manifest := Manifest.ProcessTemplate(jira);
      var owners := if jira.spec.argo.retainOnDelete then [] else Owners(jira);
      if f != Refused {
        var o := Obj(Key(ApplicationSet, jira.spec.argo.namespace, jira.name), owners, ApplicationSetBody(manifest), FRESH);
        w := w.(files := w.files[ManifestPath(jira) := o]);
      }
      Record(Call(f, Draw("", "", "")));
      err := if f == NoFault then Nil else Failed;
      log := Log(log.seen, Some(RenderManifest), err != Nil);
    }

    /** kubectl apply -f. */
    method KubectlApply(path: string, ghost d: Draw) returns (err: Error)
      requires Facing(ApplyManifest) && path == ManifestPath(model.ctl.p.jira)
      modifies this`w, this`tick, this`events, this`model, this`log
      ensures tick == old(tick) + 1 && Valid() && err != AlreadyExists
      ensures model.ctl ==
              if err == Failed then Idle(Returned(FailAfter(ApplyManifest), true))
              else Running(old(model.ctl.pos) + 1, old(model.ctl.p))
      ensures w == if path !in old(Met()).files || old(Luck()) == Refused then old(Met())
                   else var o := old(Met()).files[path];
                        var live := if o.key in old(Met()).store then old(Met()).store[o.key].live else o.live;
                        old(Met()).(store := old(Met()).store[o.key := o.(live := live)])
      ensures err == Nil <==> path in old(Met()).files && old(Luck()) == NoFault
      ensures log == Log(old(log.seen), Some(ApplyManifest), err != Nil)
    {
      hide Acts, Run, At, FailAfter, ManifestPath;
      Interfere();
      var f := faults(tick);
      assert f == faults(tick);
      tick := tick + 1;
      UnfoldCall(model, model.ctl.pos, model.ctl.p, f, d);
      hide Exec;
      err := Failed;
      if f != Refused && path in w.files {
        var o := w.files[path];
        if o.key in w.store {
          w := w.(store := w.store[o.key := o.(live := w.store[o.key].live)]);
        } else {
          w := w.(store := w.store[o.key := o]);
        }
        err := if f == NoFault then Nil else Failed;
      }
      log := Log(log.seen, Some(ApplyManifest), err != Nil);
      Record(Call(f, d));
    }

    /** kubectl get application -o jsonpath. */
    method KubectlGet(ghost q: Query, health: bool) returns (s: Option<string>)
      requires Facing(Read(q)) && q == if health then AppHealth else AppSync
      modifies this`w, this`tick, this`events, this`model, this`log
      ensures tick == old(tick) + 1 && Valid()
      ensures model.ctl == Answer(old(model.ctl.pos), old(model.ctl.p), q, Answered(s))
      ensures w == old(Met())
      ensures s == if old(Luck()) != NoFault || w.app.None? then None
                   else Some(if health then w.app.value.health else w.app.value.sync)
      ensures log == Log(Noted(old(log.seen), q, Answered(s)), Some(Read(q)), s.None?)
    {
      hide Acts, Run, At, FailAfter, QueryKey, Extract, Exec, Frame.Versioned, TextOf, ClaimedVolume;
      Interfere();
      var f := faults(tick);
      assert f == faults(tick);
      tick := tick + 1;
      UnfoldCall(model, model.ctl.pos, model.ctl.p, f, Draw("", "", ""));
      hide Exec;
      s := None;
      if f == NoFault && w.app.Some? {
        s := Some(if health then w.app.value.health else w.app.value.sync);
      }
      log := Log(Noted(log.seen, q, Answered(s)), Some(Read(q)), s.None?);
      Record(Call(f, Draw("", "", "")));
    }

    // ---- instructions that call nobody -------------------------------------------------

    /** A gate, judged by what was read before. */
    ghost method Decide(g: Gate)
      requires Facing(Wait(g)) && GateQuery(g) in model.ctl.p.obs
      modifies this`events, this`model
      ensures Valid()
      ensures model.ctl ==
              match Judge(g, old(model.ctl.p).obs[GateQuery(g)])
              case Open => Running(old(model.ctl.pos) + 1, old(model.ctl.p))
              case Shut => Idle(Returned(WaitAfter(g), false))
              case NilDeref => Idle(Panicked)
    {
      hide Run, At, Judge, GateQuery;
      UnfoldCall(model, model.ctl.pos, model.ctl.p, NoFault, Draw("", "", ""));
      hide Exec;
      Record(Call(NoFault, Draw("", "", "")));
    }

    /** A conditional step whose condition does not hold. */
    ghost method Skip(i: Instr)
      requires Facing(i) && Skips(i, model.ctl.p)
      modifies this`events, this`model
      ensures Valid()
      ensures model.ctl == Running(old(model.ctl.pos) + 1, old(model.ctl.p))
    {
      hide Run, At, TextOf, Machine.Get, ValueOf;
      UnfoldCall(model, model.ctl.pos, model.ctl.p, NoFault, Draw("", "", ""));
      hide Exec;
      Record(Call(NoFault, Draw("", "", "")));
    }

    ghost method End()
      requires Facing(Finish)
      modifies this`events, this`model
      ensures Valid() && model.ctl == Idle(Returned(300, false))
    {
      hide Run, At;
      UnfoldCall(model, model.ctl.pos, model.ctl.p, NoFault, Draw("", "", ""));
      hide Exec;
      Record(Call(NoFault, Draw("", "", "")));
    }
  }

  /** What one request to create an object does to the world, and what it reports. */
  ghost predicate Creates(o: Obj, w: World, f: Fault, w': World, err: Error)
  {
    && w' == (if o.key in w.store || f == Refused then w else w.(store := w.store[o.key := o]))
    && (err == Nil <==> f == NoFault && o.key !in w.store)
    && (err == AlreadyExists <==> f == NoFault && o.key in w.store)
  }

  /** The readings of a pass after one more answer; a secret that cannot be read counts as one without hostname. */
  function Noted(seen: map<Query, Reading>, q: Query, r: Outcome): map<Query, Reading>
  {
    match r
    case Got(v) => seen[q := v]
    case NilPointer => seen
    case Missing => if q == SecretHost then seen[q := Text("")] else seen
  }

  lemma EmptyRun(m: M)
    ensures Run(m, []) == m
  {
  }

  lemma ActKeepsCtl(m: M, a: Action)
    ensures Act(m, a).ctl == m.ctl
  {
  }

  lemma AcceptIs(cr: Jira, status: JiraStatus)
    ensures Accept(cr, status) ==
            if cr.status == status then cr else cr.(status := status, version := cr.version + 1)
  {
  }

  lemma SetToSame(s: JiraStatus, f: Field)
    ensures Set(s, f, Machine.Get(s, f)) == s
  {
  }

  function Answered(s: Option<string>): Outcome
  {
    match s case None => Missing case Some(t) => Got(Text(t))
  }

  /** What the answer to a read means for the pass. */
  function Answer(pos: nat, p: Pass, q: Query, r: Outcome): Ctl
  {
    match r
    case Got(v) => Running(pos + 1, p.(obs := p.obs[q := v]))
    case NilPointer => Idle(Panicked)
    case Missing =>
      if q == SecretHost then Running(pos + 1, p.(obs := p.obs[q := Text("")]))
      else Idle(Returned(FailAfter(Read(q)), true))
  }

  /** The object that an updating instruction sends. */
  predicate Updates(i: Instr, o: Obj, p: Pass, d: Draw)
  {
    match i
    case SyncSecret =>
      && TextOf(p, SecretHost) != TextOf(p, RdsEndpoint)
      && o == GetRdsSecret(p.jira, TextOf(p, RdsEndpoint), p.jira.name, d)
    case SyncChangelog =>
      && p.existed && TextOf(p, ChangelogData) != TextOf(p, Changelog)
      && o == GetLiquibaseConfigMap(p.jira, p.jira.name, TextOf(p, Changelog))
    case _ => false
  }

  /** The instructions that a pass steps over. */
  predicate Skips(i: Instr, p: Pass)
  {
    match i
    case Write(f) => !Unconditional(f) && Machine.Get(p.jira.status, f) == ValueOf(f, p)
    case SyncSecret => TextOf(p, SecretHost) == TextOf(p, RdsEndpoint)
    case Read(ChangelogData) => !p.existed
    case SyncChangelog => !p.existed || TextOf(p, ChangelogData) == TextOf(p, Changelog)
    case _ => false
  }
}
