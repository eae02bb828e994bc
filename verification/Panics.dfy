/** When Reconcile dereferences a nil pointer: exactly when a provider has not yet written an identifier or a
    state that the EFS branch reads through a pointer, or when the bound volume has no CSI source. */
module Panics {
  import opened Api
  import opened Builders
  import opened Plan
  import opened Machine
  import opened Ideal
  import opened CleanPass
  import opened Refinement
  import Order

  /** The two gates that look behind a pointer. */
  predicate Pointed(g: Gate)
  {
    g == FileSystemIdKnown || g.TargetAvailable?
  }

  /** The volume that a claim names exists and is not a CSI volume. */
  predicate ForeignVolume(w: World, name: string)
  {
    var k := Key(PersistentVolume, "", name);
    name != "" && k in w.store && !(w.store[k].body.PvBody? && w.store[k].body.source.Csi?)
  }

  lemma JudgePanics(g: Gate, r: Reading)
    ensures Judge(g, r) == NilDeref <==> Pointed(g) && r == Pointer(None)
  {
  }

  lemma PeekPanics(q: Query, p: Pass, w: World)
    ensures Peek(q, p, w) == NilPointer <==> q == VolumeHandle && ForeignVolume(w, TextOf(p, ClaimVolume))
  {
    hide TextOf, ItemKey;
  }

  lemma ReadPanics(m: M, pos: nat, p: Pass, q: Query, f: Fault)
    ensures DoRead(m, pos, p, q, f).ctl == Idle(Panicked) <==>
            q == VolumeHandle && f == NoFault && ForeignVolume(m.w, TextOf(p, ClaimVolume))
  {
    hide Peek, TextOf, ForeignVolume, FailAfter;
    PeekPanics(q, p, m.w);
  }

  lemma WaitPanics(m: M, pos: nat, p: Pass, g: Gate)
    ensures DoWait(m, pos, p, g).ctl == Idle(Panicked) <==>
            Pointed(g) && GateQuery(g) in p.obs && p.obs[GateQuery(g)] == Pointer(None)
  {
    hide Judge, GateQuery, Pointed;
    if GateQuery(g) in p.obs {
      JudgePanics(g, p.obs[GateQuery(g)]);
    }
  }

  lemma RestIsSafe(m: M, pos: nat, p: Pass, i: Instr, f: Fault, d: Draw)
    ensures i.Create? ==> DoCreate(m, pos, p, i.item, f, d).ctl != Idle(Panicked)
    ensures i.Write? ==> DoWrite(m, pos, p, i.field, f).ctl != Idle(Panicked)
    ensures DoSyncSecret(m, pos, p, f, d).ctl != Idle(Panicked)
    ensures DoSyncChangelog(m, pos, p, f).ctl != Idle(Panicked)
    ensures DoRender(m, pos, p, f).ctl != Idle(Panicked)
    ensures DoApply(m, pos, p, f, d).ctl != Idle(Panicked)
  {
    hide Build, FailAfter, TextOf, ValueOf, Set, Get, GetRdsSecret, GetLiquibaseConfigMap, GetApplicationSet, ManifestPath;
  }

  /** The only two ways to panic, in any state and whatever the faults. */
  lemma CallPanicsExactly(m: M, pos: nat, p: Pass, f: Fault, d: Draw)
    ensures Exec(m, pos, p, f, d).ctl == Idle(Panicked) <==>
            var i := At(p.jira.spec, pos);
            || (i.Wait? && Pointed(i.gate) && GateQuery(i.gate) in p.obs && p.obs[GateQuery(i.gate)] == Pointer(None))
            || (i == Read(VolumeHandle) && f == NoFault && ForeignVolume(m.w, TextOf(p, ClaimVolume)))
  {
    hide Exec, At, Pointed, GateQuery, ForeignVolume, TextOf;
    hide DoCreate, DoRead, DoWait, DoWrite, DoSyncSecret, DoSyncChangelog, DoRender, DoApply;
    UnfoldCall(m, pos, p, f, d);
    var i := At(p.jira.spec, pos);
    RestIsSafe(m, pos, p, i, f, d);
    match i
    case Read(q) => ReadPanics(m, pos, p, q, f);
    case Wait(g) => WaitPanics(m, pos, p, g);
    case _ =>
  }

  // ---- a whole pass ------------------------------------------------------------------------

  /** The provider has not written what a pointed gate looks at: the object does not exist yet, or the
      pointer in it is nil. */
  predicate Unset(g: Gate, w: World)
    requires Pointed(g)
  {
    match g
    case FileSystemIdKnown =>
      var k := ItemKey(SharedFileSystem, w.cr);
      k in w.store ==> w.store[k].live.fileSystemId == None
    case TargetAvailable(i) =>
      var k := ItemKey(Target(i), w.cr);
      k in w.store ==> w.store[k].live.lifeCycle == None
  }

  /** The shared-home claim is bound to a volume that exists and is not a CSI volume. */
  predicate ForeignClaim(w: World)
  {
    var k := ItemKey(FsxPvc, w.cr);
    k in w.store && ForeignVolume(w, ClaimedVolume(w.store[k]))
  }

  predicate NilAt(i: Instr, w: World)
  {
    || (i.Wait? && Pointed(i.gate) && Unset(i.gate, w))
    || (i == Read(VolumeHandle) && ForeignClaim(w))
  }

  lemma PointedSight(g: Gate, w: World)
    requires Pointed(g)
    ensures Sight(GateQuery(g), w) == Got(Pointer(None)) <==> Unset(g, w)
  {
    SightOfObject(GateQuery(g), w);
    match g
    case FileSystemIdKnown => BuildKey(SharedFileSystem, Pass(w.cr, map[], false), NO_DRAW);
    case TargetAvailable(i) => BuildKey(Target(i), Pass(w.cr, map[], false), NO_DRAW);
    hide Sight, ItemKey, Build;
  }

  lemma WaitNil(g: Gate, w: World)
    ensures Blocked(Wait(g), w) == Some(Panicked) <==> Pointed(g) && Unset(g, w)
  {
    hide Sight, Judge, GateQuery, Pointed, Unset;
    if Sight(GateQuery(g), w).Got? {
      JudgePanics(g, Sight(GateQuery(g), w).r);
    }
    if Pointed(g) {
      PointedSight(g, w);
    }
  }

  lemma VolumeNil(w: World)
    ensures Sight(VolumeHandle, w) == NilPointer <==> ForeignClaim(w)
  {
    if ItemKey(FsxPvc, w.cr) in w.store {
      hide ItemKey, Build;
    }
  }

  lemma ObjectsAreThere(q: Query, w: World)
    requires QueryItem(q).Some?
    ensures Sight(q, w).Got?
  {
    SightOfObject(q, w);
    hide Sight, ObjectOf;
  }

  lemma ReadNil(q: Query, w: World)
    ensures Blocked(Read(q), w) == Some(Panicked) <==> q == VolumeHandle && ForeignClaim(w)
  {
    hide ForeignClaim;
    VolumeNil(w);
    if QueryItem(q).Some? {
      ObjectsAreThere(q, w);
      hide Sight;
    }
  }

  lemma InstrNil(i: Instr, w: World)
    ensures Blocked(i, w) == Some(Panicked) <==> NilAt(i, w)
  {
    hide Sight, Judge, Pointed, Unset, ForeignClaim;
    match i
    case Wait(g) => hide Blocked; WaitNil(g, w);
    case Read(q) => hide Blocked; ReadNil(q, w);
    case _ =>
  }

  /** An undisturbed pass panics if and only if the first thing that is in its way is a nil pointer: the id of
      the filesystem, the state of a mount target, or the CSI source of the bound volume. */
  lemma PassPanicsExactly(m: M, d: nat -> Draw)
    requires m.ctl.Idle?
    ensures CleanPassOf(m, d).ctl == Idle(Panicked) <==>
            exists n: nat :: n < |Prog(m.w.cr.spec)| && NilAt(Prog(m.w.cr.spec)[n], m.w)
                             && forall k | 0 <= k < n :: Blocked(Prog(m.w.cr.spec)[k], m.w).None?
  {
    hide Prog, Blocked, CleanPassOf, After, StopIn, NilAt;
    CleanPassRefines(m, d);
    var stop := Stop(m.w);
    InstrNil(Prog(m.w.cr.spec)[stop], m.w);
    if n: nat :| n < |Prog(m.w.cr.spec)| && NilAt(Prog(m.w.cr.spec)[n], m.w)
                 && forall k | 0 <= k < n :: Blocked(Prog(m.w.cr.spec)[k], m.w).None? {
      InstrNil(Prog(m.w.cr.spec)[n], m.w);
      assert n == stop;
    }
  }

  /** The EFS branch creates the filesystem and looks at its identifier in the same pass: with every earlier
      gate open, an undisturbed pass panics there if and only if no identifier was set before it began. So the
      pass that creates the filesystem always panics. */
  lemma NewFileSystemPanics(m: M, d: nat -> Draw)
    requires m.ctl.Idle? && BackendOf(m.w.cr.spec) == Efs && Stop(m.w) >= StorageAt(m.w.cr.spec) + 2
    ensures Stop(m.w) == StorageAt(m.w.cr.spec) + 2 && CleanPassOf(m, d).ctl == Idle(Panicked) <==>
            Unset(FileSystemIdKnown, m.w)
  {
    hide Prog, Blocked, CleanPassOf, StorageAt, PublishAt, Unset, After, StopIn;
    CleanPassRefines(m, d);
    Order.EfsEnds(m.w.cr.spec);
    WaitNil(FileSystemIdKnown, m.w);
  }

  /** The same for a mount target: the pass that creates it panics unless its state is already set. */
  lemma NewTargetPanics(m: M, d: nat -> Draw, i: nat)
    requires m.ctl.Idle? && BackendOf(m.w.cr.spec) == Efs && i < |m.w.cr.spec.network.subnetIds|
    requires Stop(m.w) >= StorageAt(m.w.cr.spec) + 3 + 3 * i + 2
    ensures Stop(m.w) == StorageAt(m.w.cr.spec) + 3 + 3 * i + 2 && CleanPassOf(m, d).ctl == Idle(Panicked) <==>
            Unset(TargetAvailable(i), m.w)
  {
    hide Prog, Blocked, CleanPassOf, StorageAt, PublishAt, Unset, After, StopIn;
    CleanPassRefines(m, d);
    Order.TargetLayout(m.w.cr.spec, i);
    WaitNil(TargetAvailable(i), m.w);
  }
}
