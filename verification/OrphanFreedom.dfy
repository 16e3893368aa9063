/**
  The finalizer protects the VM: which configurations can leave a VM behind that nothing will delete
  (cluster-api-provider-kubevirt/controllers/kubevirtmachine_controller.go:163-167, 218-227, 266-274, 437-493).

  A run interleaves the parts of passes of the one worker of the object, a user deleting the object, lost
  or failed requests, and VMs going away.
 */
module OrphanFreedom {
  import opened Common
  import opened MachineController
  import Drain
  import MachineRuns

  /** The infra cluster and namespace a VM lives in. */
  datatype Target = Target(cluster: string, namespace: string)

  /**
    What a run takes as given: where an infra cluster secret reference leads, the same whenever it is asked,
    and the reference of the KubevirtCluster, which a machine without one of its own takes over.
   */
  datatype Config = Config(resolve: Option<Ref> -> Target, clusterRef: Option<Ref>)

  /** `vms` maps the place of each existing VM of this machine to whether its deletion was requested. */
  datatype World = World(stored: Option<Object>, vms: map<Target, bool>, flight: Option<Pass>)

  /** `lost`: a create or delete request that is reported as failed took effect all the same. */
  datatype Step = StartPass(env: Env, lost: bool) | EndPass(patchOk: bool) | UserDeletes | VmGone(t: Target)

  /** Where a pass looks for the VM. Only a pass that is not a deletion defaults the reference. */
  function TargetOf(cfg: Config, o: Object): Target {
    cfg.resolve(if o.infraRef.None? && !o.deleting then cfg.clusterRef else o.infraRef)
  }

  /** Reads are linearizable: the pass sees the VM exactly if it is there. */
  predicate Consistent(cfg: Config, w: World, env: Env)
    requires w.stored.Some?
  {
    env.clusterRef == cfg.clusterRef && (env.vm.Some? <==> TargetOf(cfg, w.stored.value) in w.vms)
  }

  /** The pass comes to the point of deleting the VM. */
  predicate Deletes(o: Object, env: Env) {
    && env.machine.Found? && o.deleting
    && env.patchHelperOk && env.infraClient.Found? && env.bootstrapSecretOk && env.helperOk
  }

  /** The pass saw the VM, and finds it gone when it comes to delete it. */
  predicate FoundGone(o: Object, env: Env) {
    Deletes(o, env) && env.vm.Some? && env.deleteOutcome.AlreadyGone?
  }

  /** The requests a pass sends, and nothing else it does, act on the VM. */
  function VmsAfter(cfg: Config, o: Object, vms: map<Target, bool>, env: Env, p: Pass, lost: bool): map<Target, bool> {
    var t := TargetOf(cfg, o);
    if p.created then (if env.createOk || lost then vms[t := false] else vms)
    else if p.deleteSent then (if env.deleteOutcome.Deleted? || lost then vms[t := true] else vms)
    else if FoundGone(o, env) then vms - {t}
    else vms
  }

  /** An object marked for deletion goes when its last finalizer does. */
  function Collect(o: Object): Option<Object> {
    if o.deleting && !o.finalizer then None else Some(o)
  }

  function Next(cfg: Config, w: World, step: Step): Option<World> {
    match step
    case StartPass(env, lost) =>
      if w.stored.None? || w.flight.Some? || !Consistent(cfg, w, env) then None
      else
        var o := w.stored.value;
        var p := PassResult(o, env);
        Some(w.(vms := VmsAfter(cfg, o, w.vms, env, p, lost), flight := Some(p)))
    case EndPass(patchOk) =>
      if w.flight.None? then None
      else if w.stored.None? then Some(w.(flight := None))
      else
        var o, p := w.stored.value, w.flight.value;
        var o' := if p.patches && patchOk then p.o.(deleting := o.deleting) else o.(graceTime := p.o.graceTime);
        Some(w.(stored := Collect(o'), flight := None))
    case UserDeletes =>
      if w.stored.None? then None else Some(w.(stored := Collect(w.stored.value.(deleting := true))))
    case VmGone(t) => Some(w.(vms := w.vms - {t}))
  }

  function Exec(cfg: Config, w: World, run: seq<Step>): Option<World> {
    if run == [] then Some(w)
    else match Exec(cfg, w, run[..|run| - 1])
      case None => None
      case Some(m) => Next(cfg, m, run[|run| - 1])
  }

  predicate New(o: Object) {
    !o.finalizer && !o.deleting
  }

  function Begin(o: Object): World {
    World(Some(o), map[], None)
  }

  ghost predicate Reachable(cfg: Config, o: Object, w: World) {
    exists run :: Exec(cfg, Begin(o), run) == Some(w)
  }

  /** Every VM whose deletion has not been requested still has its KubevirtMachine, with the finalizer. */
  predicate NoOrphan(w: World) {
    forall t :: t in w.vms && !w.vms[t] ==> w.stored.Some? && w.stored.value.finalizer
  }

  /**
    The condition: the object names its infra cluster itself, or the reference it takes over leads to the
    place an object without reference leads to.
   */
  predicate SameHome(cfg: Config, o: Object) {
    o.infraRef.Some? || cfg.resolve(cfg.clusterRef) == cfg.resolve(None)
  }

  // ------------------------------------------------------------------ what a pass does to the finalizer

  predicate Keeps(o: Object, o': Object) {
    o'.finalizer == o.finalizer && o'.deleting == o.deleting && o'.infraRef == o.infraRef
  }

  lemma ConcludeKeeps(o: Object, env: Env, ip: string)
    ensures Keeps(o, Conclude(o, env, ip).o) && !Conclude(o, env, ip).created
  {
  }

  lemma FinishKeeps(o: Object, env: Env)
    ensures Keeps(o, Finish(o, env).o) && !Finish(o, env).created
  {
    var call := Drain.DrainCall(o.graceTime, DrainEnv(env));
    ConcludeKeeps(o.(graceTime := call.annotation), env, AddressOf(env.vmi));
  }

  lemma VmKeeps(o: Object, env: Env)
    ensures Keeps(o, VmResult(o, env).o) && (VmResult(o, env).created ==> env.vm.None?)
  {
    var terminal := IsTerminal(env.vm, env.vmi);
    if terminal.Some? {
      FinishKeeps(Mark(NoteTerminal(o, terminal.value), VMProvisioned, true), env);
    }
  }

  lemma PrepareKeeps(o: Object, env: Env)
    ensures var n := Prepare(o, env);
      && n.o.finalizer == o.finalizer && n.o.deleting == o.deleting && !n.created
      && (n.o.infraRef == o.infraRef || (o.infraRef.None? && n.o.infraRef == env.clusterRef))
  {
  }

  lemma NormalKeeps(o: Object, env: Env)
    ensures var n := NormalResult(o, env);
      && n.o.finalizer == o.finalizer && n.o.deleting == o.deleting
      && (n.o.infraRef == o.infraRef || (o.infraRef.None? && n.o.infraRef == env.clusterRef))
      && (n.created ==> env.vm.None?)
  {
    PrepareKeeps(o, env);
    VmKeeps(Prepare(o, env).o, env);
  }

  /** A VM is only created under a finalizer, and the finalizer only goes with the VM. */
  lemma PassFacts(o: Object, env: Env)
    ensures var p := PassResult(o, env);
      && p.o.deleting == o.deleting
      && (p.o.infraRef == o.infraRef || (o.infraRef.None? && p.o.infraRef == env.clusterRef))
      && (p.created ==> !o.deleting && o.finalizer && p.o.finalizer && env.vm.None?)
      && (o.finalizer && !p.o.finalizer ==>
            Deletes(o, env) &&
            (env.vm.None? || env.deleteOutcome.AlreadyGone? || (p.deleteSent && env.deleteOutcome.Deleted?)))
      && (p.deleteSent ==> !p.created && env.vm.Some?)
      && (p.deleteSent ==> env.deleteOutcome.Deleted? || env.deleteOutcome.DeleteFailed?)
  {
    NormalKeeps(o, env);
  }

  /** A pass that comes to the VM looks for it where the reference it leaves on the object leads. */
  lemma LooksWhereItSays(cfg: Config, o: Object, env: Env)
    requires env.clusterRef == cfg.clusterRef && MachineRuns.RunsNormal(o, env) && env.hasBootstrapData && Prepared(env)
    ensures TargetOf(cfg, o) == cfg.resolve(PassResult(o, env).o.infraRef)
  {
    PrepareKeeps(o, env);
    VmKeeps(Prepare(o, env).o, env);
  }

  // ------------------------------------------------------------------ the invariant

  /** The reference is the one the object was made with, or the one it took over. */
  predicate RefFits(cfg: Config, o0: Object, r: Option<Ref>) {
    r == o0.infraRef || (o0.infraRef.None? && r == cfg.clusterRef)
  }

  function Home(cfg: Config, o0: Object): Target {
    cfg.resolve(if o0.infraRef.None? then cfg.clusterRef else o0.infraRef)
  }

  predicate Live(w: World, t: Target) {
    t in w.vms && !w.vms[t]
  }

  ghost predicate Inv(cfg: Config, o0: Object, w: World) {
    && (forall t :: Live(w, t) ==> t == Home(cfg, o0) && w.stored.Some? && w.stored.value.finalizer)
    && (w.stored.Some? ==> RefFits(cfg, o0, w.stored.value.infraRef))
    && (w.flight.Some? ==> RefFits(cfg, o0, w.flight.value.o.infraRef))
    && (w.flight.Some? && !w.flight.value.o.finalizer ==> forall t :: !Live(w, t))
  }

  lemma HomeIsTarget(cfg: Config, o0: Object, o: Object)
    requires SameHome(cfg, o0) && RefFits(cfg, o0, o.infraRef)
    ensures TargetOf(cfg, o) == Home(cfg, o0)
  {
  }

  lemma VmsKept(cfg: Config, o0: Object, w: World, env: Env, p: Pass, lost: bool)
    requires Inv(cfg, o0, w) && w.stored.Some? && w.flight.None? && Consistent(cfg, w, env)
    requires TargetOf(cfg, w.stored.value) == Home(cfg, o0)
    requires var o := w.stored.value;
      && p.o.deleting == o.deleting
      && (p.o.infraRef == o.infraRef || (o.infraRef.None? && p.o.infraRef == env.clusterRef))
      && (p.created ==> !o.deleting && o.finalizer && p.o.finalizer && env.vm.None?)
      && (o.finalizer && !p.o.finalizer ==>
            Deletes(o, env) &&
            (env.vm.None? || env.deleteOutcome.AlreadyGone? || (p.deleteSent && env.deleteOutcome.Deleted?)))
      && (p.deleteSent ==> !p.created && env.vm.Some?)
      && (p.deleteSent ==> env.deleteOutcome.Deleted? || env.deleteOutcome.DeleteFailed?)
    ensures Inv(cfg, o0, w.(vms := VmsAfter(cfg, w.stored.value, w.vms, env, p, lost), flight := Some(p)))
  {
    var w' := w.(vms := VmsAfter(cfg, w.stored.value, w.vms, env, p, lost), flight := Some(p));
    assert forall t {:trigger Live(w', t)} :: Live(w', t) ==> Live(w, t) || (p.created && t == Home(cfg, o0));
    assert !w.stored.value.finalizer ==> forall t :: !Live(w, t);
  }

  lemma StartKeeps(cfg: Config, o0: Object, w: World, env: Env, lost: bool)
    requires SameHome(cfg, o0) && Inv(cfg, o0, w) && Next(cfg, w, StartPass(env, lost)).Some?
    ensures Inv(cfg, o0, Next(cfg, w, StartPass(env, lost)).value)
  {
    var o := w.stored.value;
    var p := PassResult(o, env);
    PassFacts(o, env);
    HomeIsTarget(cfg, o0, o);
    VmsKept(cfg, o0, w, env, p, lost);
  }

  lemma OtherwiseKeeps(cfg: Config, o0: Object, w: World, step: Step)
    requires Inv(cfg, o0, w) && !step.StartPass? && Next(cfg, w, step).Some?
    ensures Inv(cfg, o0, Next(cfg, w, step).value)
  {
    var w' := Next(cfg, w, step).value;
    assert forall t {:trigger Live(w', t)} :: Live(w', t) ==> Live(w, t);
  }

  lemma {:induction false} RunInv(cfg: Config, o: Object, run: seq<Step>)
    requires SameHome(cfg, o) && New(o) && Exec(cfg, Begin(o), run).Some?
    ensures Inv(cfg, o, Exec(cfg, Begin(o), run).value)
  {
    if run == [] {
    } else {
      RunInv(cfg, o, run[..|run| - 1]);
      var w := Exec(cfg, Begin(o), run[..|run| - 1]).value;
      var step := run[|run| - 1];
      if step.StartPass? {
        StartKeeps(cfg, o, w, step.env, step.lost);
      } else {
        OtherwiseKeeps(cfg, o, w, step);
      }
    }
  }

  // ------------------------------------------------------------------ an orphan, when the condition fails

  /** Everything is found and every request succeeds, but no VM is seen. */
  function Smooth(cfg: Config): Env {
    Env(Found, Found, true, true, true, true, true, true, true, true, true, cfg.clusterRef, Found, true, true,
        None, None, true, Drain.Env(None, 0, true, Drain.Drained, 0, true, true), true, true,
        true, NodeMissing, true, Deleted)
  }

  lemma Extend(cfg: Config, w0: World, run: seq<Step>, w: World, step: Step) returns (run': seq<Step>, w': World)
    requires Exec(cfg, w0, run) == Some(w) && Next(cfg, w, step).Some?
    ensures run' == run + [step] && Exec(cfg, w0, run') == Some(w') && w' == Next(cfg, w, step).value
  {
    run' := run + [step];
    w' := Next(cfg, w, step).value;
    assert run'[..|run'| - 1] == run;
  }

  lemma SmoothCreates(cfg: Config, o: Object)
    requires o.finalizer && !o.deleting
    ensures PassResult(o, Smooth(cfg)).created
  {
    assert IsTerminal(None, None) == Some(false);
  }

  /** The first two passes: the finalizer is persisted, then the VM is created but the patch is lost. */
  lemma CreateUnpatched(cfg: Config, o: Object) returns (run: seq<Step>, w: World)
    requires New(o) && o.infraRef.None?
    ensures Exec(cfg, Begin(o), run) == Some(w) && w.flight.None?
    ensures w.vms == map[cfg.resolve(cfg.clusterRef) := false]
    ensures w.stored.Some? && w.stored.value.finalizer && !w.stored.value.deleting && w.stored.value.infraRef.None?
  {
    var env := Smooth(cfg);
    var o1 := o.(finalizer := true);
    run, w := Extend(cfg, Begin(o), [], Begin(o), StartPass(env, false));
    assert w == World(Some(o), map[], Some(Pass(o1, Completes, true, false, false, false)));
    run, w := Extend(cfg, Begin(o), run, w, EndPass(true));
    assert w == World(Some(o1), map[], None);
    SmoothCreates(cfg, o1);
    run, w := Extend(cfg, Begin(o), run, w, StartPass(env, false));
    run, w := Extend(cfg, Begin(o), run, w, EndPass(false));
  }

  /** The third pass deletes: without the defaulted reference it looks elsewhere and finds no VM. */
  lemma Orphan(cfg: Config, o: Object)
    requires New(o) && !SameHome(cfg, o)
    ensures exists w :: Reachable(cfg, o, w) && !NoOrphan(w)
  {
    var env := Smooth(cfg);
    var run, w := CreateUnpatched(cfg, o);
    var o2 := w.stored.value.(deleting := true);
    run, w := Extend(cfg, Begin(o), run, w, UserDeletes);
    assert w.stored == Some(o2);
    assert TargetOf(cfg, o2) == cfg.resolve(None);
    run, w := Extend(cfg, Begin(o), run, w, StartPass(env, false));
    assert w.flight.Some? && w.flight.value.patches && !w.flight.value.o.finalizer;
    run, w := Extend(cfg, Begin(o), run, w, EndPass(true));
    assert w.stored.None? && Live(w, cfg.resolve(cfg.clusterRef));
    assert Reachable(cfg, o, w);
  }

  /**
    Whatever the interleaving, no VM is ever left without its finalized KubevirtMachine, if and only if the
    object's infra cluster reference was its own from the start or leads to the same place as none at all.
   */
  lemma NoOrphanIff(cfg: Config, o: Object)
    requires New(o)
    ensures (forall w :: Reachable(cfg, o, w) ==> NoOrphan(w)) <==> SameHome(cfg, o)
  {
    if SameHome(cfg, o) {
      forall w | Reachable(cfg, o, w) ensures NoOrphan(w) {
        var run :| Exec(cfg, Begin(o), run) == Some(w);
        RunInv(cfg, o, run);
        assert forall t :: t in w.vms && !w.vms[t] ==> Live(w, t);
      }
    } else {
      Orphan(cfg, o);
    }
  }
}
