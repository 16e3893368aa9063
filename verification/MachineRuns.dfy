/** What holds of a KubevirtMachine over any sequence of passes. */
module MachineRuns {
  import opened Common
  import opened MachineController
  import Drain

  // ------------------------------------------------------------------ runs

  /** A pass whose final patch succeeds or fails, or a user deleting the object. */
  datatype Event = PassWith(env: Env, patchOk: bool) | UserDeletes

  function Step(o: Object, e: Event): Object {
    match e
    case PassWith(env, patchOk) => Persisted(o, env, patchOk)
    case UserDeletes => o.(deleting := true)
  }

  function After(o: Object, events: seq<Event>): Object {
    if events == [] then o else Step(After(o, events[..|events| - 1]), events[|events| - 1])
  }

  /** An object as its creator leaves it: nothing has been reported yet. */
  predicate Fresh(o: Object) {
    !o.ready && o.providerId.None? && o.addresses == [] && o.conditions == map[] && !o.nodeUpdated
    && o.failureReason.None? && o.graceTime.None?
  }

  // ------------------------------------------------------------------ readiness

  predicate Usable(o: Object) {
    !NoProviderId(o) && KnowsInternalIP(o.addresses)
  }

  /** Ready, provider id, addresses, bootstrap and failure before and after a piece of a pass. */
  predicate Progress(o: Object, o': Object) {
    && (!NoProviderId(o) ==> o'.providerId == o.providerId)
    && (KnowsInternalIP(o.addresses) ==> KnowsInternalIP(o'.addresses))
    && (IsTrue(o, BootstrapExecSucceeded) ==> IsTrue(o', BootstrapExecSucceeded))
    && (o.failureReason.Some? ==> o'.failureReason.Some?)
    && (o'.ready ==> o.ready || Usable(o'))
  }

  lemma MadeReadyProgress(o: Object, env: Env, ip: string)
    requires ip != ""
    ensures Usable(MadeReady(o, env, ip)) && Progress(o, MadeReady(o, env, ip))
  {
    assert AddressesFor(o.name, ip)[1] == Address(InternalIP, ip);
  }

  lemma ConcludeProgress(o: Object, env: Env, ip: string)
    requires ip != ""
    ensures Progress(o, Conclude(o, env, ip).o)
    ensures Conclude(o, env, ip).exit.Completes? ==> !NoProviderId(Conclude(o, env, ip).o)
  {
    MadeReadyProgress(o, env, ip);
  }

  lemma FinishProgress(o: Object, env: Env)
    ensures Progress(o, Finish(o, env).o)
    ensures Finish(o, env).exit.Completes? ==> !NoProviderId(Finish(o, env).o)
  {
    if AddressOf(env.vmi) != "" {
      var call := Drain.DrainCall(o.graceTime, DrainEnv(env));
      ConcludeProgress(o.(graceTime := call.annotation), env, AddressOf(env.vmi));
    }
  }

  /** Nothing that is latched changes, and Ready is not given. */
  predicate Idles(o: Object, o': Object) {
    && o'.providerId == o.providerId && o'.addresses == o.addresses
    && IsTrue(o', BootstrapExecSucceeded) == IsTrue(o, BootstrapExecSucceeded)
    && (o.failureReason.Some? ==> o'.failureReason.Some?)
    && (o'.ready ==> o.ready)
  }

  lemma MarkIdles(o: Object)
    ensures var o' := Mark(o, VMProvisioned, false); Idles(o, o') && o'.ready == o.ready && o'.graceTime == o.graceTime
  {
  }

  lemma PrepareIdles(o: Object, env: Env)
    ensures Idles(o, Prepare(o, env).o)
    ensures Prepare(o, env).o.ready == o.ready && Prepare(o, env).o.graceTime == o.graceTime
    ensures Prepare(o, env).exit.Completes? <==> env.hasBootstrapData && Prepared(env)
    ensures Prepare(o, env).exit.Waits? <==> !env.hasBootstrapData
  {
    MarkIdles(o);
    MarkIdles(o.(infraRef := env.clusterRef));
  }

  /** The object once its VM has been found up. */
  function Up(o: Object, terminal: bool): Object {
    Mark(NoteTerminal(o, terminal), VMProvisioned, true)
  }

  lemma UpIdles(o: Object, terminal: bool)
    ensures Idles(o, Up(o, terminal)) && Up(o, terminal).ready == o.ready && Up(o, terminal).graceTime == o.graceTime
  {
  }

  /** The VM has to be created, because none exists and nothing terminal has happened. */
  predicate Creates(env: Env) {
    env.vm.None? && IsTerminal(env.vm, env.vmi) == Some(false)
  }

  predicate FindsVmUp(env: Env) {
    IsTerminal(env.vm, env.vmi).Some? && !Creates(env) && IsReady(env.vmi)
  }

  /** The pass finds no VM, or one whose VMI is not ready. */
  predicate FindsVmDown(env: Env) {
    IsTerminal(env.vm, env.vmi).Some? && (Creates(env) || !IsReady(env.vmi))
  }

  /** What is left of an object whose VM cannot be judged, is missing, or is not ready. */
  lemma DownIdles(o: Object, terminal: bool)
    ensures Idles(o, NoteTerminal(o, terminal).(ready := false))
    ensures Idles(o, Mark(NoteTerminal(o, terminal), VMProvisioned, false).(ready := false))
  {
  }

  lemma VmIsDown(o: Object, env: Env)
    requires !FindsVmUp(env)
    ensures Idles(o, VmResult(o, env).o)
    ensures VmResult(o, env).exit.Requeues? || VmResult(o, env).exit.Errors?
    ensures VmResult(o, env).o.ready == (o.ready && !FindsVmDown(env))
  {
    var terminal := IsTerminal(env.vm, env.vmi);
    if terminal.Some? {
      DownIdles(o, terminal.value);
      assert VmResult(o, env).o == NoteTerminal(o, terminal.value).(ready := false)
          || VmResult(o, env).o == Mark(NoteTerminal(o, terminal.value), VMProvisioned, false).(ready := false);
    }
  }

  lemma VmIsUp(o: Object, env: Env)
    requires FindsVmUp(env)
    ensures VmResult(o, env) == Finish(Up(o, IsTerminal(env.vm, env.vmi).value), env)
  {
  }

  lemma IdleProgress(o: Object, o': Object)
    requires Idles(o, o')
    ensures Progress(o, o')
  {
  }

  lemma IdleThenProgress(o: Object, o1: Object, o2: Object)
    requires Idles(o, o1) && Progress(o1, o2)
    ensures Progress(o, o2)
  {
  }

  lemma VmProgress(o: Object, env: Env)
    ensures Progress(o, VmResult(o, env).o)
    ensures !VmResult(o, env).exit.Waits?
    ensures VmResult(o, env).exit.Completes? ==> !NoProviderId(VmResult(o, env).o)
  {
    if FindsVmUp(env) {
      var u := Up(o, IsTerminal(env.vm, env.vmi).value);
      VmIsUp(o, env);
      UpIdles(o, IsTerminal(env.vm, env.vmi).value);
      FinishProgress(u, env);
      IdleThenProgress(o, u, Finish(u, env).o);
    } else {
      VmIsDown(o, env);
      IdleProgress(o, VmResult(o, env).o);
    }
  }

  lemma NormalProgress(o: Object, env: Env)
    ensures Progress(o, NormalResult(o, env).o)
    ensures NormalResult(o, env).exit.Completes? ==> !NoProviderId(NormalResult(o, env).o)
    ensures NormalResult(o, env).exit.Waits? ==> NormalResult(o, env).o.providerId == o.providerId
    ensures NormalResult(o, env).exit.Waits? <==> !env.hasBootstrapData
  {
    var p := Prepare(o, env);
    PrepareIdles(o, env);
    IdleProgress(o, p.o);
    if p.exit.Completes? {
      VmProgress(p.o, env);
      IdleThenProgress(o, p.o, VmResult(p.o, env).o);
    }
  }

  lemma NodeProgress(o: Object, o': Object, env: Env)
    requires Progress(o, o')
    ensures Progress(o, NodeResult(o', env).o)
  {
  }

  predicate RunsNormal(o: Object, env: Env) {
    && env.machine.Found? && !o.deleting && env.cluster.Found? && env.kubevirtClusterFound && env.patchHelperOk
    && o.finalizer && env.infrastructureReady
  }

  lemma SkipProgress(o: Object, env: Env)
    requires !RunsNormal(o, env)
    ensures Progress(o, PassResult(o, env).o)
  {
  }

  /** Whatever way a pass takes. */
  lemma ResultProgress(o: Object, env: Env)
    ensures Progress(o, PassResult(o, env).o)
  {
    if RunsNormal(o, env) {
      NormalProgress(o, env);
      NodeProgress(o, NormalResult(o, env).o, env);
    } else {
      SkipProgress(o, env);
    }
  }

  lemma PassProgress(o: Object, env: Env, patchOk: bool)
    ensures Progress(o, Persisted(o, env, patchOk))
  {
    ResultProgress(o, env);
  }

  /**
    In every state reachable from a fresh object by any sequence of passes, with any pattern of failed
    patches, Ready implies a non-empty provider id and a recorded non-empty internal IP.
   */
  lemma {:induction false} ReadyMeansUsable(o: Object, events: seq<Event>)
    requires Fresh(o)
    ensures After(o, events).ready ==> Usable(After(o, events))
  {
    if events == [] {
    } else {
      ReadyMeansUsable(o, events[..|events| - 1]);
      var last := events[|events| - 1];
      if last.PassWith? {
        PassProgress(After(o, events[..|events| - 1]), last.env, last.patchOk);
      }
    }
  }

  /** What a pass has latched no later pass undoes. */
  lemma {:induction false} LatchesHold(o: Object, events: seq<Event>)
    ensures var o' := After(o, events);
      && (!NoProviderId(o) ==> o'.providerId == o.providerId)
      && (KnowsInternalIP(o.addresses) ==> KnowsInternalIP(o'.addresses))
      && (IsTrue(o, BootstrapExecSucceeded) ==> IsTrue(o', BootstrapExecSucceeded))
      && (o.failureReason.Some? ==> o'.failureReason.Some?)
  {
    if events == [] {
    } else {
      LatchesHold(o, events[..|events| - 1]);
      var last := events[|events| - 1];
      if last.PassWith? {
        PassProgress(After(o, events[..|events| - 1]), last.env, last.patchOk);
      }
    }
  }

  // ------------------------------------------------------------------ when Ready is taken back

  /** The pass gets as far as looking at the VM. */
  predicate LooksAtVm(o: Object, env: Env) {
    RunsNormal(o, env) && env.hasBootstrapData && Prepared(env) && IsTerminal(env.vm, env.vmi).Some?
  }

  /** The drain step lets the pass go on. */
  predicate DrainPasses(o: Object, env: Env) {
    var call := Drain.DrainCall(o.graceTime, DrainEnv(env));
    !call.failed && call.retry == 0
  }

  /** Drain never asks for a retry in negative time. */
  lemma RetryNotNegative(a: Option<Drain.Stamp>, env: Drain.Env)
    ensures Drain.DrainCall(a, env).retry >= 0
  {
  }

  lemma FinishReady(o: Object, env: Env)
    requires o.ready
    ensures Finish(o, env).o.ready <==>
      if AddressOf(env.vmi) == "" then KnowsInternalIP(o.addresses)
      else !(DrainPasses(o, env) && NotBootstrapped(o, env))
  {
    RetryNotNegative(o.graceTime, DrainEnv(env));
  }

  lemma VmReady(o: Object, env: Env)
    requires o.ready
    ensures !VmResult(o, env).o.ready <==>
      IsTerminal(env.vm, env.vmi).Some? &&
      (|| Creates(env)
       || !IsReady(env.vmi)
       || (AddressOf(env.vmi) == "" && !KnowsInternalIP(o.addresses))
       || (AddressOf(env.vmi) != "" && DrainPasses(o, env) && NotBootstrapped(o, env)))
  {
    if FindsVmUp(env) {
      VmIsUp(o, env);
      UpIdles(o, IsTerminal(env.vm, env.vmi).value);
      FinishReady(Up(o, IsTerminal(env.vm, env.vmi).value), env);
    } else {
      VmIsDown(o, env);
    }
  }

  lemma SkipReady(o: Object, env: Env)
    requires !RunsNormal(o, env)
    ensures PassResult(o, env).o.ready == o.ready && PassResult(o, env).o.graceTime == o.graceTime
  {
  }

  lemma RunReady(o: Object, env: Env)
    requires RunsNormal(o, env)
    ensures PassResult(o, env).patches
    ensures PassResult(o, env).o.ready == NormalResult(o, env).o.ready
    ensures PassResult(o, env).o.graceTime == NormalResult(o, env).o.graceTime
  {
  }

  /** Only reconcileNormal touches Ready. */
  lemma PassReady(o: Object, env: Env)
    ensures Persisted(o, env, true).ready == (if RunsNormal(o, env) then NormalResult(o, env).o.ready else o.ready)
    ensures Persisted(o, env, false).ready == o.ready
  {
    if RunsNormal(o, env) {
      RunReady(o, env);
    } else {
      SkipReady(o, env);
    }
  }

  /**
    A ready object loses Ready in a pass exactly when the pass looks at the VM and finds none to look at, or
    a VMI that is not ready, or no address where none was ever known, or a guest that should be bootstrapped and
    is not.
   */
  lemma ReadyIsLostExactly(o: Object, env: Env)
    requires o.ready
    ensures !Persisted(o, env, true).ready <==>
      LooksAtVm(o, env) &&
      (|| Creates(env)
       || !IsReady(env.vmi)
       || (AddressOf(env.vmi) == "" && !KnowsInternalIP(o.addresses))
       || (AddressOf(env.vmi) != "" && DrainPasses(o, env) && NotBootstrapped(o, env)))
    ensures Persisted(o, env, false).ready
  {
    PassReady(o, env);
    PrepareIdles(o, env);
    VmReady(Prepare(o, env).o, env);
  }

  /** After the first full pass an empty address report never clears Ready. */
  lemma EmptyAddressKeepsReady(o: Object, events: seq<Event>, env: Env, patchOk: bool)
    requires Fresh(o) && After(o, events).ready
    requires env.vm.Some? && IsReady(env.vmi) && AddressOf(env.vmi) == ""
    ensures Persisted(After(o, events), env, patchOk).ready
  {
    ReadyMeansUsable(o, events);
    ReadyIsLostExactly(After(o, events), env);
  }

  // ------------------------------------------------------------------ draining

  /** The pass comes to the drain. */
  predicate ReachesDrain(o: Object, env: Env) {
    LooksAtVm(o, env) && FindsVmUp(env) && AddressOf(env.vmi) != ""
  }

  /** The drain call of a pass that comes to it. */
  function DrainOf(o: Object, env: Env): Drain.Call {
    Drain.DrainCall(o.graceTime, DrainEnv(env))
  }

  lemma FinishDrains(o: Object, env: Env)
    ensures Finish(o, env).o.graceTime == if AddressOf(env.vmi) != "" then DrainOf(o, env).annotation else o.graceTime
  {
    RetryNotNegative(o.graceTime, DrainEnv(env));
  }

  lemma VmDrains(o: Object, env: Env)
    ensures VmResult(o, env).o.graceTime ==
      if FindsVmUp(env) && AddressOf(env.vmi) != "" then DrainOf(o, env).annotation else o.graceTime
  {
    if FindsVmUp(env) {
      VmIsUp(o, env);
      UpIdles(o, IsTerminal(env.vm, env.vmi).value);
      FinishDrains(Up(o, IsTerminal(env.vm, env.vmi).value), env);
    }
  }

  /** A pass leaves the deadline its drain call leaves, even if its final patch fails. */
  lemma PassDrains(o: Object, env: Env, patchOk: bool)
    ensures Persisted(o, env, patchOk).graceTime ==
      if ReachesDrain(o, env) then DrainOf(o, env).annotation else o.graceTime
  {
    if RunsNormal(o, env) {
      RunReady(o, env);
      PrepareIdles(o, env);
      VmDrains(Prepare(o, env).o, env);
    } else {
      SkipReady(o, env);
    }
  }

  /** The drain call that an event of a run makes, if it makes one. */
  function DrainIn(o: Object, e: Event): seq<Drain.Env> {
    if e.PassWith? && ReachesDrain(o, e.env) then [DrainEnv(e.env)] else []
  }

  function DrainCalls(o: Object, events: seq<Event>): seq<Drain.Env> {
    if events == [] then []
    else DrainCalls(o, events[..|events| - 1]) + DrainIn(After(o, events[..|events| - 1]), events[|events| - 1])
  }

  lemma StepDrains(o: Object, e: Event)
    ensures Step(o, e).graceTime == Drain.Through(o.graceTime, DrainIn(o, e))
  {
    if e.PassWith? {
      PassDrains(o, e.env, e.patchOk);
      Drain.ThroughOne(o.graceTime, DrainEnv(e.env));
    }
  }

  /** Over any run of passes, with any failed patches, the deadline is the one their drain calls leave. */
  lemma {:induction false} DeadlineOfRun(o: Object, events: seq<Event>)
    ensures After(o, events).graceTime == Drain.Through(o.graceTime, DrainCalls(o, events))
  {
    if events == [] {
    } else {
      var front, last := events[..|events| - 1], events[|events| - 1];
      DeadlineOfRun(o, front);
      StepDrains(After(o, front), last);
      Drain.ThroughAppend(o.graceTime, DrainCalls(o, front), DrainIn(After(o, front), last));
    }
  }

  /**
    A pass, after any run, that deletes a VMI through the drain had it reported drained, or its node gone, or
    comes strictly more than 599 seconds after the deadline was written.
   */
  lemma PassDeletesDrainedOrLate(o: Object, events: seq<Event>, env: Env)
    requires Fresh(o) && ReachesDrain(After(o, events), env) && DrainOf(After(o, events), env).deletedAt.Some?
    requires Drain.Ordered(DrainCalls(o, events) + [DrainEnv(env)])
    ensures var call := DrainOf(After(o, events), env); var before := Drain.After(DrainCalls(o, events));
            || (call.tried && Drain.NodeEmpty(DrainEnv(env).drain))
            || (before.writtenAt.Some? && call.deletedAt.value > before.writtenAt.value + 599 * Drain.SECOND)
  {
    var calls := DrainCalls(o, events) + [DrainEnv(env)];
    DeadlineOfRun(o, events);
    assert calls[..|calls| - 1] == DrainCalls(o, events);
    Drain.DeletedDrainedOrLate(calls);
  }

  /** And it skips the drain exactly when a deadline written by an earlier pass has passed and still stands. */
  lemma PassSkipsDrainIff(o: Object, events: seq<Event>, env: Env)
    requires Fresh(o) && ReachesDrain(After(o, events), env)
    ensures var call := DrainOf(After(o, events), env);
      (call.deletedAt.Some? && !call.tried) <==>
        && Drain.Evacuating(DrainEnv(env)) && env.drainEnv.deleteOk
        && exists i: nat :: Drain.Overdue(DrainCalls(o, events), i, env.drainEnv.now)
  {
    DeadlineOfRun(o, events);
    Drain.UndrainedRunIff(DrainCalls(o, events), DrainEnv(env));
  }

  /** One if the event is a pass that tries to drain the node. */
  function TryIn(o: Object, e: Event): nat {
    if e.PassWith? && ReachesDrain(o, e.env) && DrainOf(o, e.env).tried then 1 else 0
  }

  /** How many passes of a run try to drain the node. */
  function PassTries(o: Object, events: seq<Event>): nat {
    if events == [] then 0
    else PassTries(o, events[..|events| - 1]) + TryIn(After(o, events[..|events| - 1]), events[|events| - 1])
  }

  lemma StepTries(a: Option<Drain.Stamp>, calls: seq<Drain.Env>, o: Object, e: Event)
    requires o.graceTime == Drain.Through(a, calls)
    ensures Drain.Tries(a, calls + DrainIn(o, e)) == Drain.Tries(a, calls) + TryIn(o, e)
  {
    if DrainIn(o, e) == [] {
      assert calls + DrainIn(o, e) == calls;
    } else {
      Drain.TriesAppend(a, calls, DrainEnv(e.env));
    }
  }

  lemma {:induction false} PassTriesAreTries(o: Object, events: seq<Event>)
    ensures PassTries(o, events) == Drain.Tries(o.graceTime, DrainCalls(o, events))
  {
    if events == [] {
    } else {
      var front, last := events[..|events| - 1], events[|events| - 1];
      PassTriesAreTries(o, front);
      DeadlineOfRun(o, front);
      StepTries(o.graceTime, DrainCalls(o, front), After(o, front), last);
    }
  }

  /**
    Whatever a machine has been through since it was made (healthy passes, other evacuations, failed patches),
    passes at least a second apart try to drain at most 601 times on a VMI that stays evacuating, provided the
    clock has not gone back before the first of them.
   */
  lemma PassesTryAtMost601(o: Object, history: seq<Event>, events: seq<Event>)
    requires Fresh(o)
    requires var o1 := After(o, history); var calls := DrainCalls(o1, events);
      && Drain.Waiting(o1.graceTime, calls)
      && (calls != [] ==> Drain.Ordered(DrainCalls(o, history) + [calls[0]]))
    ensures PassTries(After(o, history), events) <= 601
  {
    var o1 := After(o, history);
    var calls := DrainCalls(o1, events);
    DeadlineOfRun(o, history);
    PassTriesAreTries(o1, events);
    if calls != [] {
      Drain.DeadlineNotFarAhead(DrainCalls(o, history), calls[0]);
    }
    Drain.AtMost601Tries(o1.graceTime, calls);
  }

  // ------------------------------------------------------------------ convergence

  /** The VM is up, its VMI is ready, addressed, bootstrapped and not evacuating, and no request fails. */
  predicate Healthy(o: Object, env: Env) {
    && LooksAtVm(o, env)
    && env.vm.Some? && IsReady(env.vmi) && AddressOf(env.vmi) != ""
    && (ChecksBootstrap(env) ==> env.bootstrapped)
    && !Drain.Evacuating(DrainEnv(env)) && env.drainEnv.removeOk
    && env.workloadClient && env.node.Node? && env.nodePatchOk
  }

  lemma MarkAgain(o: Object, c: Condition, status: bool)
    requires c in o.conditions && o.conditions[c] == status
    ensures Mark(o, c, status) == o
  {
    assert o.conditions[c := status] == o.conditions;
  }

  /** A healthy pass needs no drain; what is left of an old deadline is removed. */
  lemma HealthyFinish(o: Object, env: Env)
    requires AddressOf(env.vmi) != "" && !Drain.Evacuating(DrainEnv(env)) && env.drainEnv.removeOk
    ensures Finish(o, env) == Conclude(o.(graceTime := None), env, AddressOf(env.vmi))
  {
  }

  /** A healthy pass, step by step: default the reference, note what was found, conclude, update the node. */
  function Concluded(o: Object, env: Env): Normal
    requires Healthy(o, env)
  {
    var u := Up(Prepare(o, env).o, IsTerminal(env.vm, env.vmi).value);
    Conclude(u.(graceTime := None), env, AddressOf(env.vmi))
  }

  lemma HealthyPass(o: Object, env: Env)
    requires Healthy(o, env)
    ensures var n := Concluded(o, env);
            Persisted(o, env, true) == (if n.exit.Completes? then NodeResult(n.o, env).o else n.o)
  {
    var p := Prepare(o, env).o;
    PrepareIdles(o, env);
    VmIsUp(p, env);
    HealthyFinish(Up(p, IsTerminal(env.vm, env.vmi).value), env);
  }

  /** What a healthy pass leaves behind. */
  predicate Settled(o: Object, env: Env) {
    var migratable := if env.vmi.Some? then LiveMigratable(env.vmi.value.conditions) else None;
    && o.ready && !NoProviderId(o) && o.addresses == AddressesFor(o.name, AddressOf(env.vmi))
    && (ChecksBootstrap(env) ==> IsTrue(o, BootstrapExecSucceeded))
    && (migratable.Some? ==> VMLiveMigratable in o.conditions && o.conditions[VMLiveMigratable] == migratable.value)
  }

  /** The part of it that the steps before the conclusion look at. */
  predicate Noted(o: Object, env: Env) {
    && IsTrue(o, VMProvisioned) && o.graceTime.None?
    && (o.infraRef.None? ==> env.clusterRef.None?)
    && (IsTerminal(env.vm, env.vmi) == Some(true) ==> o.failureReason == Some(UpdateMachineError))
  }

  lemma MadeReadySettles(o: Object, env: Env, migratable: bool)
    ensures var o1 := MadeReady(o, env, AddressOf(env.vmi)); var o2 := Mark(o1, VMLiveMigratable, migratable);
      && o1.ready && !NoProviderId(o1) && o1.addresses == AddressesFor(o.name, AddressOf(env.vmi))
      && (ChecksBootstrap(env) ==> IsTrue(o1, BootstrapExecSucceeded) && IsTrue(o2, BootstrapExecSucceeded))
      && (IsTrue(o, VMProvisioned) ==> IsTrue(o1, VMProvisioned) && IsTrue(o2, VMProvisioned))
  {
  }

  lemma ConcludeSettles(o: Object, env: Env)
    requires ChecksBootstrap(env) ==> env.bootstrapped
    ensures var o' := Conclude(o, env, AddressOf(env.vmi)).o;
            Settled(o', env) && (Noted(o, env) ==> Noted(o', env))
            && o'.finalizer == o.finalizer && o'.deleting == o.deleting
  {
    var migratable := if env.vmi.Some? then LiveMigratable(env.vmi.value.conditions) else None;
    MadeReadySettles(o, env, if migratable.Some? then migratable.value else false);
  }

  lemma SettledConcludes(o: Object, env: Env)
    requires Settled(o, env)
    ensures Conclude(o, env, AddressOf(env.vmi)).o == o
  {
    var migratable := if env.vmi.Some? then LiveMigratable(env.vmi.value.conditions) else None;
    assert MadeReady(o, env, AddressOf(env.vmi)) == o;
    if migratable.Some? {
      MarkAgain(o, VMLiveMigratable, migratable.value);
    }
  }

  lemma UpIsNoted(o: Object, env: Env)
    requires Healthy(o, env)
    ensures var u := Up(Prepare(o, env).o, IsTerminal(env.vm, env.vmi).value).(graceTime := None);
            Noted(u, env) && u.finalizer && !u.deleting
  {
  }

  lemma NotedStaysUp(o: Object, env: Env)
    requires Healthy(o, env) && Noted(o, env)
    ensures Up(Prepare(o, env).o, IsTerminal(env.vm, env.vmi).value).(graceTime := None) == o
  {
    MarkAgain(o, VMProvisioned, true);
  }

  lemma NodeKeeps(o: Object, env: Env)
    ensures NodeResult(o, env).o == o || NodeResult(o, env).o == o.(nodeUpdated := true)
    ensures env.workloadClient && env.node.Node? && env.nodePatchOk && o.providerId.Some? ==>
              NodeResult(NodeResult(o, env).o, env).o == NodeResult(o, env).o
  {
  }

  lemma ConcludeExit(o: Object, env: Env)
    requires ChecksBootstrap(env) ==> env.bootstrapped
    ensures Conclude(o, env, AddressOf(env.vmi)).exit.Completes? <==>
              env.vmi.Some? && LiveMigratable(env.vmi.value.conditions).Some?
  {
  }

  /**
    One pass makes any such object Ready, whatever state it was in, and a second pass in the same
    environment leaves it exactly as it is.
   */
  lemma OnePassSettles(o: Object, env: Env)
    requires Healthy(o, env)
    ensures Persisted(o, env, true).ready
    ensures Persisted(Persisted(o, env, true), env, true) == Persisted(o, env, true)
  {
    var u := Up(Prepare(o, env).o, IsTerminal(env.vm, env.vmi).value).(graceTime := None);
    var n := Concluded(o, env).o;
    var o' := Persisted(o, env, true);
    HealthyPass(o, env);
    UpIsNoted(o, env);
    ConcludeSettles(u, env);
    NodeKeeps(n, env);
    assert Settled(o', env) && Noted(o', env);
    HealthyPass(o', env);
    NotedStaysUp(o', env);
    SettledConcludes(o', env);
    ConcludeExit(u, env);
    ConcludeExit(o', env);
  }

  // ------------------------------------------------------------------ a pass that cannot finish

  /**
    A pass dereferences a nil provider id exactly when the machine has no bootstrap data yet, so that
    reconcileNormal only waits, and yet a node of its name exists in the workload cluster and the object has
    neither a provider id nor the node marked as updated.
   */
  lemma PanicsExactly(o: Object, env: Env)
    ensures PassResult(o, env).panics <==>
      && RunsNormal(o, env) && !env.hasBootstrapData
      && !o.nodeUpdated && o.providerId.None? && env.workloadClient && env.node.Node?
  {
    NormalProgress(o, env);
  }

  /** The machine has no bootstrap data yet, but a node of its name has joined; nothing fails. */
  function JoinedEarly(providerId: string): Env {
    Env(Found, Found, true, true, true, false, true, true, true, true, true, None, Found, true, true, None, None, true,
        Drain.Env(None, 0, true, Drain.Drained, 0, true, true), true, true, true, Node(providerId), true, Deleted)
  }

  /** Such a pass does happen: at the latest the second pass on any fresh object panics. */
  lemma FreshObjectPanics(o: Object, providerId: string)
    requires Fresh(o) && !o.deleting
    ensures exists events :: |events| <= 1 && PassResult(After(o, events), JoinedEarly(providerId)).panics
  {
    var env := JoinedEarly(providerId);
    var first := PassWith(env, true);
    assert After(o, []) == o;
    if o.finalizer {
      PanicsExactly(o, env);
    } else {
      assert [first][..0] == [];
      assert After(o, [first]) == o.(finalizer := true);
      PanicsExactly(After(o, [first]), env);
    }
  }
}
