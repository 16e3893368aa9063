/** What one pass of the KubevirtMachine controller does, in terms of what it meets. */
module MachinePasses {
  import opened Common
  import opened MachineController
  import opened MachineRuns
  import Drain

  // ------------------------------------------------------------------ which way a pass takes

  /** The drain lets a pass go on exactly when the VMI is not evacuating and no deadline is left on the object. */
  lemma DrainPassesIff(o: Object, env: Env)
    ensures DrainPasses(o, env) <==>
      !Drain.Evacuating(DrainEnv(env)) && (o.graceTime.None? || env.drainEnv.removeOk)
  {
    Drain.CallOutcome(o.graceTime, DrainEnv(env));
  }

  /** The ssh keys are there, or are not this controller's business. */
  predicate HasKeys(env: Env) {
    env.externallyManaged || (env.keysPersisted && env.keysFetched)
  }

  /** The pass comes all the way: it finds the VM up, addressed, drained of nothing and bootstrapped. */
  predicate GetsThrough(o: Object, env: Env) {
    && ReachesDrain(o, env)
    && !Drain.Evacuating(DrainEnv(env)) && (o.graceTime.None? || env.drainEnv.removeOk)
    && (env.externallyManaged || !env.sshInjected || IsTrue(o, BootstrapExecSucceeded) || env.bootstrapped)
  }

  /** The object a pass works on from the drain on. */
  function Reached(o: Object, env: Env): Object {
    Up(Prepare(o, env).o, IsTerminal(env.vm, env.vmi) == Some(true))
  }

  lemma PrepareLeaves(o: Object, env: Env)
    ensures Prepare(o, env).o.nodeUpdated == o.nodeUpdated && Prepare(o, env).o.name == o.name
  {
  }

  lemma ReachedIs(o: Object, env: Env)
    requires ReachesDrain(o, env)
    ensures NormalResult(o, env) == Finish(Reached(o, env), env) && RunsNormal(o, env)
    ensures var u := Reached(o, env);
      && u.ready == o.ready && u.graceTime == o.graceTime && u.addresses == o.addresses && u.providerId == o.providerId
      && u.nodeUpdated == o.nodeUpdated && u.name == o.name
      && IsTrue(u, BootstrapExecSucceeded) == IsTrue(o, BootstrapExecSucceeded) && IsTrue(u, VMProvisioned)
  {
    PrepareIdles(o, env);
    VmIsUp(Prepare(o, env).o, env);
    UpIdles(Prepare(o, env).o, IsTerminal(env.vm, env.vmi).value);
    PrepareLeaves(o, env);
  }

  /**
    A pass that deletes the VMI, or tries to drain its node, or fails to, leaves ready, addresses, provider id
    and node mark as they were: it does not go on with a VMI that is about to go.
   */
  lemma DrainingPassLeaves(o: Object, env: Env, patchOk: bool)
    requires ReachesDrain(o, env) && !DrainPasses(o, env)
    ensures var o' := Persisted(o, env, patchOk);
      && o'.ready == o.ready && o'.addresses == o.addresses
      && o'.providerId == o.providerId && o'.nodeUpdated == o.nodeUpdated
  {
    ReachedIs(o, env);
    RetryNotNegative(o.graceTime, DrainEnv(env));
  }

  lemma DeletingCallStops(o: Object, env: Env)
    requires DrainOf(o, env).deletedAt.Some? || DrainOf(o, env).tried
    ensures !DrainPasses(o, env)
  {
    Drain.CallOutcome(o.graceTime, DrainEnv(env));
  }

  // ------------------------------------------------------------------ a pass that gets through

  function AddressFor(kind: AddressType, name: string, ip: string): string {
    if kind.HostName? || kind.InternalDNS? then name else ip
  }

  /** One address of each kind, with the name or the IP as its kind asks. */
  predicate AddressedAs(o: Object, ip: string) {
    && |o.addresses| == 4
    && (forall i :: 0 <= i < 4 ==> o.addresses[i].address == AddressFor(o.addresses[i].kind, o.name, ip))
    && (exists i :: 0 <= i < 4 && o.addresses[i].kind == HostName)
    && (exists i :: 0 <= i < 4 && o.addresses[i].kind == InternalIP)
    && (exists i :: 0 <= i < 4 && o.addresses[i].kind == ExternalIP)
    && (exists i :: 0 <= i < 4 && o.addresses[i].kind == InternalDNS)
  }

  lemma MadeReadyIs(o: Object, env: Env, ip: string)
    ensures var o' := MadeReady(o, env, ip);
      && o'.ready && AddressedAs(o', ip)
      && o'.providerId == (if NoProviderId(o) then Some("kubevirt://" + o.name) else o.providerId)
      && (ChecksBootstrap(env) ==> IsTrue(o', BootstrapExecSucceeded))
      && o'.failureReason == o.failureReason && o'.finalizer == o.finalizer && o'.name == o.name
  {
    var a := AddressesFor(o.name, ip);
    assert a[0].kind == HostName && a[1].kind == InternalIP && a[2].kind == ExternalIP && a[3].kind == InternalDNS;
  }

  /** What is persisted after reconcileNormal is its object, with the node marked or not. */
  lemma RunPersists(o: Object, env: Env)
    requires RunsNormal(o, env)
    ensures var n := NormalResult(o, env).o;
            Persisted(o, env, true) == n || Persisted(o, env, true) == n.(nodeUpdated := true)
  {
    NodeKeeps(NormalResult(o, env).o, env);
  }

  /** The object is as a pass that gets through leaves it. */
  predicate Served(o: Object, env: Env, o': Object) {
    && o'.ready && AddressedAs(o', AddressOf(env.vmi)) && o'.graceTime.None? && IsTrue(o', VMProvisioned)
    && o'.providerId == (if NoProviderId(o) then Some("kubevirt://" + o.name) else o.providerId)
    && (!env.externallyManaged && env.sshInjected ==> IsTrue(o', BootstrapExecSucceeded))
  }

  lemma ServedStays(o: Object, env: Env, o': Object, status: bool)
    requires Served(o, env, o')
    ensures Served(o, env, Mark(o', VMLiveMigratable, status)) && Served(o, env, o'.(nodeUpdated := true))
  {
  }

  lemma ThroughFinishes(o: Object, env: Env)
    requires GetsThrough(o, env)
    ensures NormalResult(o, env) == Conclude(Reached(o, env).(graceTime := None), env, AddressOf(env.vmi))
    ensures !NotBootstrapped(Reached(o, env).(graceTime := None), env)
  {
    ReachedIs(o, env);
    DrainPassesIff(o, env);
    RetryNotNegative(o.graceTime, DrainEnv(env));
    Drain.RemoveFindsAnnotation(o.graceTime, DrainEnv(env));
  }

  lemma ConcludeIs(u: Object, env: Env)
    requires !NotBootstrapped(u, env)
    ensures var n := Conclude(u, env, AddressOf(env.vmi)); var o1 := MadeReady(u, env, AddressOf(env.vmi));
      && (n.o == o1 || n.o == Mark(o1, VMLiveMigratable, true) || n.o == Mark(o1, VMLiveMigratable, false))
      && o1.graceTime == u.graceTime && IsTrue(o1, VMProvisioned) == IsTrue(u, VMProvisioned)
  {
  }

  /** What a pass that gets through leaves: ready, with the VMI's address and a provider id of the machine's name. */
  lemma ThroughLeaves(o: Object, env: Env)
    requires GetsThrough(o, env)
    ensures Served(o, env, Persisted(o, env, true))
    ensures |env.vmi.value.interfaces| > 0 && AddressedAs(Persisted(o, env, true), env.vmi.value.interfaces[0])
  {
    var u := Reached(o, env).(graceTime := None);
    ReachedIs(o, env);
    ThroughFinishes(o, env);
    MadeReadyIs(u, env, AddressOf(env.vmi));
    ConcludeIs(u, env);
    var o1 := MadeReady(u, env, AddressOf(env.vmi));
    assert Served(o, env, o1);
    ServedStays(o, env, o1, true);
    ServedStays(o, env, o1, false);
    var n := NormalResult(o, env).o;
    assert Served(o, env, n);
    ServedStays(o, env, n, true);
    RunPersists(o, env);
  }

  lemma StuckStaysUnready(o: Object, env: Env)
    requires !o.ready && ReachesDrain(o, env) && !GetsThrough(o, env)
    ensures !Persisted(o, env, true).ready
  {
    ReachedIs(o, env);
    DrainPassesIff(o, env);
    RetryNotNegative(o.graceTime, DrainEnv(env));
    PassReady(o, env);
  }

  lemma EarlierStaysUnready(o: Object, env: Env)
    requires !o.ready && RunsNormal(o, env) && !ReachesDrain(o, env)
    ensures !NormalResult(o, env).o.ready
  {
    PrepareIdles(o, env);
    if Prepare(o, env).exit.Completes? {
      var p := Prepare(o, env).o;
      if FindsVmUp(env) {
        VmIsUp(p, env);
        UpIdles(p, IsTerminal(env.vm, env.vmi).value);
      } else {
        VmIsDown(p, env);
      }
    }
  }

  /** Ready is gained exactly by a pass that gets through. */
  lemma ReadyIsGainedExactly(o: Object, env: Env)
    requires !o.ready
    ensures Persisted(o, env, true).ready <==> GetsThrough(o, env)
  {
    if GetsThrough(o, env) {
      ThroughLeaves(o, env);
    } else if ReachesDrain(o, env) {
      ReachedIs(o, env);
      StuckStaysUnready(o, env);
    } else {
      PassReady(o, env);
      if RunsNormal(o, env) {
        EarlierStaysUnready(o, env);
      }
    }
  }

  // ------------------------------------------------------------------ failure reasons, conditions, node mark

  lemma PassFailure(o: Object, env: Env)
    ensures Persisted(o, env, true).failureReason ==
      if RunsNormal(o, env) then NormalResult(o, env).o.failureReason else o.failureReason
  {
  }

  lemma PrepareFailure(o: Object, env: Env)
    ensures Prepare(o, env).o.failureReason == o.failureReason
    ensures Prepare(o, env).exit.Completes? <==> env.hasBootstrapData && Prepared(env)
  {
  }

  /** From the drain on a pass touches neither failure reason, node mark nor VMProvisioned. */
  predicate Frame(o: Object, o': Object) {
    && o'.failureReason == o.failureReason && o'.nodeUpdated == o.nodeUpdated
    && IsTrue(o', VMProvisioned) == IsTrue(o, VMProvisioned)
  }

  lemma ConcludeFrame(o: Object, env: Env, ip: string)
    ensures Frame(o, Conclude(o, env, ip).o)
  {
  }

  lemma FinishFrame(o: Object, env: Env)
    ensures Frame(o, Finish(o, env).o)
  {
    ConcludeFrame(o.(graceTime := DrainOf(o, env).annotation), env, AddressOf(env.vmi));
  }

  lemma VmFailure(o: Object, env: Env)
    ensures VmResult(o, env).o.failureReason ==
      if IsTerminal(env.vm, env.vmi) == Some(true) then Some(UpdateMachineError) else o.failureReason
  {
    if FindsVmUp(env) {
      VmIsUp(o, env);
      FinishFrame(Up(o, IsTerminal(env.vm, env.vmi).value), env);
    }
  }

  /**
    A pass reports a failure exactly when it looks at a VM and a VMI of which the VMI is evicted without a way out,
    one carries the terminal label, or the run strategy gives up.
   */
  lemma FailureIsSetExactly(o: Object, env: Env)
    requires o.failureReason.None?
    ensures Persisted(o, env, true).failureReason.Some? <==>
      && RunsNormal(o, env) && env.hasBootstrapData && Prepared(env) && env.vm.Some? && env.vmi.Some?
      && (|| Evicted(env.vmi.value)
          || Labelled(env.vm.value, env.vmi.value)
          || NotRerun(env.vm.value, env.vmi.value))
  {
    IsTerminalIff(env.vm, env.vmi);
    PassFailure(o, env);
    PrepareFailure(o, env);
    VmFailure(Prepare(o, env).o, env);
  }

  lemma VmNode(o: Object, env: Env)
    ensures VmResult(o, env).o.nodeUpdated == o.nodeUpdated
  {
    if FindsVmUp(env) {
      VmIsUp(o, env);
      FinishFrame(Up(o, IsTerminal(env.vm, env.vmi).value), env);
    }
  }

  lemma NormalNode(o: Object, env: Env)
    ensures NormalResult(o, env).o.nodeUpdated == o.nodeUpdated
  {
    PrepareLeaves(o, env);
    VmNode(Prepare(o, env).o, env);
  }

  lemma NodeMarks(o: Object, env: Env)
    requires !o.nodeUpdated
    ensures NodeResult(o, env).o.nodeUpdated <==>
      && env.workloadClient && env.node.Node? && env.nodePatchOk
      && o.providerId.Some? && env.node.providerId != o.providerId.value
  {
  }

  lemma SkipNode(o: Object, env: Env)
    requires !RunsNormal(o, env)
    ensures PassResult(o, env).o.nodeUpdated == o.nodeUpdated
  {
  }

  /** The node is marked as updated exactly when a completed pass finds it with another provider id and patches it. */
  lemma NodeIsMarkedExactly(o: Object, env: Env)
    requires !o.nodeUpdated
    ensures Persisted(o, env, true).nodeUpdated <==>
      && RunsNormal(o, env) && (NormalResult(o, env).exit.Waits? || NormalResult(o, env).exit.Completes?)
      && env.workloadClient && env.node.Node? && env.nodePatchOk
      && NormalResult(o, env).o.providerId.Some? && env.node.providerId != NormalResult(o, env).o.providerId.value
  {
    if RunsNormal(o, env) {
      NormalNode(o, env);
      NodeMarks(NormalResult(o, env).o, env);
    } else {
      SkipNode(o, env);
    }
  }

  /** The pass gets as far as asking whether the cluster's infrastructure is ready. */
  predicate Starts(o: Object, env: Env) {
    && env.machine.Found? && !o.deleting && env.cluster.Found? && env.kubevirtClusterFound && env.patchHelperOk
    && o.finalizer
  }

  /** The pass reports that the VM is not provisioned. */
  predicate SaysDown(o: Object, env: Env) {
    Starts(o, env) &&
    (|| !env.infrastructureReady
     || !env.hasBootstrapData
     || (HasKeys(env) && env.infraClient.Found? && !env.bootstrapSecretOk)
     || (Prepared(env) && Creates(env) && !env.createOk)
     || (Prepared(env) && IsTerminal(env.vm, env.vmi).Some? && !Creates(env) && !IsReady(env.vmi)))
  }

  lemma PassProvisioned(o: Object, env: Env)
    requires RunsNormal(o, env)
    ensures IsTrue(Persisted(o, env, true), VMProvisioned) == IsTrue(NormalResult(o, env).o, VMProvisioned)
  {
  }

  lemma PrepareProvisioned(o: Object, env: Env)
    ensures IsTrue(Prepare(o, env).o, VMProvisioned) <==>
      && IsTrue(o, VMProvisioned) && env.hasBootstrapData
      && !(HasKeys(env) && env.infraClient.Found? && !env.bootstrapSecretOk)
    ensures Prepare(o, env).exit.Completes? <==> env.hasBootstrapData && Prepared(env)
  {
  }

  lemma VmProvisioned(o: Object, env: Env)
    ensures IsTrue(VmResult(o, env).o, VMProvisioned) <==>
      || FindsVmUp(env)
      || (IsTrue(o, VMProvisioned) && (IsTerminal(env.vm, env.vmi).None? || (Creates(env) && env.createOk)))
  {
    if FindsVmUp(env) {
      VmIsUp(o, env);
      FinishFrame(Up(o, IsTerminal(env.vm, env.vmi).value), env);
    }
  }

  /** A pass on an object that is not being deleted says that the VM is provisioned, that it is not, or nothing. */
  lemma ProvisionedIsSaidExactly(o: Object, env: Env)
    requires !o.deleting
    ensures IsTrue(Persisted(o, env, true), VMProvisioned) <==>
      (LooksAtVm(o, env) && FindsVmUp(env)) || (IsTrue(o, VMProvisioned) && !SaysDown(o, env))
  {
    if RunsNormal(o, env) {
      PassProvisioned(o, env);
      PrepareProvisioned(o, env);
      VmProvisioned(Prepare(o, env).o, env);
    }
  }

  lemma {:induction false} FirstDecides(conditions: seq<VmiCondition>, i: int)
    requires FirstMigratable(conditions, i)
    ensures LiveMigratable(conditions) == Some(conditions[i].status)
  {
    if i == 0 {
    } else {
      assert forall j :: 0 <= j < |conditions| - 1 ==> conditions[1..][j] == conditions[j + 1];
      assert !conditions[0].kind.VmiMigratable?;
      FirstDecides(conditions[1..], i - 1);
    }
  }

  /** What a pass that gets through says about live migration is what the first such condition of the VMI says. */
  lemma MigratableIsSaid(o: Object, env: Env, i: int)
    requires GetsThrough(o, env) && FirstMigratable(env.vmi.value.conditions, i)
    ensures VMLiveMigratable in Persisted(o, env, true).conditions
    ensures Persisted(o, env, true).conditions[VMLiveMigratable] == env.vmi.value.conditions[i].status
  {
    ReachedIs(o, env);
    ThroughFinishes(o, env);
    FirstDecides(env.vmi.value.conditions, i);
    RunPersists(o, env);
  }

  // ------------------------------------------------------------------ how reconcileNormal ends

  /** A read or write before the VM is looked at fails. */
  predicate PreparationFails(env: Env) {
    || (!env.externallyManaged && env.keysPersisted && !env.keysFetched)
    || (HasKeys(env) && env.infraClient.LookupError?)
    || (HasKeys(env) && env.infraClient.Found? && (!env.bootstrapSecretOk || !env.helperOk))
  }

  /** The VM cannot be judged, created, or drained. */
  predicate VmFails(o: Object, env: Env) {
    || IsTerminal(env.vm, env.vmi).None?
    || (Creates(env) && !env.createOk)
    || (FindsVmUp(env) && AddressOf(env.vmi) != "" && !Drain.Succeeds(o.graceTime, DrainEnv(env)))
  }

  lemma PrepareExits(o: Object, env: Env)
    ensures var exit := Prepare(o, env).exit;
      && (exit.Waits? <==> !env.hasBootstrapData)
      && (exit.Errors? <==> env.hasBootstrapData && PreparationFails(env))
      && (exit.Completes? <==> env.hasBootstrapData && Prepared(env))
  {
  }

  lemma DownExits(o: Object, env: Env)
    requires !FindsVmUp(env)
    ensures VmResult(o, env).exit.Errors? <==> IsTerminal(env.vm, env.vmi).None? || (Creates(env) && !env.createOk)
  {
  }

  lemma FinishExits(o: Object, env: Env)
    requires env.vmi.Some?
    ensures var exit := Finish(o, env).exit;
      && (exit.Errors? <==> AddressOf(env.vmi) != "" && !Drain.Succeeds(o.graceTime, DrainEnv(env)))
      && (exit.Completes? <==>
            && AddressOf(env.vmi) != ""
            && !Drain.Evacuating(DrainEnv(env)) && (o.graceTime.None? || env.drainEnv.removeOk)
            && !NotBootstrapped(o, env) && LiveMigratable(env.vmi.value.conditions).Some?)
      && !exit.Waits?
  {
    Drain.CallOutcome(o.graceTime, DrainEnv(env));
  }

  /**
    reconcileNormal waits exactly without bootstrap data, fails exactly when one of its requests does, and
    completes exactly when it gets through and the VMI says whether it can migrate; otherwise it asks to be
    called again.
   */
  lemma NormalExits(o: Object, env: Env)
    requires RunsNormal(o, env)
    ensures var exit := NormalResult(o, env).exit;
      && (exit.Waits? <==> !env.hasBootstrapData)
      && (exit.Errors? <==> env.hasBootstrapData && (PreparationFails(env) || (Prepared(env) && VmFails(o, env))))
      && (exit.Completes? <==> GetsThrough(o, env) && LiveMigratable(env.vmi.value.conditions).Some?)
  {
    PrepareExits(o, env);
    if Prepare(o, env).exit.Completes? {
      var p := Prepare(o, env).o;
      PrepareIdles(o, env);
      if FindsVmUp(env) {
        var u := Up(p, IsTerminal(env.vm, env.vmi).value);
        VmIsUp(p, env);
        UpIdles(p, IsTerminal(env.vm, env.vmi).value);
        FinishExits(u, env);
      } else {
        VmIsDown(p, env);
        DownExits(p, env);
      }
    }
  }

  // ------------------------------------------------------------------ how a deletion ends

  /** A deleting pass removes the finalizer exactly when the VM is absent, found gone, or its deletion is accepted. */
  lemma DeletionEnds(o: Object, env: Env)
    requires env.machine.Found? && o.deleting && o.finalizer
    ensures var p := PassResult(o, env);
      && (p.deleteSent <==>
            && env.patchHelperOk && env.infraClient.Found? && env.bootstrapSecretOk && env.helperOk && env.vm.Some?
            && (env.deleteOutcome.Deleted? || env.deleteOutcome.DeleteFailed?))
      && (!p.o.finalizer <==>
            && env.patchHelperOk && env.infraClient.Found? && env.bootstrapSecretOk && env.helperOk
            && (env.vm.None? || env.deleteOutcome.AlreadyGone? || env.deleteOutcome.Deleted?))
      && (p.patches <==> !p.o.finalizer) && (!p.o.finalizer ==> !IsTrue(p.o, VMProvisioned))
      && (p.exit.Completes? <==> !p.o.finalizer)
      && (p.exit.Requeues? <==> env.patchHelperOk && env.infraClient.Missing?)
  {
  }

  lemma PrepareReference(o: Object, env: Env)
    ensures Prepare(o, env).o.infraRef ==
      if o.infraRef.None? && env.hasBootstrapData && HasKeys(env) then env.clusterRef else o.infraRef
  {
  }

  lemma ConcludeReference(o: Object, env: Env, ip: string)
    ensures Conclude(o, env, ip).o.infraRef == o.infraRef
  {
  }

  lemma VmReference(o: Object, env: Env)
    ensures VmResult(o, env).o.infraRef == o.infraRef
  {
    if FindsVmUp(env) {
      VmIsUp(o, env);
      var u := Up(o, IsTerminal(env.vm, env.vmi).value);
      ConcludeReference(u.(graceTime := DrainOf(u, env).annotation), env, AddressOf(env.vmi));
    }
  }

  /** The reference to the infra cluster is taken over exactly where the object has none and the keys are there. */
  lemma ReferenceIsDefaulted(o: Object, env: Env)
    requires RunsNormal(o, env)
    ensures NormalResult(o, env).o.infraRef ==
      if o.infraRef.None? && env.hasBootstrapData && HasKeys(env) then env.clusterRef else o.infraRef
  {
    PrepareReference(o, env);
    VmReference(Prepare(o, env).o, env);
  }

  // ------------------------------------------------------------------ how the other passes end

  /** A pass that does not come to reconcileNormal or reconcileDelete fails exactly when a lookup of it fails. */
  lemma EarlyExits(o: Object, env: Env)
    requires !o.deleting && !RunsNormal(o, env)
    ensures var p := PassResult(o, env);
      && !p.created && !p.deleteSent && !p.panics && !p.exit.Requeues? && !p.exit.Waits?
      && (p.exit.Errors? <==>
            || env.machine.LookupError?
            || (env.machine.Found? && env.cluster.LookupError?)
            || (env.machine.Found? && env.cluster.Found? && env.kubevirtClusterFound && !env.patchHelperOk))
      && (p.o.finalizer <==>
            || o.finalizer
            || (&& env.machine.Found? && env.cluster.Found? && env.kubevirtClusterFound && env.patchHelperOk))
      && p.o.ready == o.ready && p.o.failureReason == o.failureReason
  {
  }

  /** The node update fails exactly when its read or its patch fails, or for want of a provider id. */
  lemma NodeExits(o: Object, env: Env)
    ensures o.nodeUpdated ==> NodeResult(o, env) == NodeUpdate(o, Completes, false)
    ensures !o.nodeUpdated ==>
      var u := NodeResult(o, env);
      && (u.exit.Requeues? <==> !env.workloadClient || env.node.NodeMissing?)
      && (u.panics <==> env.workloadClient && env.node.Node? && o.providerId.None?)
      && (u.exit.Errors? <==>
            env.workloadClient &&
            (|| env.node.NodeError?
             || (env.node.Node? && o.providerId.None?)
             || (&& env.node.Node? && o.providerId.Some? && env.node.providerId != o.providerId.value
                 && !env.nodePatchOk)))
  {
  }

  // ------------------------------------------------------------------ VMs, addresses and bootstrapping

  lemma FinishCreatesNone(o: Object, env: Env)
    ensures !Finish(o, env).created
  {
  }

  /** A request to create a VM is sent exactly when a pass that is ready for it finds none. */
  lemma CreatesExactly(o: Object, env: Env)
    ensures PassResult(o, env).created <==>
      RunsNormal(o, env) && env.hasBootstrapData && Prepared(env) && env.vm.None?
  {
    IsTerminalIff(env.vm, env.vmi);
    PrepareExits(o, env);
    FinishCreatesNone(Up(Prepare(o, env).o, IsTerminal(env.vm, env.vmi) == Some(true)), env);
  }

  /** The address of a machine is the one of its VMI's first interface. */
  lemma AddressIs(vmi: Option<Vmi>, ip: string)
    requires ip != ""
    ensures AddressOf(vmi) == ip <==> vmi.Some? && |vmi.value.interfaces| > 0 && vmi.value.interfaces[0] == ip
  {
  }

  lemma EarlierIdles(o: Object, env: Env)
    requires RunsNormal(o, env) && !ReachesDrain(o, env)
    ensures IsTrue(NormalResult(o, env).o, BootstrapExecSucceeded) == IsTrue(o, BootstrapExecSucceeded)
  {
    PrepareIdles(o, env);
    if Prepare(o, env).exit.Completes? {
      var p := Prepare(o, env).o;
      if FindsVmUp(env) {
        VmIsUp(p, env);
        UpIdles(p, IsTerminal(env.vm, env.vmi).value);
      } else {
        VmIsDown(p, env);
      }
    }
  }

  lemma SkipBootstraps(o: Object, env: Env)
    requires !RunsNormal(o, env)
    ensures IsTrue(Persisted(o, env, true), BootstrapExecSucceeded) == IsTrue(o, BootstrapExecSucceeded)
  {
  }

  lemma ThroughBootstraps(o: Object, env: Env)
    requires GetsThrough(o, env)
    ensures IsTrue(NormalResult(o, env).o, BootstrapExecSucceeded) <==>
      IsTrue(o, BootstrapExecSucceeded) || (!env.externallyManaged && env.sshInjected)
  {
    ReachedIs(o, env);
    ThroughFinishes(o, env);
    ConcludeIs(Reached(o, env).(graceTime := None), env);
  }

  lemma StuckBootstraps(o: Object, env: Env)
    requires ReachesDrain(o, env) && !GetsThrough(o, env)
    ensures IsTrue(NormalResult(o, env).o, BootstrapExecSucceeded) == IsTrue(o, BootstrapExecSucceeded)
  {
    ReachedIs(o, env);
    DrainPassesIff(o, env);
    RetryNotNegative(o.graceTime, DrainEnv(env));
  }

  /** Bootstrapping is reported as succeeded exactly when it was before, or a pass that checks it gets through. */
  lemma BootstrapIsSaidExactly(o: Object, env: Env)
    ensures IsTrue(Persisted(o, env, true), BootstrapExecSucceeded) <==>
      IsTrue(o, BootstrapExecSucceeded) || (GetsThrough(o, env) && !env.externallyManaged && env.sshInjected)
  {
    if RunsNormal(o, env) {
      RunPersists(o, env);
      if GetsThrough(o, env) {
        ThroughBootstraps(o, env);
      } else if ReachesDrain(o, env) {
        StuckBootstraps(o, env);
      } else {
        EarlierIdles(o, env);
      }
    } else {
      SkipBootstraps(o, env);
    }
  }
}
