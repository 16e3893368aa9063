/** The reconciler itself: it edits the fields of the object it has read, with early returns. */
module MachineReconciler {
  import opened Common
  import opened MachineController
  import Drain
  import MachineRuns
  import OrphanFreedom

  class KubevirtMachine {
    const name: string
    var finalizer: bool
    var deleting: bool
    var infraRef: Option<Ref>
    var providerId: Option<string>
    var ready: bool
    var addresses: seq<Address>
    var conditions: map<Condition, bool>
    var nodeUpdated: bool
    var failureReason: Option<Failure>
    var graceTime: Option<Drain.Stamp>

    /** The object the fields hold. */
    function Value(): Object
      reads this
    {
      Object(name, finalizer, deleting, infraRef, providerId, ready, addresses, conditions, nodeUpdated,
             failureReason, graceTime)
    }

    constructor (o: Object)
      ensures Value() == o
    {
      name, finalizer, deleting, infraRef, providerId := o.name, o.finalizer, o.deleting, o.infraRef, o.providerId;
      ready, addresses, conditions, nodeUpdated := o.ready, o.addresses, o.conditions, o.nodeUpdated;
      failureReason, graceTime := o.failureReason, o.graceTime;
    }

    method MarkCondition(c: Condition, status: bool)
      modifies this`conditions
      ensures Value() == Mark(old(Value()), c, status)
    {
      conditions := conditions[c := status];
    }

    /** Lines 189-253. */
    method PrepareMachine(env: Env) returns (exit: Exit)
      modifies this
      ensures Leave(Value(), exit) == Prepare(old(Value()), env)
    {
      if !env.hasBootstrapData {
        if !env.controlPlaneMachine && !env.controlPlaneInitialized {
          MarkCondition(VMProvisioned, false);
          return Waits;
        }
        MarkCondition(VMProvisioned, false);
        return Waits;
      }
      if !env.externallyManaged {
        if !env.keysPersisted {
          return Requeues;
        }
        if !env.keysFetched {
          return Errors;
        }
      }
      if infraRef.None? {
        infraRef := env.clusterRef;
      }
      if env.infraClient.LookupError? {
        return Errors;
      }
      if env.infraClient.Missing? {
        return Requeues;
      }
      if !env.bootstrapSecretOk {
        MarkCondition(VMProvisioned, false);
        return Errors;
      }
      if !env.helperOk {
        return Errors;
      }
      return Completes;
    }

    /** Lines 307-313. */
    method DrainIfNeeded(env: Env) returns (retry: int, failed: bool)
      modifies this`graceTime
      ensures var call := Drain.DrainCall(old(graceTime), DrainEnv(env));
              graceTime == call.annotation && retry == call.retry && failed == call.failed
    {
      var helper := new Drain.Machine(graceTime);
      retry, failed := helper.DrainNodeIfNeeded(DrainEnv(env));
      graceTime := helper.annotation;
    }

    /** Lines 290-378, for a VMI that is ready. */
    method FinishMachine(env: Env) returns (exit: Exit)
      requires IsReady(env.vmi)
      modifies this
      ensures Leave(Value(), exit) == Finish(old(Value()), env)
    {
      var ipAddress := AddressOf(env.vmi);
      if ipAddress == "" {
        var known := MachineHasKnownInternalIP(addresses);
        if !known {
          ready := false;
        }
        return Requeues;
      }
      var retry, failed := DrainIfNeeded(env);
      if failed {
        return Errors;
      }
      if retry > 0 {
        return Requeues;
      }
      if ChecksBootstrap(env) && !IsTrue(Value(), BootstrapExecSucceeded) {
        if !env.bootstrapped {
          MarkCondition(BootstrapExecSucceeded, false);
          ready := false;
          return Requeues;
        }
        MarkCondition(BootstrapExecSucceeded, true);
      }
      addresses := [Address(HostName, name), Address(InternalIP, ipAddress),
                    Address(ExternalIP, ipAddress), Address(InternalDNS, name)];
      if providerId.None? || providerId.value == "" {
        providerId := Some(PROVIDER_PREFIX + name);
      }
      ready := HasReadyCondition(env.vmi);
      var migratable := FindLiveMigratable(env.vmi.value.conditions);
      if migratable.None? {
        return Requeues;
      }
      MarkCondition(VMLiveMigratable, migratable.value);
      return Completes;
    }

    /** Nothing latched is undone, the finalizer stays, and a VM is only created where none is seen. */
    method ReconcileNormal(env: Env) returns (exit: Exit, created: bool)
      modifies this
      ensures Normal(Value(), exit, created) == NormalResult(old(Value()), env)
      ensures MachineRuns.Progress(old(Value()), Value())
      ensures finalizer == old(finalizer) && deleting == old(deleting) && (created ==> env.vm.None?)
    {
      MachineRuns.NormalProgress(Value(), env);
      OrphanFreedom.NormalKeeps(Value(), env);
      created := false;
      exit := PrepareMachine(env);
      if exit.Completes? {
        exit, created := ReconcileVm(env);
      }
    }

    /** Lines 255-378. */
    method ReconcileVm(env: Env) returns (exit: Exit, created: bool)
      modifies this
      ensures Normal(Value(), exit, created) == VmResult(old(Value()), env)
    {
      created := false;
      var terminal, unknown := CheckTerminal(env.vm, env.vmi);
      if unknown {
        return Errors, false;
      }
      if terminal {
        failureReason := Some(UpdateMachineError);
      }
      if !terminal && env.vm.None? {
        ready := false;
        if !env.createOk {
          MarkCondition(VMProvisioned, false);
          return Errors, true;
        }
        return Requeues, true;
      }
      var isReady := HasReadyCondition(env.vmi);
      if isReady {
        MarkCondition(VMProvisioned, true);
      } else {
        MarkCondition(VMProvisioned, false);
        ready := false;
        return Requeues, false;
      }
      exit := FinishMachine(env);
    }

    method UpdateNodeProviderID(env: Env) returns (exit: Exit, panics: bool)
      modifies this`nodeUpdated
      ensures NodeUpdate(Value(), exit, panics) == NodeResult(old(Value()), env)
    {
      if nodeUpdated {
        return Completes, false;
      }
      if !env.workloadClient {
        return Requeues, false;
      }
      if env.node.NodeMissing? {
        return Requeues, false;
      }
      if env.node.NodeError? {
        return Errors, false;
      }
      if providerId.None? {
        return Errors, true;
      }
      if env.node.providerId == providerId.value {
        return Completes, false;
      }
      if !env.nodePatchOk {
        return Errors, false;
      }
      nodeUpdated := true;
      return Completes, false;
    }

    /** Machine.Delete: the VM is read once more, and a request sent if it is still there. */
    method DeleteVm(env: Env) returns (failed: bool, sent: bool)
      ensures sent <==> env.deleteOutcome.DeleteFailed? || env.deleteOutcome.Deleted?
      ensures failed <==> env.deleteOutcome.GetFailed? || env.deleteOutcome.DeleteFailed?
    {
      if env.deleteOutcome.AlreadyGone? {
        return false, false;
      }
      if env.deleteOutcome.GetFailed? {
        return true, false;
      }
      sent := true;
      failed := env.deleteOutcome.DeleteFailed?;
    }

    /**
      The finalizer goes only once no VM is seen, or it is found gone, or a request to delete it has gone
      through; otherwise nothing changes.
     */
    method ReconcileDelete(env: Env) returns (p: Pass)
      modifies this
      ensures p == DeleteResult(old(Value()), env) && Value() == p.o
      ensures p.patches ==> !finalizer
      ensures p.patches ==>
        env.vm.None? || env.deleteOutcome.AlreadyGone? || (p.deleteSent && env.deleteOutcome.Deleted?)
      ensures !p.patches ==> Value() == old(Value())
    {
      if !env.patchHelperOk {
        return Skip(Value(), Errors);
      }
      if env.infraClient.LookupError? {
        return Skip(Value(), Errors);
      }
      if env.infraClient.Missing? {
        return Skip(Value(), Requeues);
      }
      if !env.bootstrapSecretOk {
        return Skip(Value(), Errors);
      }
      if !env.helperOk {
        return Skip(Value(), Errors);
      }
      var sent := false;
      if env.vm.Some? {
        var failed;
        failed, sent := DeleteVm(env);
        if failed {
          return Skip(Value(), Errors).(deleteSent := sent);
        }
      }
      finalizer := false;
      MarkCondition(VMProvisioned, false);
      return Pass(Value(), Completes, true, false, sent, false);
    }

    /** A whole pass undoes nothing latched; it creates VMs only under a finalizer that stays. */
    method Reconcile(env: Env) returns (p: Pass)
      modifies this
      ensures p == PassResult(old(Value()), env) && Value() == p.o
      ensures MachineRuns.Progress(old(Value()), Value()) && deleting == old(deleting)
      ensures p.created ==> !deleting && old(finalizer) && finalizer && env.vm.None?
      ensures old(finalizer) && !finalizer ==>
        deleting && (env.vm.None? || env.deleteOutcome.AlreadyGone? || (p.deleteSent && env.deleteOutcome.Deleted?))
    {
      MachineRuns.ResultProgress(Value(), env);
      OrphanFreedom.PassFacts(Value(), env);
      if env.machine.LookupError? {
        return Skip(Value(), Errors);
      }
      if env.machine.Missing? {
        return Skip(Value(), Completes);
      }
      if deleting {
        p := ReconcileDelete(env);
        return;
      }
      if env.cluster.LookupError? {
        return Skip(Value(), Errors);
      }
      if env.cluster.Missing? {
        return Skip(Value(), Completes);
      }
      if !env.kubevirtClusterFound {
        return Skip(Value(), Completes);
      }
      if !env.patchHelperOk {
        return Skip(Value(), Errors);
      }
      if !finalizer {
        finalizer := true;
        return Pass(Value(), Completes, true, false, false, false);
      }
      if !env.infrastructureReady {
        MarkCondition(VMProvisioned, false);
        return Pass(Value(), Completes, true, false, false, false);
      }
      var exit, created := ReconcileNormal(env);
      if exit.Waits? || exit.Completes? {
        var exit', panics := UpdateNodeProviderID(env);
        return Pass(Value(), exit', true, created, false, panics);
      }
      return Pass(Value(), exit, true, created, false, false);
    }
  }
}
