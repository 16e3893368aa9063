/**
  One reconciliation pass over a KubevirtMachine
  (cluster-api-provider-kubevirt/controllers/kubevirtmachine_controller.go and the read-only parts of
  pkg/kubevirt/machine.go).

  A pass reads the persisted object, meets an environment (the outcomes of everything it asks for), edits
  its copy of the object and finally patches it back.
 */
module MachineController {
  import opened Common
  import Drain

  const SECOND: int := Drain.SECOND

  // ------------------------------------------------------------------ the object

  datatype AddressType = HostName | InternalIP | ExternalIP | InternalDNS

  datatype Address = Address(kind: AddressType, address: string)

  datatype Condition = VMProvisioned | BootstrapExecSucceeded | VMLiveMigratable

  datatype Failure = UpdateMachineError

  datatype Ref = Ref(namespace: string, name: string)

  datatype Object = Object(
    name: string,
    finalizer: bool,
    deleting: bool,
    infraRef: Option<Ref>,
    providerId: Option<string>,
    ready: bool,
    addresses: seq<Address>,
    conditions: map<Condition, bool>,
    nodeUpdated: bool,
    failureReason: Option<Failure>,
    graceTime: Option<Drain.Stamp>)

  function Mark(o: Object, c: Condition, status: bool): Object {
    o.(conditions := o.conditions[c := status])
  }

  predicate IsTrue(o: Object, c: Condition) {
    c in o.conditions && o.conditions[c]
  }

  // ------------------------------------------------------------------ what a pass meets

  datatype Lookup = LookupError | Missing | Found

  datatype RunStrategy = Always | Manual | Halted | Once | RerunOnFailure | OtherStrategy

  /** `runStrategy` is None when it cannot be determined. */
  datatype Vm = Vm(terminalLabel: bool, runStrategy: Option<RunStrategy>)

  datatype Phase = Running | Succeeded | Failed | OtherPhase

  datatype VmiConditionType = VmiReady | VmiMigratable | VmiOther

  datatype VmiCondition = VmiCondition(kind: VmiConditionType, status: bool)

  datatype Vmi = Vmi(
    drain: Drain.Vmi,
    phase: Phase,
    terminalLabel: bool,
    conditions: seq<VmiCondition>,
    interfaces: seq<string>)   // the IP of each interface

  datatype NodeLookup = NodeError | NodeMissing | Node(providerId: string)

  datatype DeleteOutcome = GetFailed | AlreadyGone | DeleteFailed | Deleted

  datatype Env = Env(
    machine: Lookup,
    cluster: Lookup,
    kubevirtClusterFound: bool,
    patchHelperOk: bool,
    infrastructureReady: bool,
    hasBootstrapData: bool,
    controlPlaneMachine: bool,
    controlPlaneInitialized: bool,
    externallyManaged: bool,
    keysPersisted: bool,
    keysFetched: bool,
    clusterRef: Option<Ref>,
    infraClient: Lookup,          // error, nil client, or a client
    bootstrapSecretOk: bool,
    helperOk: bool,               // the reads of NewMachine
    vm: Option<Vm>,
    vmi: Option<Vmi>,
    createOk: bool,
    drainEnv: Drain.Env,
    sshInjected: bool,
    bootstrapped: bool,
    workloadClient: bool,
    node: NodeLookup,
    nodePatchOk: bool,
    deleteOutcome: DeleteOutcome)

  /** Bootstrapping can only be checked with keys that were injected into the guest. */
  predicate ChecksBootstrap(env: Env) {
    !env.externallyManaged && env.sshInjected
  }

  /** The drain code works on the VMI the pass has read. */
  function DrainEnv(env: Env): Drain.Env {
    env.drainEnv.(vmi := if env.vmi.Some? then Some(env.vmi.value.drain) else None)
  }

  // ------------------------------------------------------------------ read-only questions about the VM

  predicate HasCondition(vmi: Option<Vmi>, kind: VmiConditionType) {
    vmi.Some? && exists i :: 0 <= i < |vmi.value.conditions| && vmi.value.conditions[i] == VmiCondition(kind, true)
  }

  predicate IsReady(vmi: Option<Vmi>) {
    HasCondition(vmi, VmiReady)
  }

  function AddressOf(vmi: Option<Vmi>): string {
    if vmi.Some? && |vmi.value.interfaces| > 0 then vmi.value.interfaces[0] else ""
  }

  predicate IsFinal(p: Phase) {
    p.Succeeded? || p.Failed?
  }

  /** The first live-migratable condition decides; None if there is none. */
  function LiveMigratable(conditions: seq<VmiCondition>): Option<bool> {
    if conditions == [] then None
    else if conditions[0].kind.VmiMigratable? then Some(conditions[0].status)
    else LiveMigratable(conditions[1..])
  }

  /** IsTerminal: None for an error. */
  function IsTerminal(vm: Option<Vm>, vmi: Option<Vmi>): Option<bool> {
    if vm.None? || vmi.None? then Some(false)
    else if !IsFinal(vmi.value.phase) && !HasCondition(vmi, VmiMigratable) && vmi.value.drain.evacuationNode != ""
    then Some(true)
    else if vm.value.terminalLabel || vmi.value.terminalLabel then Some(true)
    else match vm.value.runStrategy
      case None => None
      case Some(Halted) | Some(Once) => Some(IsFinal(vmi.value.phase))
      case Some(RerunOnFailure) => Some(vmi.value.phase.Succeeded?)
      case Some(_) => Some(false)
  }

  predicate Finalized(p: Phase) {
    p == Succeeded || p == Failed
  }

  predicate Labelled(vm: Vm, vmi: Vmi) {
    vm.terminalLabel || vmi.terminalLabel
  }

  /** The VMI is asked to leave its node and can neither migrate nor has ended. */
  predicate Evicted(vmi: Vmi) {
    && vmi.drain.evacuationNode != "" && !Finalized(vmi.phase)
    && forall i :: 0 <= i < |vmi.conditions| ==> vmi.conditions[i] != VmiCondition(VmiMigratable, true)
  }

  /** The run strategy will not bring the VMI back. */
  predicate NotRerun(vm: Vm, vmi: Vmi) {
    || (vm.runStrategy in {Some(Halted), Some(Once)} && Finalized(vmi.phase))
    || (vm.runStrategy == Some(RerunOnFailure) && vmi.phase == Succeeded)
  }

  /**
    A VM and its VMI are terminal exactly when the VMI is evicted without a way out, one of them carries the
    terminal label, or the run strategy gives up on it. It cannot be told exactly when the run strategy is
    unknown and none of the other reasons applies.
   */
  lemma IsTerminalIff(vm: Option<Vm>, vmi: Option<Vmi>)
    ensures IsTerminal(vm, vmi) == Some(true) <==>
      vm.Some? && vmi.Some? &&
      (Evicted(vmi.value) || Labelled(vm.value, vmi.value) || NotRerun(vm.value, vmi.value))
    ensures IsTerminal(vm, vmi) == None <==>
      vm.Some? && vmi.Some? && vm.value.runStrategy.None? && !Evicted(vmi.value) && !Labelled(vm.value, vmi.value)
  {
  }

  /** Machine.IsTerminal, with its early returns. */
  method CheckTerminal(vm: Option<Vm>, vmi: Option<Vmi>) returns (terminal: bool, failed: bool)
    ensures IsTerminal(vm, vmi) == if failed then None else Some(terminal)
    ensures terminal <==>
      vm.Some? && vmi.Some? &&
      (Evicted(vmi.value) || Labelled(vm.value, vmi.value) || NotRerun(vm.value, vmi.value))
  {
    IsTerminalIff(vm, vmi);
    if vm.None? || vmi.None? {
      return false, false;
    }
    if !IsFinal(vmi.value.phase) && !HasCondition(vmi, VmiMigratable) && vmi.value.drain.evacuationNode != "" {
      return true, false;
    }
    if vm.value.terminalLabel {
      return true, false;
    }
    if vmi.value.terminalLabel {
      return true, false;
    }
    match vm.value.runStrategy {
      case None => return false, true;
      case Some(Always) => return false, false;
      case Some(Manual) => return false, false;
      case Some(Halted) => return IsFinal(vmi.value.phase), false;
      case Some(Once) => return IsFinal(vmi.value.phase), false;
      case Some(RerunOnFailure) => return vmi.value.phase.Succeeded?, false;
      case Some(OtherStrategy) => return false, false;
    }
  }

  predicate KnowsInternalIP(addresses: seq<Address>) {
    exists i :: 0 <= i < |addresses| && addresses[i].kind.InternalIP? && addresses[i].address != ""
  }

  /** machineHasKnownInternalIP, a search through the recorded addresses. */
  method MachineHasKnownInternalIP(addresses: seq<Address>) returns (known: bool)
    ensures known <==> KnowsInternalIP(addresses)
    ensures known <==> exists a :: a in addresses && a.kind == InternalIP && a.address != ""
  {
    for i := 0 to |addresses|
      invariant forall j :: 0 <= j < i ==> !(addresses[j].kind.InternalIP? && addresses[j].address != "")
    {
      if addresses[i].kind.InternalIP? && addresses[i].address != "" {
        return true;
      }
    }
    return false;
  }

  /** hasReadyCondition, a search through the VMI's conditions. */
  method HasReadyCondition(vmi: Option<Vmi>) returns (ready: bool)
    ensures ready <==> IsReady(vmi)
    ensures ready <==>
      && vmi.Some?
      && exists i :: 0 <= i < |vmi.value.conditions| && vmi.value.conditions[i] == VmiCondition(VmiReady, true)
  {
    if vmi.None? {
      return false;
    }
    var conditions := vmi.value.conditions;
    for i := 0 to |conditions|
      invariant forall j :: 0 <= j < i ==> conditions[j] != VmiCondition(VmiReady, true)
    {
      if conditions[i].kind.VmiReady? && conditions[i].status {
        return true;
      }
    }
    return false;
  }

  /** Position `i` holds the first live-migratable condition. */
  predicate FirstMigratable(conditions: seq<VmiCondition>, i: int) {
    && 0 <= i < |conditions| && conditions[i].kind.VmiMigratable?
    && forall j :: 0 <= j < i ==> !conditions[j].kind.VmiMigratable?
  }

  /** IsLiveMigratable's search. */
  method FindLiveMigratable(conditions: seq<VmiCondition>) returns (found: Option<bool>)
    ensures found == LiveMigratable(conditions)
    ensures found.None? <==> forall i :: 0 <= i < |conditions| ==> !conditions[i].kind.VmiMigratable?
    ensures found.Some? ==> exists i :: FirstMigratable(conditions, i) && found.value == conditions[i].status
  {
    for i := 0 to |conditions|
      invariant LiveMigratable(conditions) == LiveMigratable(conditions[i..])
      invariant forall j :: 0 <= j < i ==> !conditions[j].kind.VmiMigratable?
    {
      if conditions[i].kind.VmiMigratable? {
        assert FirstMigratable(conditions, i);
        return Some(conditions[i].status);
      }
      assert conditions[i..][1..] == conditions[i + 1..];
    }
    return None;
  }

  const PROVIDER_PREFIX: string := "kubevirt://"

  function AddressesFor(name: string, ip: string): seq<Address> {
    [Address(HostName, name), Address(InternalIP, ip), Address(ExternalIP, ip), Address(InternalDNS, name)]
  }

  // ------------------------------------------------------------------ the passes, as functions

  /** Where reconcileNormal left off; the two ways of waiting for bootstrap data look like completion. */
  datatype Exit = Waits | Requeues | Errors | Completes

  /** `created`: a VM create request was sent. */
  datatype Normal = Normal(o: Object, exit: Exit, created: bool)

  function Leave(o: Object, exit: Exit): Normal {
    Normal(o, exit, false)
  }

  predicate NoProviderId(o: Object) {
    o.providerId.None? || o.providerId.value == ""
  }

  /** The pass has an infra cluster client and its bootstrap secret in place. */
  predicate Prepared(env: Env) {
    && (env.externallyManaged || (env.keysPersisted && env.keysFetched))
    && env.infraClient.Found? && env.bootstrapSecretOk && env.helperOk
  }

  /** reconcileNormal up to the point where the VM helper exists (lines 189-253). */
  function Prepare(o: Object, env: Env): Normal {
    if !env.hasBootstrapData then Leave(Mark(o, VMProvisioned, false), Waits)
    else if !env.externallyManaged && !env.keysPersisted then Leave(o, Requeues)
    else if !env.externallyManaged && !env.keysFetched then Leave(o, Errors)
    else
      var o1 := if o.infraRef.None? then o.(infraRef := env.clusterRef) else o;
      if env.infraClient.LookupError? then Leave(o1, Errors)
      else if env.infraClient.Missing? then Leave(o1, Requeues)
      else if !env.bootstrapSecretOk then Leave(Mark(o1, VMProvisioned, false), Errors)
      else Leave(o1, if env.helperOk then Completes else Errors)
  }

  predicate NotBootstrapped(o: Object, env: Env) {
    ChecksBootstrap(env) && !IsTrue(o, BootstrapExecSucceeded) && !env.bootstrapped
  }

  /** The object of a machine that has come all the way (lines 322-362). */
  function MadeReady(o: Object, env: Env, ip: string): Object {
    var o1 := if ChecksBootstrap(env) && !IsTrue(o, BootstrapExecSucceeded)
      then Mark(o, BootstrapExecSucceeded, true) else o;
    o1.(addresses := AddressesFor(o.name, ip),
        providerId := if NoProviderId(o) then Some(PROVIDER_PREFIX + o.name) else o.providerId,
        ready := true)
  }

  /** From a drained node, or one that needs no draining, on (lines 315-378). */
  function Conclude(o: Object, env: Env, ip: string): Normal {
    if NotBootstrapped(o, env) then Leave(Mark(o, BootstrapExecSucceeded, false).(ready := false), Requeues)
    else
      var migratable := if env.vmi.Some? then LiveMigratable(env.vmi.value.conditions) else None;
      if migratable.None? then Leave(MadeReady(o, env, ip), Requeues)
      else Leave(Mark(MadeReady(o, env, ip), VMLiveMigratable, migratable.value), Completes)
  }

  /** From a ready VMI on (lines 290-378). */
  function Finish(o: Object, env: Env): Normal {
    var ip := AddressOf(env.vmi);
    if ip == "" then Leave(if KnowsInternalIP(o.addresses) then o else o.(ready := false), Requeues)
    else
      var call := Drain.DrainCall(o.graceTime, DrainEnv(env));
      var o1 := o.(graceTime := call.annotation);
      if call.failed then Leave(o1, Errors)
      else if call.retry > 0 then Leave(o1, Requeues)
      else Conclude(o1, env, ip)
  }

  function NoteTerminal(o: Object, terminal: bool): Object {
    if terminal then o.(failureReason := Some(UpdateMachineError)) else o
  }

  /** reconcileNormal once the VM helper exists (lines 255-378). */
  function VmResult(o: Object, env: Env): Normal {
    var terminal := IsTerminal(env.vm, env.vmi);
    if terminal.None? then Leave(o, Errors)
    else
      var o1 := NoteTerminal(o, terminal.value);
      if !terminal.value && env.vm.None? then
        if env.createOk then Normal(o1.(ready := false), Requeues, true)
        else Normal(Mark(o1.(ready := false), VMProvisioned, false), Errors, true)
      else if !IsReady(env.vmi) then Leave(Mark(o1, VMProvisioned, false).(ready := false), Requeues)
      else Finish(Mark(o1, VMProvisioned, true), env)
  }

  /** reconcileNormal. */
  function NormalResult(o: Object, env: Env): Normal {
    var p := Prepare(o, env);
    if p.exit.Completes? then VmResult(p.o, env) else p
  }

  /** updateNodeProviderID; `panics` when it dereferences a nil provider id. */
  datatype NodeUpdate = NodeUpdate(o: Object, exit: Exit, panics: bool)

  function NodeResult(o: Object, env: Env): NodeUpdate {
    if o.nodeUpdated then NodeUpdate(o, Completes, false)
    else if !env.workloadClient || env.node.NodeMissing? then NodeUpdate(o, Requeues, false)
    else if env.node.NodeError? then NodeUpdate(o, Errors, false)
    else if o.providerId.None? then NodeUpdate(o, Errors, true)
    else if env.node.providerId == o.providerId.value then NodeUpdate(o, Completes, false)
    else if !env.nodePatchOk then NodeUpdate(o, Errors, false)
    else NodeUpdate(o.(nodeUpdated := true), Completes, false)
  }

  /**
    A whole pass, before its result is persisted. `patches`: the deferred patch is reached; `created` and
    `deleteSent`: a request to create or to delete the VM was sent.
   */
  datatype Pass = Pass(o: Object, exit: Exit, patches: bool, created: bool, deleteSent: bool, panics: bool)

  function Skip(o: Object, exit: Exit): Pass {
    Pass(o, exit, false, false, false, false)
  }

  function DeleteResult(o: Object, env: Env): Pass {
    if !env.patchHelperOk || env.infraClient.LookupError? then Skip(o, Errors)
    else if env.infraClient.Missing? then Skip(o, Requeues)
    else if !env.bootstrapSecretOk || !env.helperOk then Skip(o, Errors)
    else if env.vm.Some? && env.deleteOutcome.GetFailed? then Skip(o, Errors)
    else if env.vm.Some? && env.deleteOutcome.DeleteFailed? then Skip(o, Errors).(deleteSent := true)
    else Pass(Mark(o.(finalizer := false), VMProvisioned, false), Completes, true, false,
              env.vm.Some? && env.deleteOutcome.Deleted?, false)
  }

  function PassResult(o: Object, env: Env): Pass {
    if env.machine.LookupError? then Skip(o, Errors)
    else if env.machine.Missing? then Skip(o, Completes)
    else if o.deleting then DeleteResult(o, env)
    else if env.cluster.LookupError? then Skip(o, Errors)
    else if env.cluster.Missing? || !env.kubevirtClusterFound then Skip(o, Completes)
    else if !env.patchHelperOk then Skip(o, Errors)
    else if !o.finalizer then Skip(o.(finalizer := true), Completes).(patches := true)
    else if !env.infrastructureReady then Skip(Mark(o, VMProvisioned, false), Completes).(patches := true)
    else
      var n := NormalResult(o, env);
      if n.exit.Waits? || n.exit.Completes? then
        var u := NodeResult(n.o, env);
        Pass(u.o, u.exit, true, n.created, false, u.panics)
      else Pass(n.o, n.exit, true, n.created, false, false)
  }

  /** What is persisted after a pass: the drain code's annotation patches do not wait for the final patch. */
  function Persisted(o: Object, env: Env, patchOk: bool): Object {
    var p := PassResult(o, env);
    if p.patches && patchOk then p.o else o.(graceTime := p.o.graceTime)
  }
}
