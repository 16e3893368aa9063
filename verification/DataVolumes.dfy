/**
  Making the DataVolumes of a machine its own by prefixing their names, an alpha-renaming
  (cluster-api-provider-kubevirt/pkg/kubevirt/utils.go).
 */
module DataVolumes {
  import opened Common

  datatype Template = Template(name: string, spec: string)

  /** A volume of the VM; `pvc` and `dv` name a claim or a DataVolume, `secret` a cloud-init secret. */
  datatype Volume = Volume(name: string, pvc: Option<string>, dv: Option<string>, secret: Option<string>)

  function Prefixed(prefix: string, name: string): string {
    prefix + "-" + name
  }

  function Names(templates: seq<Template>): set<string> {
    set t | t in templates :: t.name
  }

  function PrefixTemplates(templates: seq<Template>, prefix: string): seq<Template> {
    seq(|templates|, i requires 0 <= i < |templates| => templates[i].(name := Prefixed(prefix, templates[i].name)))
  }

  /** A reference to a template follows it; any other reference stays. */
  function Follow(names: set<string>, r: string, prefix: string): string {
    if r in names then Prefixed(prefix, r) else r
  }

  /** Only the claim of a volume that has one is followed, otherwise its DataVolume. */
  function RenameVolume(names: set<string>, v: Volume, prefix: string): Volume {
    if v.pvc.Some? then v.(pvc := Some(Follow(names, v.pvc.value, prefix)))
    else if v.dv.Some? then v.(dv := Some(Follow(names, v.dv.value, prefix)))
    else v
  }

  function RenameVolumes(names: set<string>, volumes: seq<Volume>, prefix: string): seq<Volume> {
    seq(|volumes|, i requires 0 <= i < |volumes| => RenameVolume(names, volumes[i], prefix))
  }

  // ------------------------------------------------------------------ the code, in place

  class VirtualMachine {
    const templates: array<Template>
    const volumes: array<Volume>

    constructor (templates: array<Template>, volumes: array<Volume>)
      ensures this.templates == templates && this.volumes == volumes
    {
      this.templates := templates;
      this.volumes := volumes;
    }
  }

  /** The first loop: rename the templates and remember what became of each name. */
  method PrefixNames(vm: VirtualMachine, prefix: string) returns (dvNameMap: map<string, string>)
    modifies vm.templates
    ensures vm.templates[..] == PrefixTemplates(old(vm.templates[..]), prefix)
    ensures dvNameMap.Keys == Names(old(vm.templates[..]))
    ensures forall n :: n in dvNameMap ==> dvNameMap[n] == Prefixed(prefix, n)
  {
    ghost var before := vm.templates[..];
    dvNameMap := map[];
    var i := 0;
    while i < vm.templates.Length
      invariant 0 <= i <= vm.templates.Length
      invariant forall k :: 0 <= k < i ==> vm.templates[k] == before[k].(name := Prefixed(prefix, before[k].name))
      invariant forall k :: i <= k < vm.templates.Length ==> vm.templates[k] == before[k]
      invariant dvNameMap.Keys == Names(before[..i])
      invariant forall n :: n in dvNameMap ==> dvNameMap[n] == Prefixed(prefix, n)
    {
      var t := vm.templates[i];
      dvNameMap := dvNameMap[t.name := Prefixed(prefix, t.name)];
      vm.templates[i] := t.(name := Prefixed(prefix, t.name));
      assert before[..i + 1] == before[..i] + [t];
      i := i + 1;
    }
    assert before[..i] == before;
  }

  method PrefixDataVolumeTemplates(vm: VirtualMachine, prefix: string)
    modifies vm.templates, vm.volumes
    ensures vm.templates[..] == PrefixTemplates(old(vm.templates[..]), prefix)
    ensures vm.volumes[..] == RenameVolumes(Names(old(vm.templates[..])), old(vm.volumes[..]), prefix)
  {
    if vm.templates.Length == 0 {
      return;
    }
    ghost var before, volumesBefore := vm.templates[..], vm.volumes[..];
    var dvNameMap := PrefixNames(vm, prefix);
    assert vm.templates[..] == PrefixTemplates(before, prefix);
    var i := 0;
    while i < vm.volumes.Length
      invariant 0 <= i <= vm.volumes.Length
      invariant vm.templates[..] == PrefixTemplates(before, prefix)
      invariant forall k :: 0 <= k < i ==> vm.volumes[k] == RenameVolume(Names(before), volumesBefore[k], prefix)
      invariant forall k :: i <= k < vm.volumes.Length ==> vm.volumes[k] == volumesBefore[k]
    {
      var volume := vm.volumes[i];
      if volume.pvc.Some? {
        if volume.pvc.value in dvNameMap {
          vm.volumes[i] := volume.(pvc := Some(dvNameMap[volume.pvc.value]));
        }
      } else if volume.dv.Some? {
        if volume.dv.value in dvNameMap {
          vm.volumes[i] := volume.(dv := Some(dvNameMap[volume.dv.value]));
        }
      }
      i := i + 1;
    }
  }

  /** The VM template of a KubevirtMachine. */
  class KubevirtMachine {
    const name: string
    const dataSecretName: string
    const templates: array<Template>
    const volumes: array<Volume>

    constructor (name: string, dataSecretName: string, templates: array<Template>, volumes: array<Volume>)
      ensures this.name == name && this.dataSecretName == dataSecretName
      ensures this.templates == templates && this.volumes == volumes
    {
      this.name, this.dataSecretName, this.templates, this.volumes := name, dataSecretName, templates, volumes;
    }
  }

  function CloudInitVolume(dataSecretName: string): Volume {
    Volume("cloudinitvolume", None, None, Some(dataSecretName + "-userdata"))
  }

  /**
    newVirtualMachineFromKubevirtMachine with buildVirtualMachineInstanceTemplate: everything that is renamed
    or appended to is a fresh copy, so the KubevirtMachine stays as it is.
   */
  method NewVirtualMachine(km: KubevirtMachine) returns (vm: VirtualMachine)
    ensures fresh(vm) && fresh(vm.templates) && fresh(vm.volumes)
    ensures vm.templates[..] == PrefixTemplates(km.templates[..], km.name)
    ensures vm.volumes[..] ==
      RenameVolumes(Names(km.templates[..]), km.volumes[..] + [CloudInitVolume(km.dataSecretName)], km.name)
    ensures vm.volumes.Length == km.volumes.Length + 1
    ensures vm.volumes[km.volumes.Length] ==
      Volume("cloudinitvolume", None, None, Some(km.dataSecretName + "-userdata"))
  {
    var n := km.volumes.Length;
    var volumes := new Volume[n + 1](i requires 0 <= i <= n reads km.volumes =>
      if i < km.volumes.Length then km.volumes[i] else CloudInitVolume(km.dataSecretName));
    var templates := new Template[km.templates.Length](i requires 0 <= i < km.templates.Length reads km.templates =>
      km.templates[i]);
    assert volumes[..] == km.volumes[..] + [CloudInitVolume(km.dataSecretName)];
    assert templates[..] == km.templates[..];
    vm := new VirtualMachine(templates, volumes);
    PrefixDataVolumeTemplates(vm, km.name);
  }

  /** Building twice gives the same VM twice: nothing is prefixed a second time. */
  method RebuildsTheSame(km: KubevirtMachine) returns (first: VirtualMachine, second: VirtualMachine)
    ensures first.templates[..] == second.templates[..] && first.volumes[..] == second.volumes[..]
    ensures second.templates[..] == PrefixTemplates(km.templates[..], km.name)
  {
    first := NewVirtualMachine(km);
    second := NewVirtualMachine(km);
  }

  // ------------------------------------------------------------------ what a volume resolves to

  /** The templates a reference resolves to, by position. */
  function Targets(templates: seq<Template>, r: Option<string>): set<int> {
    if r.None? then {} else set i | 0 <= i < |templates| && templates[i].name == r.value
  }

  /** A volume resolves, through its claim and through its DataVolume, to these templates. */
  function Resolves(templates: seq<Template>, v: Volume): (set<int>, set<int>) {
    (Targets(templates, v.pvc), Targets(templates, v.dv))
  }

  lemma PrefixedInjective(prefix: string, a: string, b: string)
    ensures Prefixed(prefix, a) == Prefixed(prefix, b) <==> a == b
    ensures Prefixed(prefix, a) != a
  {
    assert Prefixed(prefix, a)[|prefix| + 1..] == a;
    assert Prefixed(prefix, b)[|prefix| + 1..] == b;
  }

  lemma NamesAt(templates: seq<Template>, r: string)
    ensures r in Names(templates) <==> Targets(templates, Some(r)) != {}
  {
    if r in Names(templates) {
      var t :| t in templates && t.name == r;
      var i :| 0 <= i < |templates| && templates[i] == t;
      assert i in Targets(templates, Some(r));
    }
    if Targets(templates, Some(r)) != {} {
      var i :| i in Targets(templates, Some(r));
      assert templates[i] in templates;
    }
  }

  /** A reference that follows its template still resolves to it. */
  lemma FollowedResolves(templates: seq<Template>, r: string, prefix: string)
    ensures Targets(PrefixTemplates(templates, prefix), Some(Prefixed(prefix, r))) == Targets(templates, Some(r))
  {
    forall i | 0 <= i < |templates|
      ensures PrefixTemplates(templates, prefix)[i].name == Prefixed(prefix, r) <==> templates[i].name == r
    {
      PrefixedInjective(prefix, templates[i].name, r);
    }
  }

  /** A reference that stays resolves as before exactly when it never meets a template, old or new. */
  lemma StayingResolves(templates: seq<Template>, r: string, prefix: string)
    ensures Targets(PrefixTemplates(templates, prefix), Some(r)) == Targets(templates, Some(r))
       <==> r !in Names(templates) && r !in Names(PrefixTemplates(templates, prefix))
  {
    NamesAt(templates, r);
    NamesAt(PrefixTemplates(templates, prefix), r);
    if r in Names(templates) {
      var i :| i in Targets(templates, Some(r));
      PrefixedInjective(prefix, r, r);
      assert i !in Targets(PrefixTemplates(templates, prefix), Some(r));
    }
  }

  /** The reference is a template's, or captures no new name. */
  predicate NotCaptured(templates: seq<Template>, r: string, prefix: string) {
    r in Names(templates) || r !in Names(PrefixTemplates(templates, prefix))
  }

  /**
    Each volume resolves to the same templates before and after the renaming exactly when the reference that
    is followed does not name an outside claim equal to a new name, and the volume has no second reference
    that meets a template (a volume has one source, so there is none).
   */
  lemma RenamingPreservesResolution(templates: seq<Template>, v: Volume, prefix: string)
    ensures Resolves(PrefixTemplates(templates, prefix), RenameVolume(Names(templates), v, prefix))
            == Resolves(templates, v)
       <==> && (v.pvc.Some? ==> NotCaptured(templates, v.pvc.value, prefix))
            && (v.dv.Some? && v.pvc.None? ==> NotCaptured(templates, v.dv.value, prefix))
            && (v.dv.Some? && v.pvc.Some? ==>
                  v.dv.value !in Names(templates) && v.dv.value !in Names(PrefixTemplates(templates, prefix)))
  {
    if v.pvc.Some? {
      FollowedResolves(templates, v.pvc.value, prefix);
      StayingResolves(templates, v.pvc.value, prefix);
    }
    if v.dv.Some? {
      FollowedResolves(templates, v.dv.value, prefix);
      StayingResolves(templates, v.dv.value, prefix);
    }
  }

  /** Nothing but the names of templates and the references that are followed changes, and nothing moves. */
  lemma OnlyNamesChange(templates: seq<Template>, volumes: seq<Volume>, prefix: string, i: nat)
    ensures |PrefixTemplates(templates, prefix)| == |templates|
    ensures |RenameVolumes(Names(templates), volumes, prefix)| == |volumes|
    ensures i < |templates| ==>
      && PrefixTemplates(templates, prefix)[i].spec == templates[i].spec
      && PrefixTemplates(templates, prefix)[i].name == prefix + "-" + templates[i].name
    ensures i < |volumes| ==>
      var v, v' := volumes[i], RenameVolumes(Names(templates), volumes, prefix)[i];
      && v'.name == v.name && v'.secret == v.secret
      && (v'.pvc != v.pvc ==> v.pvc.Some? && v.pvc.value in Names(templates))
      && (v'.pvc != v.pvc ==> v'.pvc == Some(prefix + "-" + v.pvc.value))
      && (v'.dv != v.dv ==> v.dv.Some? && v.dv.value in Names(templates))
      && (v'.dv != v.dv ==> v'.dv == Some(prefix + "-" + v.dv.value))
  {
  }

  // ------------------------------------------------------------------ names of different machines

  predicate StartsWith(s: string, start: string) {
    |start| <= |s| && s[..|start|] == start
  }

  /** Machine `b` is named like machine `a` with a suffix, and the templates make up for it. */
  predicate Overlaps(a: string, ta: string, b: string, tb: string) {
    StartsWith(b, a + "-") && ta == Prefixed(b[|a| + 1..], tb)
  }

  lemma LongerName(a: string, ta: string, b: string, tb: string)
    requires |a| < |b|
    ensures Prefixed(a, ta) == Prefixed(b, tb) <==> Overlaps(a, ta, b, tb)
  {
    var x, y := Prefixed(a, ta), Prefixed(b, tb);
    assert x[..|a| + 1] == a + "-" && x[|a| + 1..] == ta;
    assert y[..|a| + 1] == b[..|a| + 1] && y[|a| + 1..] == b[|a| + 1..] + "-" + tb;
    if Overlaps(a, ta, b, tb) {
      assert x == x[..|a| + 1] + x[|a| + 1..];
      assert y == y[..|a| + 1] + y[|a| + 1..];
    }
  }

  /** When two prefixed names are the same. */
  lemma SameName(a: string, ta: string, b: string, tb: string)
    ensures Prefixed(a, ta) == Prefixed(b, tb) <==>
      (a == b && ta == tb) || Overlaps(a, ta, b, tb) || Overlaps(b, tb, a, ta)
  {
    if |a| < |b| {
      LongerName(a, ta, b, tb);
    } else if |b| < |a| {
      LongerName(b, tb, a, ta);
    } else {
      assert Prefixed(a, ta)[..|a|] == a && Prefixed(b, tb)[..|b|] == b;
      assert Prefixed(a, ta)[|a| + 1..] == ta && Prefixed(b, tb)[|b| + 1..] == tb;
    }
  }

  /**
    DataVolumes of two different machines, from named templates, can have the same name exactly when one
    machine's name is the other's followed by a dash and more.
   */
  lemma MachinesCollideIff(a: string, b: string)
    requires a != b
    ensures (exists ta, tb :: ta != "" && tb != "" && Prefixed(a, ta) == Prefixed(b, tb))
       <==> StartsWith(b, a + "-") || StartsWith(a, b + "-")
  {
    if StartsWith(b, a + "-") {
      SameName(a, Prefixed(b[|a| + 1..], "rootdisk"), b, "rootdisk");
    }
    if StartsWith(a, b + "-") {
      SameName(a, "rootdisk", b, Prefixed(a[|b| + 1..], "rootdisk"));
    }
    if ta, tb :| ta != "" && tb != "" && Prefixed(a, ta) == Prefixed(b, tb) {
      SameName(a, ta, b, tb);
    }
  }

  /** So machines whose names have the same length never share a DataVolume name. */
  lemma EqualLengthDisjoint(a: string, b: string, ta: seq<Template>, tb: seq<Template>)
    requires a != b && |a| == |b|
    ensures Names(PrefixTemplates(ta, a)) !! Names(PrefixTemplates(tb, b))
  {
    forall n | n in Names(PrefixTemplates(ta, a)) && n in Names(PrefixTemplates(tb, b)) ensures false {
      NamesAt(PrefixTemplates(ta, a), n);
      NamesAt(PrefixTemplates(tb, b), n);
      var i :| i in Targets(PrefixTemplates(ta, a), Some(n));
      var j :| j in Targets(PrefixTemplates(tb, b), Some(n));
      SameName(a, ta[i].name, b, tb[j].name);
    }
  }
}
