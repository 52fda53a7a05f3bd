/**
 * The workload builder: modifications that change a Deployment in place, their
 * composition (`New`, `Apply`, `Noop`), the volume-claim lookup, the volume and
 * volume-mount constructors, and the readiness check.
 *
 * A Go `Modification` is a closure over `*appsv1.Deployment`. Here each builder is a
 * constructor of the `Modification` datatype; `Run` gives the Deployment value a
 * modification produces and `DeploymentObject.Modify` performs it in place.
 */
module StatefulSet {
  import opened Wrappers
  import opened KubeTypes
  import Sequences

  /** One change to a Deployment; each constructor stands for the builder of the same name. */
  datatype Modification =
    | Noop                                    // NOOP(): changes nothing
    | Apply(mods: seq<Modification>)          // runs `mods` in list order
    | WithName(name: string)
    | WithNamespace(namespace: string)
    | WithServiceName(serviceName: string)    // its body is commented out: changes nothing
    | WithLabels(labels: map<string, string>)
    | WithMatchLabels(matchLabels: map<string, string>)
    | WithOwnerReference(ownerRefs: seq<OwnerReference>)
    | WithReplicas(replicas: int)
    | WithRevisionHistoryLimit(revisionHistoryLimit: int)
    | WithPodManagementPolicyType(policyType: string)
    | WithSelector(selector: Option<LabelSelector>)
    | WithUpdateStrategyType(strategyType: string)
    | WithPodSpecTemplate(templateFunc: PodTemplateSpec -> PodTemplateSpec)
    | WithVolumeClaim(claimName: string, claimFunc: PersistentVolumeClaim -> PersistentVolumeClaim)
    | Custom(updateFunc: Deployment -> Deployment)  // any other closure, such as the ones given to GetAndUpdate

  /** The selector after `WithMatchLabels`: an existing one keeps its expressions, a missing one starts empty. */
  function SelectorWithMatchLabels(selector: Option<LabelSelector>, matchLabels: map<string, string>): LabelSelector
  {
    match selector
    case None => EmptySelector.(matchLabels := matchLabels)
    case Some(s) => s.(matchLabels := matchLabels)
  }

  /** The index of the first claim called `name`, or `NotFound`. */
  function ClaimIndex(name: string, claims: seq<PersistentVolumeClaim>): (i: int)
    ensures Sequences.NotFound <= i < |claims|
    ensures i == Sequences.NotFound <==> forall j :: 0 <= j < |claims| ==> claims[j].name != name
    ensures 0 <= i ==> claims[i].name == name && forall j :: 0 <= j < i ==> claims[j].name != name
  {
    Sequences.FirstIndex(claims, (c: PersistentVolumeClaim) => c.name == name)
  }

  /** The claim templates after `WithVolumeClaim(name, f)`: find-or-append by name, then apply `f` there. */
  function VolumeClaimUpdate(
    claims: seq<PersistentVolumeClaim>, name: string, f: PersistentVolumeClaim -> PersistentVolumeClaim)
    : (r: seq<PersistentVolumeClaim>)
    ensures |r| == |claims| || |r| == |claims| + 1
    ensures |r| == |claims| + 1 <==> forall j :: 0 <= j < |claims| ==> claims[j].name != name
    ensures forall j :: 0 <= j < |claims| && claims[j].name != name ==> r[j] == claims[j]
    ensures |r| == |claims| + 1 ==> r[|claims|] == f(EmptyClaim)
  {
    var i := ClaimIndex(name, claims);
    if i == Sequences.NotFound then claims + [f(EmptyClaim)] else claims[i := f(claims[i])]
  }

  /** No `Custom` closure anywhere inside `m`: `m` is built from the source's own builders. */
  predicate BuiltIn(m: Modification)
    decreases m
  {
    match m
    case Custom(_) => false
    case Apply(mods) => forall i :: 0 <= i < |mods| ==> BuiltIn(mods[i])
    case _ => true
  }

  /** The parts of a Deployment that no builder of the source writes: generation, annotations and status. */
  predicate SameObservedState(a: Deployment, b: Deployment)
  {
    a.status == b.status && a.meta.generation == b.meta.generation && a.meta.annotations == b.meta.annotations
  }

  /** The Deployment that modification `m` turns `d` into. */
  function Run(m: Modification, d: Deployment): (r: Deployment)
    ensures BuiltIn(m) ==> SameObservedState(r, d)
    decreases m
  {
    match m
    case Noop => d
    case Apply(mods) => RunAll(mods, d)
    case WithName(name) => d.(meta := d.meta.(name := name))
    case WithNamespace(namespace) => d.(meta := d.meta.(namespace := namespace))
    case WithServiceName(_) => d
    case WithLabels(labels) => d.(meta := d.meta.(labels := labels))
    case WithMatchLabels(matchLabels) =>
      d.(spec := d.spec.(selector := Some(SelectorWithMatchLabels(d.spec.selector, matchLabels))))
    case WithOwnerReference(ownerRefs) => d.(meta := d.meta.(ownerReferences := ownerRefs))
    case WithReplicas(replicas) => d.(spec := d.spec.(replicas := Some(replicas)))
    case WithRevisionHistoryLimit(limit) => d.(spec := d.spec.(revisionHistoryLimit := Some(limit)))
    case WithPodManagementPolicyType(policy) => d.(spec := d.spec.(podManagementPolicy := policy))
    case WithSelector(selector) => d.(spec := d.spec.(selector := selector))
    case WithUpdateStrategyType(t) => d.(spec := d.spec.(strategy := DeploymentStrategy(t, None)))
    case WithPodSpecTemplate(f) => d.(spec := d.spec.(template := f(d.spec.template)))
    case WithVolumeClaim(name, f) =>
      d.(spec := d.spec.(volumeClaimTemplates := VolumeClaimUpdate(d.spec.volumeClaimTemplates, name, f)))
    case Custom(f) => f(d)
  }

  /** The Deployment after running every modification of `mods` on `d`, first to last. */
  function RunAll(mods: seq<Modification>, d: Deployment): (r: Deployment)
    ensures mods == [] ==> r == d
    ensures (forall i :: 0 <= i < |mods| ==> BuiltIn(mods[i])) ==> SameObservedState(r, d)
    decreases mods
  {
    if mods == [] then d else Run(mods[|mods| - 1], RunAll(mods[..|mods| - 1], d))
  }

  /** Running `a` and then `b` is running their concatenation. */
  lemma {:induction false} RunAllAppend(a: seq<Modification>, b: seq<Modification>, d: Deployment)
    ensures RunAll(a + b, d) == RunAll(b, RunAll(a, d))
    decreases |b|
  {
    if b == [] {
      assert a + b == a;
    } else {
      var b' := b[..|b| - 1];
      assert (a + b)[..|a + b| - 1] == a + b';
      assert (a + b)[|a + b| - 1] == b[|b| - 1];
      RunAllAppend(a, b', d);
    }
  }

  /** A Deployment held by reference, as `*appsv1.Deployment` is; modifications change it in place. */
  class DeploymentObject {
    var meta: ObjectMeta
    var spec: DeploymentSpec
    var status: DeploymentStatus

    /** The Go struct value this object holds. */
    function Value(): Deployment
      reads this
    {
      Deployment(meta, spec, status)
    }

    constructor (d: Deployment)
      ensures Value() == d
    {
      meta, spec, status := d.meta, d.spec, d.status;
    }

    /** Calls the modification on this object: `m(dep)` in the source. */
    method Modify(m: Modification)
      modifies this
      ensures Value() == Run(m, old(Value()))
      decreases m, 1
    {
      match m
      case Noop =>
      case Apply(_) =>
        ModifyEach(m);
      case WithName(name) =>
        meta := meta.(name := name);
      case WithNamespace(namespace) =>
        meta := meta.(namespace := namespace);
      case WithServiceName(_) =>
      case WithLabels(labels) =>
        meta := meta.(labels := labels);
      case WithMatchLabels(matchLabels) =>
        var selector := if spec.selector == None then EmptySelector else spec.selector.value;
        spec := spec.(selector := Some(selector.(matchLabels := matchLabels)));
      case WithOwnerReference(ownerRefs) =>
        meta := meta.(ownerReferences := ownerRefs);
      case WithReplicas(replicas) =>
        spec := spec.(replicas := Some(replicas));
      case WithRevisionHistoryLimit(limit) =>
        spec := spec.(revisionHistoryLimit := Some(limit));
      case WithPodManagementPolicyType(policy) =>
        spec := spec.(podManagementPolicy := policy);
      case WithSelector(selector) =>
        spec := spec.(selector := selector);
      case WithUpdateStrategyType(t) =>
        spec := spec.(strategy := DeploymentStrategy(t, None));
      case WithPodSpecTemplate(f) =>
        spec := spec.(template := f(spec.template));
      case WithVolumeClaim(name, f) =>
        ModifyVolumeClaim(name, f);
      case Custom(f) =>
        var d := f(Value());
        meta, spec, status := d.meta, d.spec, d.status;
    }

    /** `WithVolumeClaim`: finds the claim by name, appending a zero claim when there is none, and runs `f` on it. */
    method ModifyVolumeClaim(name: string, f: PersistentVolumeClaim -> PersistentVolumeClaim)
      modifies this
      ensures meta == old(meta) && status == old(status)
      ensures spec == old(spec).(volumeClaimTemplates := VolumeClaimUpdate(old(spec.volumeClaimTemplates), name, f))
    {
      var idx := FindVolumeClaimIndexByName(name, spec.volumeClaimTemplates);
      if idx == Sequences.NotFound {
        spec := spec.(volumeClaimTemplates := spec.volumeClaimTemplates + [EmptyClaim]);
        idx := |spec.volumeClaimTemplates| - 1;
      }
      var claims := spec.volumeClaimTemplates;
      spec := spec.(volumeClaimTemplates := claims[idx := f(claims[idx])]);
    }

    /** The loop of a composite `Apply`: runs its modifications on the object one after another. */
    method ModifyEach(m: Modification)
      requires m.Apply?
      modifies this
      ensures Value() == RunAll(m.mods, old(Value()))
      decreases m, 0
    {
      var mods := m.mods;
      for i := 0 to |mods|
        invariant Value() == RunAll(mods[..i], old(Value()))
      {
        Modify(mods[i]);
        assert mods[..i + 1][..i] == mods[..i];
      }
      assert mods[..|mods|] == mods;
    }
  }

  /** Builds a Deployment by running `mods`, in order, on the zero Deployment. */
  method New(mods: seq<Modification>) returns (d: Deployment)
    ensures d == RunAll(mods, EmptyDeployment)
  {
    var ocb := new DeploymentObject(EmptyDeployment);
    for i := 0 to |mods|
      invariant ocb.Value() == RunAll(mods[..i], EmptyDeployment)
    {
      ocb.Modify(mods[i]);
      assert mods[..i + 1][..i] == mods[..i];
    }
    assert mods[..|mods|] == mods;
    d := ocb.Value();
  }

  /** The index of the first claim template called `name`, or `NotFound` (-1). */
  method FindVolumeClaimIndexByName(name: string, pvcs: seq<PersistentVolumeClaim>) returns (idx: int)
    ensures Sequences.NotFound <= idx < |pvcs|
    ensures idx == Sequences.NotFound <==> forall j :: 0 <= j < |pvcs| ==> pvcs[j].name != name
    ensures 0 <= idx ==> pvcs[idx].name == name && forall j :: 0 <= j < idx ==> pvcs[j].name != name
    ensures idx == ClaimIndex(name, pvcs)
  {
    for i := 0 to |pvcs|
      invariant forall j :: 0 <= j < i ==> pvcs[j].name != name
    {
      if pvcs[i].name == name {
        return i;
      }
    }
    return Sequences.NotFound;
  }

  /** Whether some mount in `mounts` is called `volumeName`. */
  method VolumeMountWithNameExists(mounts: seq<VolumeMount>, volumeName: string) returns (found: bool)
    ensures found <==> exists i :: 0 <= i < |mounts| && mounts[i].name == volumeName
  {
    for i := 0 to |mounts|
      invariant forall j :: 0 <= j < i ==> mounts[j].name != volumeName
    {
      if mounts[i].name == volumeName {
        return true;
      }
    }
    return false;
  }

  /** The options `WithSubPath` and `WithReadOnly` of `CreateVolumeMount`. */
  datatype MountOption = WithSubPath(subPath: string) | WithReadOnly(readOnly: bool)

  function ApplyMountOption(m: VolumeMount, o: MountOption): VolumeMount
  {
    match o
    case WithSubPath(p) => m.(subPath := p)
    case WithReadOnly(r) => m.(readOnly := r)
  }

  /** The mount after applying `opts` to `m`, first to last. */
  function ApplyMountOptions(opts: seq<MountOption>, m: VolumeMount): VolumeMount
  {
    if opts == [] then m else ApplyMountOption(ApplyMountOptions(opts[..|opts| - 1], m), opts[|opts| - 1])
  }

  /** The sub-path the last `WithSubPath` option of `opts` sets, or `default` when there is none. */
  function LastSubPath(opts: seq<MountOption>, default: string): string
  {
    var k := Sequences.LastIndex(opts, (o: MountOption) => o.WithSubPath?);
    if k == Sequences.NotFound then default else opts[k].subPath
  }

  /** The flag the last `WithReadOnly` option of `opts` sets, or `default` when there is none. */
  function LastReadOnly(opts: seq<MountOption>, default: bool): bool
  {
    var k := Sequences.LastIndex(opts, (o: MountOption) => o.WithReadOnly?);
    if k == Sequences.NotFound then default else opts[k].readOnly
  }

  /** Options never change a mount's volume name or path, and for each attribute the last option setting it wins. */
  lemma {:induction false} MountOptionsLastWins(opts: seq<MountOption>, m: VolumeMount)
    ensures var r := ApplyMountOptions(opts, m);
      && r.name == m.name
      && r.mountPath == m.mountPath
      && r.subPath == LastSubPath(opts, m.subPath)
      && r.readOnly == LastReadOnly(opts, m.readOnly)
  {
    if opts != [] {
      MountOptionsLastWins(opts[..|opts| - 1], m);
    }
  }

  /** A mount of volume `name` at `path`, with `options` applied in order. */
  method CreateVolumeMount(name: string, path: string, options: seq<MountOption>) returns (mount: VolumeMount)
    ensures mount == ApplyMountOptions(options, VolumeMount(name, path, "", false))
    ensures mount.name == name && mount.mountPath == path
    ensures mount.subPath == LastSubPath(options, "") && mount.readOnly == LastReadOnly(options, false)
  {
    mount := VolumeMount(name, path, "", false);
    for i := 0 to |options|
      invariant mount == ApplyMountOptions(options[..i], VolumeMount(name, path, "", false))
    {
      mount := ApplyMountOption(mount, options[i]);
      assert options[..i + 1][..i] == options[..i];
    }
    assert options[..|options|] == options;
    MountOptionsLastWins(options, VolumeMount(name, path, "", false));
  }

  /** The option `WithSecretDefaultMode` of the volume constructors. */
  datatype VolumeOption = WithSecretDefaultMode(mode: Option<int>)

  /** Sets the secret's default mode, creating an empty secret source when the volume has none. */
  function ApplyVolumeOption(v: Volume, o: VolumeOption): Volume
  {
    var secret := if v.source.secret == None then SecretVolumeSource("", None) else v.source.secret.value;
    v.(source := v.source.(secret := Some(secret.(defaultMode := o.mode))))
  }

  /** The volume after applying `opts` to `v`, first to last. */
  function ApplyVolumeOptions(opts: seq<VolumeOption>, v: Volume): Volume
  {
    if opts == [] then v else ApplyVolumeOption(ApplyVolumeOptions(opts[..|opts| - 1], v), opts[|opts| - 1])
  }

  /**
   * Options only touch the secret source: the last option's mode wins, and a volume
   * without a secret gains one with an empty secret name.
   */
  lemma {:induction false} VolumeOptionsLastModeWins(opts: seq<VolumeOption>, v: Volume)
    ensures var r := ApplyVolumeOptions(opts, v);
      && r.name == v.name
      && r.source.configMap == v.source.configMap
      && r.source.emptyDir == v.source.emptyDir
      && (opts == [] ==> r == v)
      && (opts != [] ==>
            && r.source.secret.Some?
            && r.source.secret.value.defaultMode == opts[|opts| - 1].mode
            && r.source.secret.value.secretName == (if v.source.secret.Some? then v.source.secret.value.secretName else ""))
  {
    if opts != [] {
      VolumeOptionsLastModeWins(opts[..|opts| - 1], v);
    }
  }

  /** The file mode a secret volume gets unless an option overrides it (0640). */
  const SecretDefaultMode: int := 416

  /** Exactly one source of the volume is set. */
  predicate SingleSource(v: Volume)
  {
    (if v.source.configMap.Some? then 1 else 0) +
    (if v.source.secret.Some? then 1 else 0) +
    (if v.source.emptyDir.Some? then 1 else 0) == 1
  }

  /** Loops over `options`, applying each to `volume` in order. */
  method ApplyVolumeOptionsInPlace(volume: Volume, options: seq<VolumeOption>) returns (r: Volume)
    ensures r == ApplyVolumeOptions(options, volume)
  {
    r := volume;
    for i := 0 to |options|
      invariant r == ApplyVolumeOptions(options[..i], volume)
    {
      r := ApplyVolumeOption(r, options[i]);
      assert options[..i + 1][..i] == options[..i];
    }
    assert options[..|options|] == options;
  }

  /** A volume called `name` backed by config map `sourceName`, with `options` applied in order. */
  method CreateVolumeFromConfigMap(name: string, sourceName: string, options: seq<VolumeOption>) returns (v: Volume)
    ensures v == ApplyVolumeOptions(options, Volume(name, NoVolumeSource.(configMap := Some(ConfigMapVolumeSource(sourceName)))))
    ensures options == [] ==> SingleSource(v) && v.source.configMap == Some(ConfigMapVolumeSource(sourceName))
  {
    v := Volume(name, NoVolumeSource.(configMap := Some(ConfigMapVolumeSource(sourceName))));
    v := ApplyVolumeOptionsInPlace(v, options);
  }

  /** A volume called `name` backed by secret `sourceName` with mode 0640, with `options` applied in order. */
  method CreateVolumeFromSecret(name: string, sourceName: string, options: seq<VolumeOption>) returns (v: Volume)
    ensures v == ApplyVolumeOptions(options,
      Volume(name, NoVolumeSource.(secret := Some(SecretVolumeSource(sourceName, Some(SecretDefaultMode))))))
    ensures SingleSource(v) && v.source.secret.Some? && v.source.secret.value.secretName == sourceName
  {
    var base := Volume(name, NoVolumeSource.(secret := Some(SecretVolumeSource(sourceName, Some(SecretDefaultMode)))));
    v := ApplyVolumeOptionsInPlace(base, options);
    VolumeOptionsLastModeWins(options, base);
  }

  /** A volume called `name` backed by an empty directory of default medium and size. */
  function CreateVolumeFromEmptyDir(name: string): (v: Volume)
    ensures v.name == name && SingleSource(v) && v.source.emptyDir.Some?
  {
    Volume(name, NoVolumeSource.(emptyDir := Some(DefaultEmptyDir)))
  }

  /** The workload has all `expectedReplicas` updated and ready, and its status reflects its latest generation. */
  predicate IsReady(sts: Deployment, expectedReplicas: int)
    ensures IsReady(sts, expectedReplicas) <==>
      sts.status.updatedReplicas == sts.status.readyReplicas == expectedReplicas
      && sts.meta.generation == sts.status.observedGeneration
  {
    var allUpdated := expectedReplicas == sts.status.updatedReplicas;
    var allReady := expectedReplicas == sts.status.readyReplicas;
    var atExpectedGeneration := sts.meta.generation == sts.status.observedGeneration;
    allUpdated && allReady && atExpectedGeneration
  }
}
