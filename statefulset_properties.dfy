/**
 * What the workload builder promises about its modifications: composition order,
 * the effect of each setter, which field each one touches, commutation of setters on
 * different fields, the find-or-append behaviour of `WithVolumeClaim`, and readiness.
 */
module StatefulSetProperties {
  import opened Wrappers
  import opened KubeTypes
  import opened StatefulSet
  import Sequences

  /** The parts of a Deployment that a single builder writes. */
  datatype Field =
    | Name | Namespace | Labels | OwnerReferences | Replicas | RevisionHistoryLimit
    | PodManagementPolicy | Selector | Strategy | Template | VolumeClaims

  /** The builders that write exactly one field. */
  predicate SingleField(m: Modification)
  {
    || m.WithName? || m.WithNamespace? || m.WithLabels? || m.WithMatchLabels?
    || m.WithOwnerReference? || m.WithReplicas? || m.WithRevisionHistoryLimit?
    || m.WithPodManagementPolicyType? || m.WithSelector? || m.WithUpdateStrategyType?
    || m.WithPodSpecTemplate? || m.WithVolumeClaim?
  }

  /** The single-field builders that overwrite their field with their argument. */
  predicate IsSetter(m: Modification)
  {
    SingleField(m) && !m.WithPodSpecTemplate? && !m.WithVolumeClaim?
  }

  /** The field a single-field builder writes; `WithMatchLabels` writes the selector. */
  function FieldOf(m: Modification): Field
    requires SingleField(m)
  {
    match m
    case WithName(_) => Name
    case WithNamespace(_) => Namespace
    case WithLabels(_) => Labels
    case WithMatchLabels(_) => Selector
    case WithOwnerReference(_) => OwnerReferences
    case WithReplicas(_) => Replicas
    case WithRevisionHistoryLimit(_) => RevisionHistoryLimit
    case WithPodManagementPolicyType(_) => PodManagementPolicy
    case WithSelector(_) => Selector
    case WithUpdateStrategyType(_) => Strategy
    case WithPodSpecTemplate(_) => Template
    case WithVolumeClaim(_, _) => VolumeClaims
  }

  /** `d` with field `f` reset to its zero value: two Deployments agree outside `f` iff their erasures are equal. */
  function Erase(f: Field, d: Deployment): Deployment
  {
    match f
    case Name => d.(meta := d.meta.(name := ""))
    case Namespace => d.(meta := d.meta.(namespace := ""))
    case Labels => d.(meta := d.meta.(labels := map[]))
    case OwnerReferences => d.(meta := d.meta.(ownerReferences := []))
    case Replicas => d.(spec := d.spec.(replicas := None))
    case RevisionHistoryLimit => d.(spec := d.spec.(revisionHistoryLimit := None))
    case PodManagementPolicy => d.(spec := d.spec.(podManagementPolicy := ""))
    case Selector => d.(spec := d.spec.(selector := None))
    case Strategy => d.(spec := d.spec.(strategy := EmptyStrategy))
    case Template => d.(spec := d.spec.(template := EmptyPodTemplate))
    case VolumeClaims => d.(spec := d.spec.(volumeClaimTemplates := []))
  }

  // ---- Composition: New, Apply, NOOP ----

  /** `New` with no modifications is the zero Deployment; `NOOP`, an empty `Apply` and `WithServiceName` change nothing. */
  lemma IdentityModifications(d: Deployment, serviceName: string)
    ensures RunAll([], EmptyDeployment) == EmptyDeployment
    ensures Run(Noop, d) == d
    ensures Run(Apply([]), d) == d
    ensures Run(WithServiceName(serviceName), d) == d
  {
  }

  /** Running `m` first and then `mods` is running `[m] + mods`: the fold goes left to right. */
  lemma RunAllFirstThenRest(m: Modification, mods: seq<Modification>, d: Deployment)
    ensures RunAll([m] + mods, d) == RunAll(mods, Run(m, d))
  {
    RunAllAppend([m], mods, d);
    assert RunAll([m], d) == Run(m, RunAll([], d));
  }

  /** Nesting `Apply` does not matter: applying two composites is applying the concatenation. */
  lemma ApplyFlattens(a: seq<Modification>, b: seq<Modification>, d: Deployment)
    ensures Run(Apply([Apply(a), Apply(b)]), d) == Run(Apply(a + b), d)
  {
    var ab := [Apply(a), Apply(b)];
    assert ab[..|ab| - 1] == [Apply(a)] && [Apply(a)][..0] == [];
    assert RunAll([Apply(a)], d) == RunAll(a, d);
    assert RunAll(ab, d) == RunAll(b, RunAll(a, d));
    RunAllAppend(a, b, d);
  }

  // ---- What each setter writes ----

  /** Label setters replace the whole map; `WithMatchLabels` creates a selector when there is none and keeps its expressions otherwise. */
  lemma LabelSettersReplace(labels: map<string, string>, d: Deployment)
    ensures Run(WithLabels(labels), d).meta.labels == labels
    ensures Run(WithMatchLabels(labels), d).spec.selector.Some?
    ensures Run(WithMatchLabels(labels), d).spec.selector.value.matchLabels == labels
    ensures Run(WithMatchLabels(labels), d).spec.selector.value.matchExpressions
         == (if d.spec.selector.Some? then d.spec.selector.value.matchExpressions else [])
  {
  }

  /** `WithUpdateStrategyType` resets the whole strategy: rolling-update parameters are dropped. */
  lemma UpdateStrategyTypeResetsStrategy(t: string, d: Deployment)
    ensures Run(WithUpdateStrategyType(t), d).spec.strategy.strategyType == t
    ensures Run(WithUpdateStrategyType(t), d).spec.strategy.rollingUpdate == None
  {
  }

  /** A single-field builder changes nothing outside its field. */
  lemma ChangesOnlyItsField(m: Modification, d: Deployment)
    requires SingleField(m)
    ensures Erase(FieldOf(m), Run(m, d)) == Erase(FieldOf(m), d)
  {
  }

  /** Single-field builders on different fields commute. */
  lemma DisjointFieldsCommute(m1: Modification, m2: Modification, d: Deployment)
    requires SingleField(m1) && SingleField(m2) && FieldOf(m1) != FieldOf(m2)
    ensures Run(m2, Run(m1, d)) == Run(m1, Run(m2, d))
  {
    if m1.WithName? || m1.WithNamespace? || m1.WithLabels? || m1.WithOwnerReference? {
      MetaSetterCommutes(m1, m2, d);
    } else if m1.WithReplicas? || m1.WithRevisionHistoryLimit? || m1.WithPodManagementPolicyType? || m1.WithUpdateStrategyType? {
      ScalarSpecSetterCommutes(m1, m2, d);
    } else if m1.WithMatchLabels? || m1.WithSelector? {
      SelectorSetterCommutes(m1, m2, d);
    } else {
      TemplateOrClaimCommutes(m1, m2, d);
    }
  }

  // The three cases of `DisjointFieldsCommute`, split by the first builder's field.

  lemma MetaSetterCommutes(m1: Modification, m2: Modification, d: Deployment)
    requires m1.WithName? || m1.WithNamespace? || m1.WithLabels? || m1.WithOwnerReference?
    requires SingleField(m2) && FieldOf(m1) != FieldOf(m2)
    ensures Run(m2, Run(m1, d)) == Run(m1, Run(m2, d))
  {
  }

  lemma ScalarSpecSetterCommutes(m1: Modification, m2: Modification, d: Deployment)
    requires m1.WithReplicas? || m1.WithRevisionHistoryLimit? || m1.WithPodManagementPolicyType? || m1.WithUpdateStrategyType?
    requires SingleField(m2) && FieldOf(m1) != FieldOf(m2)
    ensures Run(m2, Run(m1, d)) == Run(m1, Run(m2, d))
  {
  }

  lemma SelectorSetterCommutes(m1: Modification, m2: Modification, d: Deployment)
    requires m1.WithMatchLabels? || m1.WithSelector?
    requires SingleField(m2) && FieldOf(m1) != FieldOf(m2)
    ensures Run(m2, Run(m1, d)) == Run(m1, Run(m2, d))
  {
  }

  lemma TemplateOrClaimCommutes(m1: Modification, m2: Modification, d: Deployment)
    requires m1.WithPodSpecTemplate? || m1.WithVolumeClaim?
    requires SingleField(m2) && FieldOf(m1) != FieldOf(m2)
    ensures Run(m2, Run(m1, d)) == Run(m1, Run(m2, d))
  {
  }

  /**
   * Of two setters of the same field, the later one wins, also inside `Apply`. The one
   * exception is `WithMatchLabels` after `WithSelector`: it keeps the selector's expressions.
   */
  lemma LaterSetterWins(m1: Modification, m2: Modification, d: Deployment)
    requires IsSetter(m1) && IsSetter(m2) && FieldOf(m1) == FieldOf(m2)
    requires m2.WithMatchLabels? ==> m1.WithMatchLabels?
    ensures Run(m2, Run(m1, d)) == Run(m2, d)
    ensures Run(Apply([m1, m2]), d) == Run(m2, d)
  {
    var ms := [m1, m2];
    assert ms[..|ms| - 1] == [m1] && [m1][..0] == [];
    assert RunAll([m1], d) == Run(m1, d);
  }

  /** Every setter is idempotent. */
  lemma SetterIdempotent(m: Modification, d: Deployment)
    requires IsSetter(m)
    ensures Run(m, Run(m, d)) == Run(m, d)
  {
    LaterSetterWins(m, m, d);
  }

  // ---- WithVolumeClaim ----

  /** A claim called `name` exists: the length is kept, `f` is applied to the first such claim, and no other claim changes. */
  lemma VolumeClaimPresent(
    claims: seq<PersistentVolumeClaim>, name: string, f: PersistentVolumeClaim -> PersistentVolumeClaim, i: int)
    requires 0 <= i < |claims| && claims[i].name == name
    requires forall j :: 0 <= j < i ==> claims[j].name != name
    ensures |VolumeClaimUpdate(claims, name, f)| == |claims|
    ensures VolumeClaimUpdate(claims, name, f)[i] == f(claims[i])
    ensures forall j :: 0 <= j < |claims| && j != i ==> VolumeClaimUpdate(claims, name, f)[j] == claims[j]
  {
  }

  /** No claim is called `name`: exactly one zero-value claim is appended and `f` is applied to it. */
  lemma VolumeClaimAbsent(claims: seq<PersistentVolumeClaim>, name: string, f: PersistentVolumeClaim -> PersistentVolumeClaim)
    requires forall j :: 0 <= j < |claims| ==> claims[j].name != name
    ensures VolumeClaimUpdate(claims, name, f) == claims + [f(EmptyClaim)]
  {
  }

  /**
   * `WithVolumeClaim(name, f)` is idempotent when `f` is idempotent and gives the claim
   * the name it was looked up by.
   */
  lemma VolumeClaimIdempotent(claims: seq<PersistentVolumeClaim>, name: string, f: PersistentVolumeClaim -> PersistentVolumeClaim)
    requires forall c :: f(c).name == name
    requires forall c :: f(f(c)) == f(c)
    ensures VolumeClaimUpdate(VolumeClaimUpdate(claims, name, f), name, f) == VolumeClaimUpdate(claims, name, f)
  {
    var i := ClaimIndex(name, claims);
    var once := VolumeClaimUpdate(claims, name, f);
    if i == Sequences.NotFound {
      VolumeClaimAbsent(claims, name, f);
      assert once[|claims|] == f(EmptyClaim);
      VolumeClaimPresent(once, name, f, |claims|);
      assert VolumeClaimUpdate(once, name, f) == once[|claims| := f(f(EmptyClaim))];
    } else {
      VolumeClaimPresent(claims, name, f, i);
      VolumeClaimPresent(once, name, f, i);
      assert VolumeClaimUpdate(once, name, f) == once[i := f(f(claims[i]))];
    }
  }

  /**
   * An `f` that keeps a claim's name is not idempotent under a non-empty name that is
   * absent: the appended zero claim keeps the empty name, so every run appends again.
   */
  lemma VolumeClaimAppendsAgainWithoutName(
    claims: seq<PersistentVolumeClaim>, name: string, f: PersistentVolumeClaim -> PersistentVolumeClaim)
    requires name != ""
    requires forall c :: f(c).name == c.name
    requires forall j :: 0 <= j < |claims| ==> claims[j].name != name
    ensures |VolumeClaimUpdate(VolumeClaimUpdate(claims, name, f), name, f)| == |claims| + 2
  {
    var once := VolumeClaimUpdate(claims, name, f);
    VolumeClaimAbsent(claims, name, f);
    assert once[|claims|].name == "";
    VolumeClaimAbsent(once, name, f);
  }

  // ---- Readiness ----

  /** So building or patching a workload with them never changes whether it is ready. */
  lemma BuiltInKeepsReadiness(m: Modification, d: Deployment, expectedReplicas: int)
    requires BuiltIn(m)
    ensures IsReady(Run(m, d), expectedReplicas) == IsReady(d, expectedReplicas)
  {
  }

  /** Readiness needs all three conditions: breaking any one of them, to any other value, makes it false. */
  lemma ReadinessConditions(sts: Deployment, n: int)
    requires IsReady(sts, n)
    ensures forall u :: u != n ==> !IsReady(sts.(status := sts.status.(updatedReplicas := u)), n)
    ensures forall u :: u != n ==> !IsReady(sts.(status := sts.status.(readyReplicas := u)), n)
    ensures forall g :: g != sts.status.observedGeneration ==> !IsReady(sts.(meta := sts.meta.(generation := g)), n)
  {
  }
}
