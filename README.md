# OpenCGA operator: workload builder, apply protocol and status aggregator in Dafny

This project models the reconciliation core of the OpenCGA Kubernetes operator.

- **Workload builder.** A `Modification` changes a Deployment in place. `New` runs a list of
  them on the zero Deployment, `Apply` composes a list into one, and `NOOP` changes nothing.
  The field setters are `WithName`, `WithNamespace`, `WithLabels`, `WithMatchLabels`,
  `WithOwnerReference`, `WithReplicas`, `WithRevisionHistoryLimit`, `WithPodManagementPolicyType`,
  `WithSelector`, `WithUpdateStrategyType`, `WithPodSpecTemplate`, `WithServiceName` and the
  find-or-append `WithVolumeClaim`. The file also has the volume and volume-mount constructors,
  their options, and the readiness check `IsReady`.
- **Apply protocol.** `CreateOrUpdate` reads and then either creates or updates. `GetAndUpdate`
  mutates the copy it has just read and writes it back. `ResetUpdateStrategy` builds on
  `GetAndUpdate`.
- **Status aggregator.** `Update` applies every reconcile option to the resource status, writes the
  status once, and reduces the options to one decision. The first error wins. Failing that, the
  first requeue request wins. Otherwise the result is done.

Layout:

| file | module | models |
|---|---|---|
| `wrappers.dfy` | `Wrappers` | `Option` (Go nil pointers, nil errors) and `Result` |
| `sequences.dfy` | `Sequences` | recursive first- and last-index searches: the reference for the first-match loops, and for which option is the last to set a field |
| `kube_types.dfy` | `KubeTypes` | the Kubernetes records the builder touches, with their zero values |
| `statefulset.dfy` | `StatefulSet` | modifications, the in-place `DeploymentObject`, `New`, lookups, volumes, mounts, `IsReady` |
| `statefulset_properties.dfy` | `StatefulSetProperties` | lemmas about composition, setters, volume claims and readiness |
| `statefulset_client.dfy` | `StatefulSetClient` | the store and `CreateOrUpdate`, `GetAndUpdate`, `ResetUpdateStrategy` |
| `status.dfy` | `Status` | reconcile options, `determineReconciliationResult`, status `Update` |

How the Go constructs are represented:

- A Go `Modification` is a closure over `*appsv1.Deployment`. Here it is a value of the
  `Modification` datatype, with one constructor per builder. `Custom(f)` stands for any other
  closure, such as the ones passed to `GetAndUpdate`.
- `Run(m, d)` is the Deployment that `m` produces from `d`.
- `DeploymentObject` plays the role of the pointer. Its fields are those of the Go struct
  (`meta`, `spec`, `status`). `Modify(m)` performs `m` in place and is proved to match `Run`.
- `New` allocates such an object, loops over the modifications and returns the value, as the
  source returns a struct copy.
- The store maps (name, namespace) to Deployments and logs every call. "Exactly one create and no
  update" is stated as the log growing by exactly `[GetCall(key), CreateCall(dep)]`. The store can
  be set to fail any kind of call, so every outcome the protocol distinguishes is reachable.
- A reconcile option is a value with three parts: its status change (a function on the status
  record), its `reconcile.Result`, and its optional error.
  `ReconciliationResult` is the reference definition of the reduction.
  `DetermineReconciliationResult` keeps the source's two early-return loops and is proved equal to
  it.

Where the code departs from the operator's stated design, the model follows the code:

- Owner references are not looked up or deduplicated. `WithOwnerReference` replaces the whole
  slice, which makes it idempotent anyway.
- `WithVolumeClaim` appends a zero-value claim whose name is empty. Re-applying it is idempotent
  when `f` is idempotent and gives the claim the looked-up name (`VolumeClaimIdempotent`). An `f`
  that keeps the empty name, used under a non-empty name, appends again on every run
  (`VolumeClaimAppendsAgainWithoutName`).
- `WithMatchLabels` replaces only the label map of an existing selector. An earlier `WithSelector`
  keeps its match expressions, so a later `WithMatchLabels` does not fully overwrite the selector.
- `WithUpdateStrategyType` resets the whole strategy and drops the rolling-update parameters.
  The closure in `ResetUpdateStrategy` sets only the type and keeps them.
- `GetAndUpdate` writes to the key of the object after mutation. If the mutation renames the
  object, the write goes to the new key.

## Model

| member | source | states |
|---|---|---|
| `StatefulSet.Run` | pkg/kube/statefulset/statefulset.go:196-293 | the Deployment each builder produces; any modification built only from the source's builders leaves the generation, annotations and status unchanged |
| `StatefulSet.RunAll` | pkg/kube/statefulset/statefulset.go:180-194 | running a list of modifications in order; the empty list changes nothing, and a list of the source's builders leaves the generation, annotations and status unchanged |
| `StatefulSet.DeploymentObject.Modify` | pkg/kube/statefulset/statefulset.go:178-293 | running a modification on the object in place leaves it holding exactly the Deployment `Run` gives for its old value |
| `StatefulSet.New` | pkg/kube/statefulset/statefulset.go:180-186 | the result is the zero Deployment with the modifications run on it, first to last |
| `StatefulSet.RunAllAppend` | pkg/kube/statefulset/statefulset.go:188-194 | running a list `a + b` is running `a` and then `b` on the result |
| `StatefulSetProperties.RunAllFirstThenRest` | pkg/kube/statefulset/statefulset.go:180-186 | the fold goes left to right: the first modification runs before all the others |
| `StatefulSetProperties.ApplyFlattens` | pkg/kube/statefulset/statefulset.go:188-194 | applying `Apply(a)` and then `Apply(b)` is applying `Apply(a + b)` |
| `StatefulSetProperties.IdentityModifications` | pkg/kube/statefulset/statefulset.go:143-146 | `New` with no modifications gives the zero Deployment; `NOOP`, an empty `Apply` and `WithServiceName` leave any Deployment unchanged |
| `StatefulSetProperties.LabelSettersReplace` | pkg/kube/statefulset/statefulset.go:214-233 | `WithLabels` and `WithMatchLabels` replace the whole map; `WithMatchLabels` creates a selector when there is none and keeps an existing selector's expressions |
| `StatefulSetProperties.UpdateStrategyTypeResetsStrategy` | pkg/kube/statefulset/statefulset.go:268-274 | the strategy becomes exactly `{Type: t}`, with no rolling-update parameters |
| `StatefulSetProperties.ChangesOnlyItsField` | pkg/kube/statefulset/statefulset.go:196-293 | every single-field builder leaves the Deployment unchanged outside its field |
| `StatefulSetProperties.DisjointFieldsCommute` | pkg/kube/statefulset/statefulset.go:196-293 | two single-field builders on different fields give the same Deployment in either order |
| `StatefulSetProperties.LaterSetterWins` | pkg/kube/statefulset/statefulset.go:196-274 | of two setters of one field, alone or inside `Apply`, the later one determines the result; the exception is `WithMatchLabels` after `WithSelector` |
| `StatefulSetProperties.SetterIdempotent` | pkg/kube/statefulset/statefulset.go:196-274 | applying any setter twice equals applying it once |
| `StatefulSet.ClaimIndex` | pkg/kube/statefulset/statefulset.go:301-308 | the index of the first claim with the name, or -1 exactly when no claim has it |
| `StatefulSet.VolumeClaimUpdate` | pkg/kube/statefulset/statefulset.go:283-293 | the claim list grows by one exactly when no claim has the name, and then ends with `f` of the zero claim; claims with other names are never changed |
| `StatefulSet.DeploymentObject.ModifyVolumeClaim` | pkg/kube/statefulset/statefulset.go:283-293 | the in-place find-or-append leaves metadata and status alone and turns the claim list into `VolumeClaimUpdate` of the old one |
| `StatefulSet.FindVolumeClaimIndexByName` | pkg/kube/statefulset/statefulset.go:301-308 | the early-return loop returns the first matching index, or -1 exactly when none matches |
| `StatefulSetProperties.VolumeClaimPresent` | pkg/kube/statefulset/statefulset.go:283-293 | when the name is present the length is kept, `f` is applied to the first claim with that name, and every other claim is untouched |
| `StatefulSetProperties.VolumeClaimAbsent` | pkg/kube/statefulset/statefulset.go:283-293 | when the name is absent exactly one zero-value claim is appended at the end, with `f` applied to it |
| `StatefulSetProperties.VolumeClaimIdempotent` | pkg/kube/statefulset/statefulset.go:283-293 | re-applying `WithVolumeClaim` changes nothing when `f` is idempotent and names the claim |
| `StatefulSetProperties.VolumeClaimAppendsAgainWithoutName` | pkg/kube/statefulset/statefulset.go:286-289 | for any `f` that keeps a claim's name and a non-empty name no claim has, applying the builder twice appends two claims |
| `StatefulSet.VolumeMountWithNameExists` | pkg/kube/statefulset/statefulset.go:310-317 | true exactly when some mount has the volume name |
| `StatefulSet.MountOptionsLastWins` | pkg/kube/statefulset/statefulset.go:157-169 | mount options never change the mount's name or path; for sub-path and read-only, the last option setting them wins |
| `StatefulSet.CreateVolumeMount` | pkg/kube/statefulset/statefulset.go:131-141 | the mount has the given name and path, the last sub-path and read-only options (or "" and false), and equals the options folded in order |
| `StatefulSet.VolumeOptionsLastModeWins` | pkg/kube/statefulset/statefulset.go:148-155 | the options touch only the secret source: the last mode wins, and a volume without a secret gains one with an empty name |
| `StatefulSet.ApplyVolumeOptionsInPlace` | pkg/kube/statefulset/statefulset.go:97-100 | the option loop yields the options folded over the volume in order |
| `StatefulSet.CreateVolumeFromConfigMap` | pkg/kube/statefulset/statefulset.go:85-101 | a volume backed by the named config map with the options applied; without options it has that single source |
| `StatefulSet.CreateVolumeFromSecret` | pkg/kube/statefulset/statefulset.go:103-119 | a volume backed by the named secret with mode 416 (0640) unless an option overrides it; it always has exactly one source |
| `StatefulSet.CreateVolumeFromEmptyDir` | pkg/kube/statefulset/statefulset.go:121-129 | a volume of the given name whose only source is a default empty directory |
| `StatefulSet.IsReady` | pkg/kube/statefulset/statefulset.go:171-176 | ready exactly when updated replicas = ready replicas = expected replicas and the generation equals the observed generation |
| `StatefulSetProperties.ReadinessConditions` | pkg/kube/statefulset/statefulset.go:171-176 | from a ready workload, changing the updated count, the ready count or the generation to any other value makes it not ready |
| `StatefulSetProperties.BuiltInKeepsReadiness` | pkg/kube/statefulset/statefulset.go:171-176 | building or patching with the source's builders never changes whether a workload is ready |
| `StatefulSetClient.Store.GetDeployment` | pkg/kube/statefulset/statefulset.go:19-21 | a read returns the stored object, which carries the key read, or the zero Deployment with NotFound or the configured failure |
| `StatefulSetClient.Store.CreateDeployment` | pkg/kube/statefulset/statefulset.go:27-29 | a create stores the object under its own key unless it reports an error, keeping every object under its own name and namespace |
| `StatefulSetClient.Store.UpdateDeployment` | pkg/kube/statefulset/statefulset.go:23-25 | an update replaces the stored object and returns it unless it reports an error, keeping every object under its own name and namespace |
| `StatefulSetClient.CreateOrUpdate` | pkg/kube/statefulset/statefulset.go:55-64 | not found: exactly one create and no update; any other read error: returned unchanged with no write; successful read: exactly one update and no create |
| `StatefulSetClient.GetAndUpdate` | pkg/kube/statefulset/statefulset.go:67-75 | the mutation runs on the object the read just returned and that result is the one written; a read error means no write |
| `StatefulSetClient.ResetToRollingUpdate` | pkg/kube/statefulset/statefulset.go:327-331 | only the strategy type changes, to RollingUpdate; the rolling-update parameters and everything else stay |
| `StatefulSetClient.ResetUpdateStrategy` | pkg/kube/statefulset/statefulset.go:321-333 | with no version change under way the store is not called at all; otherwise it performs `GetAndUpdate` with the RollingUpdate reset |
| `Status.ApplyOptions` | pkg/util/status/status.go:24-26 | every option's change applied to the status in list order; options that change nothing, and an empty list, leave the status as it was |
| `Status.ApplyOptionsAppend` | pkg/util/status/status.go:24-26 | applying options `a + b` to the status is applying `a` and then `b` |
| `Status.ReconciliationResult` | pkg/util/status/status.go:35-52 | the error is nil exactly when no option errs; with no error, it requeues exactly when some option asks to; otherwise the result is empty |
| `Status.FirstErrorWins` | pkg/util/status/status.go:37-42 | the first erroring option's (result, error) is returned, even when requeue requests come before it |
| `Status.FirstRequeueWins` | pkg/util/status/status.go:44-49 | with no error, the first option asking for a requeue (flag or positive delay) is returned with a nil error |
| `Status.DoneOtherwise` | pkg/util/status/status.go:51 | with no error and no requeue request, an empty list included, the result is the empty Result with a nil error |
| `Status.DetermineReconciliationResult` | pkg/util/status/status.go:35-52 | the two early-return loops compute exactly the reference reduction |
| `Status.StatusWriter.Update` | pkg/util/status/status.go:28 | each status write is recorded and reports the writer's failure, if any |
| `Status.Update` | pkg/util/status/status.go:22-33 | every option's change is applied in list order before exactly one status write; a failed write returns its error with an empty Result whatever the options say; otherwise the options' reduction is returned |

## Left out

- `WithSelector`, `WithMatchLabels`, `WithReplicas`, `WithRevisionHistoryLimit` and `WithVolumeClaim`: pointer aliasing is not modelled. The model has value semantics. In the source, `WithSelector` stores the caller's own `*LabelSelector`, and a later `WithMatchLabels` writes its labels through that shared pointer, so the caller's selector and every Deployment built from the same `WithSelector` change too. `WithReplicas` and `WithRevisionHistoryLimit` hand one shared `int32` pointer to every Deployment they are applied to. `WithVolumeClaim` mutates through `&VolumeClaimTemplates[idx]`, whose backing array struct copies share. So the source's modifications can have effects outside their target, although the operator's design says a modification touches only the object it is given; the model does not capture these effects.
- `WithAnnotations` and `WithCustomSpecs` are not modelled. They delegate to merge helpers (`merge.StringToStringMap`, `merge.StatefulSetSpecs`) that are not part of this model. The annotations field exists but only `Custom` writes it.
- The `int32` narrowing of replica counts, revision-history limits, the secret mode and the expected replica count in `IsReady` is not modelled. All integers are unbounded.
- The `Deleter` interface and the combined interfaces are not modelled. No modelled operation deletes.
- `context.TODO`, the real cluster client and the network are not modelled. The store is an in-memory stand-in with configurable failures. Its update returns the object it was given, without a new resource version.
- `annotations.Versioned` is not part of this model. Its `IsChangingVersion` and `NamespacedName` are given as plain values.
- An option's `ApplyOption` receives the whole resource in the source. Here it changes only the status record.
- `GetResult` is called twice per option in the source. Here each option's result is one fixed value.
- Volume and mount options are arbitrary closures in the source. Here they are limited to the file's own `WithSecretDefaultMode`, `WithSubPath` and `WithReadOnly`.
- The Kubernetes types are cut down to the fields the code touches. Int-or-string amounts are ints. Go's nil map and empty map are not told apart.
- The source uses `appsv1.StatefulSet` in `IsReady` and `appsv1.Deployment` elsewhere. Both are one record here, which carries the stateful-set fields the builder writes.
- The unfinished builder in controllers/construct/opencgadeployment.go is not modelled. It returns a label map where a `Modification` is declared.
- JSON handling of the custom resource and the event predicates are not modelled.
