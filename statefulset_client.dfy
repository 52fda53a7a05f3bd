/**
 * The apply protocol of the workload builder against the cluster store: create-or-update,
 * read-modify-write on the freshest copy, and the update-strategy reset after a version
 * change. The store is the collaborator behind the source's Getter/Updater/Creator
 * interfaces; it keeps its objects by (name, namespace), logs every call, and can be set
 * to fail any kind of call, so that every outcome the protocol distinguishes is reachable.
 */
module StatefulSetClient {
  import opened Wrappers
  import opened KubeTypes
  import opened StatefulSet

  /** `types.NamespacedName` / `client.ObjectKey`. */
  datatype ObjectKey = ObjectKey(name: string, namespace: string)

  function KeyOf(d: Deployment): ObjectKey
  {
    ObjectKey(d.meta.name, d.meta.namespace)
  }

  /** Store errors; `NotFound` is the one `apiErrors.IsNotFound` recognises. */
  datatype StoreError = NotFound | AlreadyExists | Conflict | ServerError(message: string)

  /** One call made on the store, in the order made. */
  datatype Call = GetCall(key: ObjectKey) | CreateCall(dep: Deployment) | UpdateCall(dep: Deployment)

  class Store {
    var objects: map<ObjectKey, Deployment>
    var calls: seq<Call>
    /** A failure every call of that kind reports, when set. */
    var getFault: Option<StoreError>
    var createFault: Option<StoreError>
    var updateFault: Option<StoreError>

    /** Every object is stored under its own name and namespace. */
    predicate Valid()
      reads this
    {
      forall k :: k in objects ==> KeyOf(objects[k]) == k
    }

    constructor (objects: map<ObjectKey, Deployment>,
                 getFault: Option<StoreError>, createFault: Option<StoreError>, updateFault: Option<StoreError>)
      requires forall k :: k in objects ==> KeyOf(objects[k]) == k
      ensures Valid()
      ensures this.objects == objects && calls == []
      ensures this.getFault == getFault && this.createFault == createFault && this.updateFault == updateFault
    {
      this.objects := objects;
      this.calls := [];
      this.getFault, this.createFault, this.updateFault := getFault, createFault, updateFault;
    }

    /** What a read of `key` returns now. */
    function Lookup(key: ObjectKey): (r: Result<Deployment, StoreError>)
      reads this
      ensures Valid() && r.Ok? ==> KeyOf(r.value) == key
      ensures getFault == None ==> (r.Ok? <==> key in objects)
    {
      if getFault.Some? then Err(getFault.value)
      else if key in objects then Ok(objects[key])
      else Err(NotFound)
    }

    /** The error a create of `d` reports now, if any. */
    function CreateError(d: Deployment): Option<StoreError>
      reads this
    {
      if createFault.Some? then createFault
      else if KeyOf(d) in objects then Some(AlreadyExists)
      else None
    }

    /** The error an update with `d` reports now, if any. */
    function UpdateError(d: Deployment): Option<StoreError>
      reads this
    {
      if updateFault.Some? then updateFault
      else if KeyOf(d) !in objects then Some(NotFound)
      else None
    }

    /** `GetDeployment`: a copy of the stored object, or the zero Deployment and an error. */
    method GetDeployment(key: ObjectKey) returns (d: Deployment, err: Option<StoreError>)
      requires Valid()
      modifies this`calls
      ensures Valid()
      ensures calls == old(calls) + [GetCall(key)]
      ensures Lookup(key).Ok? ==> d == Lookup(key).value && err == None
      ensures Lookup(key).Err? ==> d == EmptyDeployment && err == Some(Lookup(key).error)
    {
      calls := calls + [GetCall(key)];
      match Lookup(key)
      case Ok(v) => d, err := v, None;
      case Err(e) => d, err := EmptyDeployment, Some(e);
    }

    /** `CreateDeployment`: stores `d` under its own key unless it reports an error. */
    method CreateDeployment(d: Deployment) returns (err: Option<StoreError>)
      requires Valid()
      modifies this`calls, this`objects
      ensures Valid()
      ensures calls == old(calls) + [CreateCall(d)]
      ensures err == old(CreateError(d))
      ensures objects == if err == None then old(objects)[KeyOf(d) := d] else old(objects)
    {
      calls := calls + [CreateCall(d)];
      err := CreateError(d);
      if err == None {
        objects := objects[KeyOf(d) := d];
      }
    }

    /** `UpdateDeployment`: replaces the object under `d`'s key and returns it, unless it reports an error. */
    method UpdateDeployment(d: Deployment) returns (r: Deployment, err: Option<StoreError>)
      requires Valid()
      modifies this`calls, this`objects
      ensures Valid()
      ensures calls == old(calls) + [UpdateCall(d)]
      ensures err == old(UpdateError(d))
      ensures r == (if err == None then d else EmptyDeployment)
      ensures objects == if err == None then old(objects)[KeyOf(d) := d] else old(objects)
    {
      calls := calls + [UpdateCall(d)];
      err := UpdateError(d);
      if err == None {
        objects := objects[KeyOf(d) := d];
        r := d;
      } else {
        r := EmptyDeployment;
      }
    }
  }

  /**
   * Creates `dep` if its key is not found, propagates any other read error without writing,
   * and otherwise updates: one read, then at most one write.
   */
  method CreateOrUpdate(store: Store, dep: Deployment) returns (r: Deployment, err: Option<StoreError>)
    requires store.Valid()
    modifies store`calls, store`objects
    ensures store.Valid()
    ensures old(store.Lookup(KeyOf(dep))) == Err(NotFound) ==>
      && store.calls == old(store.calls) + [GetCall(KeyOf(dep)), CreateCall(dep)]
      && r == EmptyDeployment
      && err == old(store.CreateError(dep))
      && store.objects == (if err == None then old(store.objects)[KeyOf(dep) := dep] else old(store.objects))
    ensures old(store.Lookup(KeyOf(dep))).Err? && old(store.Lookup(KeyOf(dep))).error != NotFound ==>
      && store.calls == old(store.calls) + [GetCall(KeyOf(dep))]
      && r == EmptyDeployment
      && err == Some(old(store.Lookup(KeyOf(dep))).error)
      && store.objects == old(store.objects)
    ensures old(store.Lookup(KeyOf(dep))).Ok? ==>
      && store.calls == old(store.calls) + [GetCall(KeyOf(dep)), UpdateCall(dep)]
      && err == old(store.UpdateError(dep))
      && r == (if err == None then dep else EmptyDeployment)
      && store.objects == (if err == None then old(store.objects)[KeyOf(dep) := dep] else old(store.objects))
  {
    var _, getErr := store.GetDeployment(KeyOf(dep));
    if getErr != None {
      if getErr.value == NotFound {
        err := store.CreateDeployment(dep);
        return EmptyDeployment, err;
      }
      return EmptyDeployment, getErr;
    }
    r, err := store.UpdateDeployment(dep);
  }

  /**
   * Reads the object under `key`, runs `updateFunc` on the copy just read, and writes the
   * result back; a read error is returned with no write.
   */
  method GetAndUpdate(store: Store, key: ObjectKey, updateFunc: Modification) returns (r: Deployment, err: Option<StoreError>)
    requires store.Valid()
    modifies store`calls, store`objects
    ensures store.Valid()
    ensures old(store.Lookup(key)).Err? ==>
      && store.calls == old(store.calls) + [GetCall(key)]
      && r == EmptyDeployment
      && err == Some(old(store.Lookup(key)).error)
      && store.objects == old(store.objects)
    ensures old(store.Lookup(key)).Ok? ==>
      var updated := Run(updateFunc, old(store.Lookup(key)).value);
      && store.calls == old(store.calls) + [GetCall(key), UpdateCall(updated)]
      && err == old(store.UpdateError(updated))
      && r == (if err == None then updated else EmptyDeployment)
      && store.objects == (if err == None then old(store.objects)[KeyOf(updated) := updated] else old(store.objects))
  {
    var current, getErr := store.GetDeployment(key);
    if getErr != None {
      return EmptyDeployment, getErr;
    }
    var dep := new DeploymentObject(current);
    dep.Modify(updateFunc);
    r, err := store.UpdateDeployment(dep.Value());
  }

  /** `annotations.Versioned`: the owning resource's key and whether it is changing version. */
  datatype Versioned = Versioned(namespacedName: ObjectKey, isChangingVersion: bool)

  /** The closure `ResetUpdateStrategy` passes on: only the strategy type becomes RollingUpdate. */
  function ResetToRollingUpdate(dep: Deployment): (r: Deployment)
    ensures r.spec.strategy.strategyType == RollingUpdateDeploymentStrategyType
    ensures r.spec.strategy.rollingUpdate == dep.spec.strategy.rollingUpdate
    ensures r == dep.(spec := r.spec) && r.spec == dep.spec.(strategy := r.spec.strategy)
  {
    dep.(spec := dep.spec.(strategy := dep.spec.strategy.(strategyType := RollingUpdateDeploymentStrategyType)))
  }

  /**
   * Does nothing unless a version change is under way; then sets the freshest copy's
   * strategy type back to RollingUpdate through `GetAndUpdate`.
   */
  method ResetUpdateStrategy(ocb: Versioned, kubeClient: Store) returns (err: Option<StoreError>)
    requires kubeClient.Valid()
    modifies kubeClient`calls, kubeClient`objects
    ensures kubeClient.Valid()
    ensures !ocb.isChangingVersion ==> err == None && unchanged(kubeClient)
    ensures ocb.isChangingVersion && old(kubeClient.Lookup(ocb.namespacedName)).Err? ==>
      && kubeClient.calls == old(kubeClient.calls) + [GetCall(ocb.namespacedName)]
      && err == Some(old(kubeClient.Lookup(ocb.namespacedName)).error)
      && kubeClient.objects == old(kubeClient.objects)
    ensures ocb.isChangingVersion && old(kubeClient.Lookup(ocb.namespacedName)).Ok? ==>
      var updated := ResetToRollingUpdate(old(kubeClient.Lookup(ocb.namespacedName)).value);
      && kubeClient.calls == old(kubeClient.calls) + [GetCall(ocb.namespacedName), UpdateCall(updated)]
      && err == old(kubeClient.UpdateError(updated))
      && kubeClient.objects == (if err == None then old(kubeClient.objects)[KeyOf(updated) := updated] else old(kubeClient.objects))
  {
    if !ocb.isChangingVersion {
      return None;
    }
    var _, e := GetAndUpdate(kubeClient, ocb.namespacedName, Custom(ResetToRollingUpdate));
    err := e;
  }
}
