/**
 * The status-decision aggregator: every reconcile option first writes its finding into the
 * resource's status, the status is written once, and the options' results are reduced to one
 * decision — the first error in list order, else the first requeue request, else done.
 */
module Status {
  import opened Wrappers
  import Sequences

  /** A Go `error`; `None` in an `Option<Error>` is nil. */
  datatype Error = Error(message: string)

  /** `reconcile.Result`; `requeueAfter` is a duration in nanoseconds and may be negative. */
  datatype ReconcileResult = ReconcileResult(requeue: bool, requeueAfter: int)

  /** The empty `reconcile.Result{}`: nothing to requeue. */
  const EmptyResult: ReconcileResult := ReconcileResult(false, 0)

  predicate RequestsRequeue(r: ReconcileResult)
  {
    r.requeue || r.requeueAfter > 0
  }

  /** The status record of an OpenCGA community resource. */
  datatype CommunityStatus = CommunityStatus(
    restUri: string,
    phase: string,
    version: string,
    currentStatefulSetReplicas: int,
    currentRestMembers: int,
    message: string)

  /**
   * One reconcile option: `applyOption` is the change it makes to the status, and
   * `result`/`err` are what its `GetResult` reports.
   */
  datatype ReconcileOption = ReconcileOption(
    applyOption: CommunityStatus -> CommunityStatus,
    result: ReconcileResult,
    err: Option<Error>)

  /** The status after every option of `options` has applied its change, first to last. */
  /** The option reports a finding without changing the status. */
  ghost predicate LeavesStatus(o: ReconcileOption)
  {
    forall t :: o.applyOption(t) == t
  }

  function ApplyOptions(options: seq<ReconcileOption>, s: CommunityStatus): (r: CommunityStatus)
    ensures (forall i :: 0 <= i < |options| ==> LeavesStatus(options[i])) ==> r == s
  {
    if options == [] then s
    else options[|options| - 1].applyOption(ApplyOptions(options[..|options| - 1], s))
  }

  /** Applying `a` and then `b` is applying their concatenation. */
  lemma {:induction false} ApplyOptionsAppend(a: seq<ReconcileOption>, b: seq<ReconcileOption>, s: CommunityStatus)
    ensures ApplyOptions(a + b, s) == ApplyOptions(b, ApplyOptions(a, s))
    decreases |b|
  {
    if b == [] {
      assert a + b == a;
    } else {
      var b' := b[..|b| - 1];
      assert (a + b)[..|a + b| - 1] == a + b';
      assert (a + b)[|a + b| - 1] == b[|b| - 1];
      ApplyOptionsAppend(a, b', s);
    }
  }

  /** The decision the options reduce to: the first error, else the first requeue, else done. */
  function ReconciliationResult(options: seq<ReconcileOption>): (d: (ReconcileResult, Option<Error>))
    ensures d.1 == None <==> forall i :: 0 <= i < |options| ==> options[i].err == None
    ensures d.1 == None ==>
      (RequestsRequeue(d.0) <==> exists i :: 0 <= i < |options| && RequestsRequeue(options[i].result))
    ensures d.1 == None && !RequestsRequeue(d.0) ==> d.0 == EmptyResult
    ensures d == (EmptyResult, None) || exists i :: 0 <= i < |options| && d.0 == options[i].result
  {
    var e := Sequences.FirstIndex(options, (o: ReconcileOption) => o.err != None);
    if e != Sequences.NotFound then
      (options[e].result, options[e].err)
    else
      var q := Sequences.FirstIndex(options, (o: ReconcileOption) => RequestsRequeue(o.result));
      if q != Sequences.NotFound then (options[q].result, None) else (EmptyResult, None)
  }

  /** Errors come first: the first erroring option decides, whatever requeue requests come before it. */
  lemma FirstErrorWins(options: seq<ReconcileOption>, i: int)
    requires 0 <= i < |options| && options[i].err != None
    requires forall j :: 0 <= j < i ==> options[j].err == None
    ensures ReconciliationResult(options) == (options[i].result, options[i].err)
  {
  }

  /** With no error anywhere, the first option asking for a requeue decides, with a nil error. */
  lemma FirstRequeueWins(options: seq<ReconcileOption>, i: int)
    requires forall j :: 0 <= j < |options| ==> options[j].err == None
    requires 0 <= i < |options| && RequestsRequeue(options[i].result)
    requires forall j :: 0 <= j < i ==> !RequestsRequeue(options[j].result)
    ensures ReconciliationResult(options) == (options[i].result, None)
  {
  }

  /** With no error and no requeue request — an empty list included — the reconciliation is done. */
  lemma DoneOtherwise(options: seq<ReconcileOption>)
    requires forall j :: 0 <= j < |options| ==> options[j].err == None && !RequestsRequeue(options[j].result)
    ensures ReconciliationResult(options) == (EmptyResult, None)
  {
  }

  /** `determineReconciliationResult`: one pass looking for an error, a second looking for a requeue. */
  method DetermineReconciliationResult(options: seq<ReconcileOption>) returns (res: ReconcileResult, err: Option<Error>)
    ensures (res, err) == ReconciliationResult(options)
  {
    for i := 0 to |options|
      invariant forall j :: 0 <= j < i ==> options[j].err == None
    {
      if options[i].err != None {
        FirstErrorWins(options, i);
        return options[i].result, options[i].err;
      }
    }
    for i := 0 to |options|
      invariant forall j :: 0 <= j < i ==> !RequestsRequeue(options[j].result)
    {
      if RequestsRequeue(options[i].result) {
        FirstRequeueWins(options, i);
        return options[i].result, None;
      }
    }
    DoneOtherwise(options);
    return EmptyResult, None;
  }

  /** The resource whose status the options change in place; only its status is modelled. */
  class Community {
    var status: CommunityStatus

    constructor (status: CommunityStatus)
      ensures this.status == status
    {
      this.status := status;
    }
  }

  /** The status-subresource writer: records each status it is asked to write and may fail. */
  class StatusWriter {
    var written: seq<CommunityStatus>
    /** The failure every write reports, when set. */
    var fault: Option<Error>

    constructor (fault: Option<Error>)
      ensures written == [] && this.fault == fault
    {
      written := [];
      this.fault := fault;
    }

    method Update(ocb: Community) returns (err: Option<Error>)
      modifies this`written
      ensures written == old(written) + [ocb.status]
      ensures err == fault
    {
      written := written + [ocb.status];
      err := fault;
    }
  }

  /**
   * Applies every option to the status in list order, writes the status once, and returns
   * the write's error with an empty result if it fails, or the options' decision otherwise.
   */
  method Update(statusWriter: StatusWriter, ocb: Community, options: seq<ReconcileOption>)
    returns (res: ReconcileResult, err: Option<Error>)
    modifies statusWriter`written, ocb
    ensures ocb.status == ApplyOptions(options, old(ocb.status))
    ensures statusWriter.written == old(statusWriter.written) + [ocb.status]
    ensures statusWriter.fault != None ==> res == EmptyResult && err == statusWriter.fault
    ensures statusWriter.fault == None ==> (res, err) == ReconciliationResult(options)
  {
    for i := 0 to |options|
      modifies ocb
      invariant ocb.status == ApplyOptions(options[..i], old(ocb.status))
    {
      ocb.status := options[i].applyOption(ocb.status);
      assert options[..i + 1][..i] == options[..i];
    }
    assert options[..|options|] == options;
    var writeErr := statusWriter.Update(ocb);
    if writeErr != None {
      return EmptyResult, writeErr;
    }
    res, err := DetermineReconciliationResult(options);
  }
}
