/**
 * The six employee effect workers.  No worker serves the image-upload
 * actions.  The create worker's outcome is kept as abstract as the others:
 * whatever the api resolves to is read as an envelope.
 */
module EmployeesSaga {
  import opened Wrappers
  import opened Effects
  import opened ItemList
  import opened EntityStore
  import opened Multipart
  import EmployeeForm
  import opened EmployeesSlice

  datatype ApiCall =
    | FetchEmployeesApi
    | FetchEmployeeApi(id: int)
    | CreateEmployeeApi(formData: seq<Part<EmployeeForm.Form>>)
    | UpdateEmployeeApi(id: int, data: EmployeeInput)
    | DeleteEmployeeApi(id: int)
    | FetchEmployeesByConditionApi(condition: SearchCondition)

  type Run = Script<ApiCall, Action>

  /** Envelope accepted: `success` holds and a result is present. */
  predicate Accepted<R>(o: Outcome<Envelope<R>>) {
    o.Returned? && o.value.success && o.value.result.Some?
  }

  function FetchEmployeesWorker(o: Outcome<Envelope<seq<Employee>>>): (run: Run)
    ensures run.call == FetchEmployeesApi
    ensures Accepted(o) ==> run.puts == [FetchEmployeesSuccess(o.value.result.value)]
    ensures o.Returned? && !Accepted(o) ==> run.puts == [FetchEmployeesFailure(o.value.message)]
    ensures o.Threw? ==> run.puts == [FetchEmployeesFailure(GetErrorMessage(o.err))]
  {
    Script(FetchEmployeesApi,
      match Decide(o)
      case Accept(xs) => [FetchEmployeesSuccess(xs)]
      case Reject(m) => [FetchEmployeesFailure(m)])
  }

  function FetchEmployeeWorker(id: int, o: Outcome<Envelope<Employee>>): (run: Run)
    ensures run.call == FetchEmployeeApi(id)
    ensures Accepted(o) ==> run.puts == [FetchEmployeeSuccess(o.value.result.value)]
    ensures o.Returned? && !Accepted(o) ==> run.puts == [FetchEmployeeFailure(o.value.message)]
    ensures o.Threw? ==> run.puts == [FetchEmployeeFailure(GetErrorMessage(o.err))]
  {
    Script(FetchEmployeeApi(id),
      match Decide(o)
      case Accept(e) => [FetchEmployeeSuccess(e)]
      case Reject(m) => [FetchEmployeeFailure(m)])
  }

  function CreateEmployeeWorker(formData: seq<Part<EmployeeForm.Form>>, o: Outcome<Envelope<Employee>>): (run: Run)
    ensures run.call == CreateEmployeeApi(formData)
    ensures Accepted(o) ==> run.puts == [CreateEmployeeSuccess(o.value.result.value)]
    ensures o.Returned? && !Accepted(o) ==> run.puts == [CreateEmployeeFailure(o.value.message)]
    ensures o.Threw? ==> run.puts == [CreateEmployeeFailure(GetErrorMessage(o.err))]
  {
    Script(CreateEmployeeApi(formData),
      match Decide(o)
      case Accept(e) => [CreateEmployeeSuccess(e)]
      case Reject(m) => [CreateEmployeeFailure(m)])
  }

  /** The api receives the payload's id and data unchanged. */
  function UpdateEmployeeWorker(id: int, data: EmployeeInput, o: Outcome<Envelope<Employee>>): (run: Run)
    ensures run.call == UpdateEmployeeApi(id, data)
    ensures Accepted(o) ==> run.puts == [UpdateEmployeeSuccess(o.value.result.value)]
    ensures o.Returned? && !Accepted(o) ==> run.puts == [UpdateEmployeeFailure(o.value.message)]
    ensures o.Threw? ==> run.puts == [UpdateEmployeeFailure(GetErrorMessage(o.err))]
  {
    Script(UpdateEmployeeApi(id, data),
      match Decide(o)
      case Accept(e) => [UpdateEmployeeSuccess(e)]
      case Reject(m) => [UpdateEmployeeFailure(m)])
  }

  /** Success carries the requested id; the envelope's `result` is never read. */
  function DeleteEmployeeWorker(id: int, o: Outcome<Envelope<()>>): (run: Run)
    ensures run.call == DeleteEmployeeApi(id)
    ensures o.Returned? && o.value.success ==> run.puts == [DeleteEmployeeSuccess(id)]
    ensures o.Returned? && !o.value.success ==> run.puts == [DeleteEmployeeFailure(o.value.message)]
    ensures o.Threw? ==> run.puts == [DeleteEmployeeFailure(GetErrorMessage(o.err))]
  {
    Script(DeleteEmployeeApi(id),
      match DecideDelete(id, o)
      case Accept(k) => [DeleteEmployeeSuccess(k)]
      case Reject(m) => [DeleteEmployeeFailure(m)])
  }

  function FetchEmployeesByConditionWorker(condition: SearchCondition, o: Outcome<Envelope<seq<Employee>>>): (run: Run)
    ensures run.call == FetchEmployeesByConditionApi(condition)
    ensures Accepted(o) ==> run.puts == [FetchEmployeesByConditionSuccess(o.value.result.value)]
    ensures o.Returned? && !Accepted(o) ==> run.puts == [FetchEmployeesByConditionFailure(o.value.message)]
    ensures o.Threw? ==> run.puts == [FetchEmployeesByConditionFailure(GetErrorMessage(o.err))]
  {
    Script(FetchEmployeesByConditionApi(condition),
      match Decide(o)
      case Accept(xs) => [FetchEmployeesByConditionSuccess(xs)]
      case Reject(m) => [FetchEmployeesByConditionFailure(m)])
  }

  /** The state a request leaves once its worker's actions have been reduced too. */
  function Settled(s: EmployeesState, request: Action, run: Run): EmployeesState {
    ReduceAll(Reduce(s, request), run.puts)
  }

  /** A settled request leaves the store idle and the upload fields as they were. */
  predicate Idle(s: EmployeesState, t: EmployeesState) {
    !t.crud.loading && t.upload == s.upload
  }

  /** On rejection the list is kept and the message recorded. */
  predicate KeptWith<R>(s: EmployeesState, t: EmployeesState, v: Verdict<R>) {
    v.Reject? ==> t.crud.items == s.crud.items && t.crud.error == Some(v.message)
  }

  /** A fetch-all ends idle with the fetched list and no error, or the old list and the failure message. */
  lemma FetchEmployeesSettles(s: EmployeesState, o: Outcome<Envelope<seq<Employee>>>)
    ensures var t, v := Settled(s, FetchEmployeesRequest, FetchEmployeesWorker(o)), Decide(o);
      Idle(s, t) && KeptWith(s, t, v) && (v.Accept? ==> t.crud.items == v.result && t.crud.error == None)
  {
    var run := FetchEmployeesWorker(o);
    ReduceAllOne(Reduce(s, FetchEmployeesRequest), run.puts[0]);
  }

  /** A by-condition search settles exactly like a fetch-all. */
  lemma FetchByConditionSettles(s: EmployeesState, c: SearchCondition, o: Outcome<Envelope<seq<Employee>>>)
    ensures var t, v := Settled(s, FetchEmployeesByConditionRequest(c), FetchEmployeesByConditionWorker(c, o)), Decide(o);
      Idle(s, t) && KeptWith(s, t, v) && (v.Accept? ==> t.crud.items == v.result && t.crud.error == None)
  {
    var run := FetchEmployeesByConditionWorker(c, o);
    ReduceAllOne(Reduce(s, FetchEmployeesByConditionRequest(c)), run.puts[0]);
  }

  /** A fetch-one ends idle with exactly that employee listed, or the old list and the failure message. */
  lemma FetchEmployeeSettles(s: EmployeesState, id: int, o: Outcome<Envelope<Employee>>)
    ensures var t, v := Settled(s, FetchEmployeeRequest(id), FetchEmployeeWorker(id, o)), Decide(o);
      Idle(s, t) && KeptWith(s, t, v) && (v.Accept? ==> t.crud.items == [v.result] && t.crud.error == None)
  {
    var run := FetchEmployeeWorker(id, o);
    ReduceAllOne(Reduce(s, FetchEmployeeRequest(id)), run.puts[0]);
  }

  /** A create ends idle with the new employee appended, or the old list and the failure message. */
  lemma CreateEmployeeSettles(s: EmployeesState, formData: seq<Part<EmployeeForm.Form>>, o: Outcome<Envelope<Employee>>)
    ensures var t, v := Settled(s, CreateEmployeeRequest(formData), CreateEmployeeWorker(formData, o)), Decide(o);
      Idle(s, t) && KeptWith(s, t, v) && (v.Accept? ==> t.crud.items == s.crud.items + [v.result] && t.crud.error == None)
  {
    var run := CreateEmployeeWorker(formData, o);
    ReduceAllOne(Reduce(s, CreateEmployeeRequest(formData)), run.puts[0]);
  }

  /** An update ends idle with the id-matching employees replaced, or the old list and the failure message. */
  lemma UpdateEmployeeSettles(s: EmployeesState, id: int, data: EmployeeInput, o: Outcome<Envelope<Employee>>)
    ensures var t, v := Settled(s, UpdateEmployeeRequest(id, data), UpdateEmployeeWorker(id, data, o)), Decide(o);
      Idle(s, t) && KeptWith(s, t, v) &&
      (v.Accept? ==> t.crud.items == ReplaceById(s.crud.items, IdOf, v.result) && t.crud.error == None)
  {
    var run := UpdateEmployeeWorker(id, data, o);
    var v := Decide(o);
    var r := Reduce(s, UpdateEmployeeRequest(id, data));
    assert r == s.(crud := Requested(s.crud));
    var t := Settled(s, UpdateEmployeeRequest(id, data), run);
    if v.Accept? {
      assert run.puts == [UpdateEmployeeSuccess(v.result)];
      ReduceAllOne(r, UpdateEmployeeSuccess(v.result));
      assert t == r.(crud := Replaced(r.crud, IdOf, v.result));
    } else {
      assert run.puts == [UpdateEmployeeFailure(v.message)];
      ReduceAllOne(r, UpdateEmployeeFailure(v.message));
      assert t == r.(crud := Failed(r.crud, v.message));
    }
  }

  /** A delete ends idle with the requested id gone, or the old list and the failure message. */
  lemma DeleteEmployeeSettles(s: EmployeesState, id: int, o: Outcome<Envelope<()>>)
    ensures var t, v := Settled(s, DeleteEmployeeRequest(id), DeleteEmployeeWorker(id, o)), DecideDelete(id, o);
      Idle(s, t) && KeptWith(s, t, v) &&
      (v.Accept? ==> t.crud.items == RemoveById(s.crud.items, IdOf, id) && t.crud.error == None)
  {
    var run := DeleteEmployeeWorker(id, o);
    var v := DecideDelete(id, o);
    var r := Reduce(s, DeleteEmployeeRequest(id));
    assert r == s.(crud := Requested(s.crud));
    var t := Settled(s, DeleteEmployeeRequest(id), run);
    if v.Accept? {
      assert run.puts == [DeleteEmployeeSuccess(id)];
      ReduceAllOne(r, DeleteEmployeeSuccess(id));
      assert t == r.(crud := Removed(r.crud, IdOf, id));
    } else {
      assert run.puts == [DeleteEmployeeFailure(v.message)];
      ReduceAllOne(r, DeleteEmployeeFailure(v.message));
      assert t == r.(crud := Failed(r.crud, v.message));
    }
  }

  /** The action types `employeesSaga` hands to a worker (`takeLatest`): the six requests. */
  predicate Watched(a: Action)
    ensures Watched(a) <==> a.IsRequest()
    ensures Watched(a) ==> !a.IsUpload()
  {
    a.FetchEmployeesRequest? || a.FetchEmployeeRequest? || a.CreateEmployeeRequest?
    || a.UpdateEmployeeRequest? || a.DeleteEmployeeRequest? || a.FetchEmployeesByConditionRequest?
  }

  /**
   * No worker answers an image-upload request, and none of the actions the
   * workers put is an upload action: after `uploadEmployeeImageRequest`,
   * whatever non-upload actions follow, the upload stays pending with no url
   * and no error until the upload state is reset.
   */
  lemma UploadRequestStaysPending(s: EmployeesState, f: File, acts: seq<Action>)
    requires forall i :: 0 <= i < |acts| ==> !acts[i].IsUpload()
    ensures !Watched(UploadEmployeeImageRequest(f))
    ensures ReduceAll(Reduce(s, UploadEmployeeImageRequest(f)), acts).upload == UploadState(None, true, None)
  {
    UploadOnlyByUploadActions(Reduce(s, UploadEmployeeImageRequest(f)), acts);
  }

  /** One watched request handed to its worker, with the outcome its api call had. */
  datatype Job =
    | FetchAllJob(listOutcome: Outcome<Envelope<seq<Employee>>>)
    | FetchOneJob(fetchId: int, oneOutcome: Outcome<Envelope<Employee>>)
    | CreateJob(formData: seq<Part<EmployeeForm.Form>>, createOutcome: Outcome<Envelope<Employee>>)
    | UpdateJob(updateId: int, data: EmployeeInput, updateOutcome: Outcome<Envelope<Employee>>)
    | DeleteJob(deleteId: int, deleteOutcome: Outcome<Envelope<()>>)
    | SearchJob(condition: SearchCondition, searchOutcome: Outcome<Envelope<seq<Employee>>>)

  /** The worker `employeesSaga` starts for the job's request; none of them puts an upload action. */
  function RunJob(j: Job): (run: Run)
    ensures forall i :: 0 <= i < |run.puts| ==> !run.puts[i].IsUpload()
  {
    match j
    case FetchAllJob(o) => FetchEmployeesWorker(o)
    case FetchOneJob(id, o) => FetchEmployeeWorker(id, o)
    case CreateJob(fd, o) => CreateEmployeeWorker(fd, o)
    case UpdateJob(id, data, o) => UpdateEmployeeWorker(id, data, o)
    case DeleteJob(id, o) => DeleteEmployeeWorker(id, o)
    case SearchJob(c, o) => FetchEmployeesByConditionWorker(c, o)
  }

  /** Everything a series of workers puts, in order. */
  function JobPuts(jobs: seq<Job>): (acts: seq<Action>)
    ensures forall i :: 0 <= i < |acts| ==> !acts[i].IsUpload()
  {
    if jobs == [] then [] else RunJob(jobs[0]).puts + JobPuts(jobs[1..])
  }

  /** Whatever workers run after an image-upload request, the upload stays pending. */
  lemma UploadPendingThroughWorkers(s: EmployeesState, f: File, jobs: seq<Job>)
    ensures ReduceAll(Reduce(s, UploadEmployeeImageRequest(f)), JobPuts(jobs)).upload == UploadState(None, true, None)
  {
    UploadRequestStaysPending(s, f, JobPuts(jobs));
  }
}
