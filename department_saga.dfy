/**
 * The department effect workers.  Each one takes the payload of the request
 * it serves and the outcome of its api call, and yields the call it makes
 * and the actions it puts.  The lemmas at the end run a request, the worker
 * and the reducer together.
 */
module DepartmentSaga {
  import opened Wrappers
  import opened Effects
  import opened ItemList
  import opened EntityStore
  import opened DepartmentSlice

  datatype ApiCall =
    | FetchDepartmentsApi
    | CreateDepartmentApi(input: DepartmentInput)
    | UpdateDepartmentApi(id: int, data: DepartmentInput)
    | DeleteDepartmentApi(id: int)

  type Run = Script<ApiCall, Action>

  /** Envelope accepted: `success` holds and a result is present. */
  predicate Accepted<R>(o: Outcome<Envelope<R>>) {
    o.Returned? && o.value.success && o.value.result.Some?
  }

  function FetchDepartmentsWorker(o: Outcome<Envelope<seq<Department>>>): (run: Run)
    ensures run.call == FetchDepartmentsApi
    ensures Accepted(o) ==> run.puts == [FetchDepartmentsSuccess(o.value.result.value)]
    ensures o.Returned? && !Accepted(o) ==> run.puts == [FetchDepartmentsFailure(o.value.message)]
    ensures o.Threw? ==> run.puts == [FetchDepartmentsFailure(GetErrorMessage(o.err))]
  {
    Script(FetchDepartmentsApi,
      match Decide(o)
      case Accept(xs) => [FetchDepartmentsSuccess(xs)]
      case Reject(m) => [FetchDepartmentsFailure(m)])
  }

  function CreateDepartmentWorker(input: DepartmentInput, o: Outcome<Envelope<Department>>): (run: Run)
    ensures run.call == CreateDepartmentApi(input)
    ensures Accepted(o) ==> run.puts == [CreateDepartmentSuccess(o.value.result.value)]
    ensures o.Returned? && !Accepted(o) ==> run.puts == [CreateDepartmentFailure(o.value.message)]
    ensures o.Threw? ==> run.puts == [CreateDepartmentFailure(GetErrorMessage(o.err))]
  {
    Script(CreateDepartmentApi(input),
      match Decide(o)
      case Accept(d) => [CreateDepartmentSuccess(d)]
      case Reject(m) => [CreateDepartmentFailure(m)])
  }

  /** The api receives the payload's id and data unchanged. */
  function UpdateDepartmentWorker(id: int, data: DepartmentInput, o: Outcome<Envelope<Department>>): (run: Run)
    ensures run.call == UpdateDepartmentApi(id, data)
    ensures Accepted(o) ==> run.puts == [UpdateDepartmentSuccess(o.value.result.value)]
    ensures o.Returned? && !Accepted(o) ==> run.puts == [UpdateDepartmentFailure(o.value.message)]
    ensures o.Threw? ==> run.puts == [UpdateDepartmentFailure(GetErrorMessage(o.err))]
  {
    Script(UpdateDepartmentApi(id, data),
      match Decide(o)
      case Accept(d) => [UpdateDepartmentSuccess(d)]
      case Reject(m) => [UpdateDepartmentFailure(m)])
  }

  /** Success carries the requested id; the envelope's `result` is never read. */
  function DeleteDepartmentWorker(id: int, o: Outcome<Envelope<()>>): (run: Run)
    ensures run.call == DeleteDepartmentApi(id)
    ensures o.Returned? && o.value.success ==> run.puts == [DeleteDepartmentSuccess(id)]
    ensures o.Returned? && !o.value.success ==> run.puts == [DeleteDepartmentFailure(o.value.message)]
    ensures o.Threw? ==> run.puts == [DeleteDepartmentFailure(GetErrorMessage(o.err))]
  {
    Script(DeleteDepartmentApi(id),
      match DecideDelete(id, o)
      case Accept(k) => [DeleteDepartmentSuccess(k)]
      case Reject(m) => [DeleteDepartmentFailure(m)])
  }

  /** The state a request leaves once its worker's actions have been reduced too. */
  function Settled(s: DepartmentState, request: Action, run: Run): DepartmentState {
    ReduceAll(Reduce(s, request), run.puts)
  }

  /** A fetch ends idle with either the fetched list and no error, or the old list and the failure message. */
  lemma FetchSettles(s: DepartmentState, o: Outcome<Envelope<seq<Department>>>)
    ensures var t := Settled(s, FetchDepartmentsRequest, FetchDepartmentsWorker(o));
      !t.loading &&
      (Accepted(o) ==> t.items == o.value.result.value && t.error == None) &&
      (!Accepted(o) ==> t.items == s.items && t.error == Some(Decide(o).message))
  {
    var run := FetchDepartmentsWorker(o);
    ReduceAllOne(Reduce(s, FetchDepartmentsRequest), run.puts[0]);
  }

  /** A create ends idle with the new department appended, or the old list and the failure message. */
  lemma CreateSettles(s: DepartmentState, input: DepartmentInput, o: Outcome<Envelope<Department>>)
    ensures var t := Settled(s, CreateDepartmentRequest(input), CreateDepartmentWorker(input, o));
      !t.loading &&
      (Accepted(o) ==> t.items == s.items + [o.value.result.value] && t.error == None) &&
      (!Accepted(o) ==> t.items == s.items && t.error == Some(Decide(o).message))
  {
    var run := CreateDepartmentWorker(input, o);
    ReduceAllOne(Reduce(s, CreateDepartmentRequest(input)), run.puts[0]);
  }

  /** An update ends idle with the id-matching departments replaced, or the old list and the failure message. */
  lemma UpdateSettles(s: DepartmentState, id: int, data: DepartmentInput, o: Outcome<Envelope<Department>>)
    ensures var t := Settled(s, UpdateDepartmentRequest(id, data), UpdateDepartmentWorker(id, data, o));
      !t.loading &&
      (Accepted(o) ==> t.items == ReplaceById(s.items, IdOf, o.value.result.value) && t.error == None) &&
      (!Accepted(o) ==> t.items == s.items && t.error == Some(Decide(o).message))
  {
    var run := UpdateDepartmentWorker(id, data, o);
    ReduceAllOne(Reduce(s, UpdateDepartmentRequest(id, data)), run.puts[0]);
  }

  /** A delete ends idle with the requested id gone, or the old list and the failure message. */
  lemma DeleteSettles(s: DepartmentState, id: int, o: Outcome<Envelope<()>>)
    ensures var t := Settled(s, DeleteDepartmentRequest(id), DeleteDepartmentWorker(id, o));
      !t.loading &&
      (DecideDelete(id, o).Accept? ==> t.items == RemoveById(s.items, IdOf, id) && t.error == None) &&
      (DecideDelete(id, o).Reject? ==> t.items == s.items && t.error == Some(DecideDelete(id, o).message))
  {
    var run := DeleteDepartmentWorker(id, o);
    var v := DecideDelete(id, o);
    var r := Reduce(s, DeleteDepartmentRequest(id));
    if v.Accept? {
      assert run.puts == [DeleteDepartmentSuccess(id)];
      ReduceAllOne(r, DeleteDepartmentSuccess(id));
    } else {
      assert run.puts == [DeleteDepartmentFailure(v.message)];
      ReduceAllOne(r, DeleteDepartmentFailure(v.message));
    }
  }
}
