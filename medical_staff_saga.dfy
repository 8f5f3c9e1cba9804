/**
 * The six medical-staff effect workers.  Five read an envelope; the create
 * worker reads the optional `data` of whatever the api returned, falls back
 * to a fixed message, and on success puts a re-fetch request after the
 * success action.
 */
module MedicalStaffSaga {
  import opened Wrappers
  import opened Effects
  import opened ItemList
  import opened EntityStore
  import opened Multipart
  import opened Text
  import MedicalStaffFormModal
  import opened MedicalStaffSlice

  datatype ApiCall =
    | FetchMedicalStaffApi
    | FetchMedicalStaffDetailApi(id: int)
    | CreateMedicalStaffApi(formData: seq<Part<MedicalStaffFormModal.StaffPayload>>)
    | UpdateMedicalStaffApi(id: int, data: MedicalStaffInput)
    | DeleteMedicalStaffApi(id: int)
    | FetchMedicalStaffByConditionApi(condition: SearchCondition)

  type Run = Script<ApiCall, Action>

  /** Envelope accepted: `success` holds and a result is present. */
  predicate Accepted<R>(o: Outcome<Envelope<R>>) {
    o.Returned? && o.value.success && o.value.result.Some?
  }

  /** `res.data` of the create response, which may lack any of its keys. */
  datatype CreateData = CreateData(success: bool, message: Option<string>, result: Option<MedicalStaff>)

  /** The fallback failure message of create. */
  const CreateFailed: string := "Create failed"

  function FetchMedicalStaffWorker(o: Outcome<Envelope<seq<MedicalStaff>>>): (run: Run)
    ensures run.call == FetchMedicalStaffApi
    ensures Accepted(o) ==> run.puts == [FetchMedicalStaffSuccess(o.value.result.value)]
    ensures o.Returned? && !Accepted(o) ==> run.puts == [FetchMedicalStaffFailure(o.value.message)]
    ensures o.Threw? ==> run.puts == [FetchMedicalStaffFailure(GetErrorMessage(o.err))]
  {
    Script(FetchMedicalStaffApi,
      match Decide(o)
      case Accept(xs) => [FetchMedicalStaffSuccess(xs)]
      case Reject(m) => [FetchMedicalStaffFailure(m)])
  }

  function FetchMedicalStaffDetailWorker(id: int, o: Outcome<Envelope<MedicalStaff>>): (run: Run)
    ensures run.call == FetchMedicalStaffDetailApi(id)
    ensures Accepted(o) ==> run.puts == [FetchMedicalStaffDetailSuccess(o.value.result.value)]
    ensures o.Returned? && !Accepted(o) ==> run.puts == [FetchMedicalStaffDetailFailure(o.value.message)]
    ensures o.Threw? ==> run.puts == [FetchMedicalStaffDetailFailure(GetErrorMessage(o.err))]
  {
    Script(FetchMedicalStaffDetailApi(id),
      match Decide(o)
      case Accept(x) => [FetchMedicalStaffDetailSuccess(x)]
      case Reject(m) => [FetchMedicalStaffDetailFailure(m)])
  }

  /** `res?.data?.success && res?.data?.result`. */
  predicate Created(o: Outcome<Option<CreateData>>)
    ensures o.Threw? ==> !Created(o)
    ensures o == Returned(None) ==> !Created(o)
    ensures o.Returned? && o.value.Some? && !o.value.value.success ==> !Created(o)
    ensures o.Returned? && o.value.Some? && o.value.value.result.None? ==> !Created(o)
  {
    o.Returned? && o.value.Some? && o.value.value.success && o.value.value.result.Some?
  }

  /** `res?.data?.message || "Create failed"`. */
  function CreateMessage(data: Option<CreateData>): (m: string)
    ensures data.Some? && Truthy(data.value.message) ==> m == data.value.message.value
    ensures !(data.Some? && Truthy(data.value.message)) ==> m == CreateFailed
    ensures m != ""
  {
    if data.Some? && Truthy(data.value.message) then data.value.message.value else CreateFailed
  }

  /**
   * The create worker: on success the created member and then a fetch-all
   * request, in that order; otherwise one failure.
   */
  function CreateMedicalStaffWorker(formData: seq<Part<MedicalStaffFormModal.StaffPayload>>,
                                    o: Outcome<Option<CreateData>>): (run: Run)
    ensures run.call == CreateMedicalStaffApi(formData)
    ensures Created(o) ==>
      run.puts == [CreateMedicalStaffSuccess(o.value.value.result.value), FetchMedicalStaffRequest]
    ensures o.Returned? && !Created(o) ==> run.puts == [CreateMedicalStaffFailure(CreateMessage(o.value))]
    ensures o.Threw? ==> run.puts == [CreateMedicalStaffFailure(GetErrorMessage(o.err))]
  {
    Script(CreateMedicalStaffApi(formData),
      if Created(o) then [CreateMedicalStaffSuccess(o.value.value.result.value), FetchMedicalStaffRequest]
      else if o.Returned? then [CreateMedicalStaffFailure(CreateMessage(o.value))]
      else [CreateMedicalStaffFailure(GetErrorMessage(o.err))])
  }

  /** The api receives the payload's id and data unchanged. */
  function UpdateMedicalStaffWorker(id: int, data: MedicalStaffInput, o: Outcome<Envelope<MedicalStaff>>): (run: Run)
    ensures run.call == UpdateMedicalStaffApi(id, data)
    ensures Accepted(o) ==> run.puts == [UpdateMedicalStaffSuccess(o.value.result.value)]
    ensures o.Returned? && !Accepted(o) ==> run.puts == [UpdateMedicalStaffFailure(o.value.message)]
    ensures o.Threw? ==> run.puts == [UpdateMedicalStaffFailure(GetErrorMessage(o.err))]
  {
    Script(UpdateMedicalStaffApi(id, data),
      match Decide(o)
      case Accept(x) => [UpdateMedicalStaffSuccess(x)]
      case Reject(m) => [UpdateMedicalStaffFailure(m)])
  }

  /** Success carries the requested id; the envelope's `result` is never read. */
  function DeleteMedicalStaffWorker(id: int, o: Outcome<Envelope<()>>): (run: Run)
    ensures run.call == DeleteMedicalStaffApi(id)
    ensures o.Returned? && o.value.success ==> run.puts == [DeleteMedicalStaffSuccess(id)]
    ensures o.Returned? && !o.value.success ==> run.puts == [DeleteMedicalStaffFailure(o.value.message)]
    ensures o.Threw? ==> run.puts == [DeleteMedicalStaffFailure(GetErrorMessage(o.err))]
  {
    Script(DeleteMedicalStaffApi(id),
      match DecideDelete(id, o)
      case Accept(k) => [DeleteMedicalStaffSuccess(k)]
      case Reject(m) => [DeleteMedicalStaffFailure(m)])
  }

  function FetchMedicalStaffByConditionWorker(condition: SearchCondition, o: Outcome<Envelope<seq<MedicalStaff>>>): (run: Run)
    ensures run.call == FetchMedicalStaffByConditionApi(condition)
    ensures Accepted(o) ==> run.puts == [FetchMedicalStaffByConditionSuccess(o.value.result.value)]
    ensures o.Returned? && !Accepted(o) ==> run.puts == [FetchMedicalStaffByConditionFailure(o.value.message)]
    ensures o.Threw? ==> run.puts == [FetchMedicalStaffByConditionFailure(GetErrorMessage(o.err))]
  {
    Script(FetchMedicalStaffByConditionApi(condition),
      match Decide(o)
      case Accept(xs) => [FetchMedicalStaffByConditionSuccess(xs)]
      case Reject(m) => [FetchMedicalStaffByConditionFailure(m)])
  }

  /** The state a request leaves once its worker's actions have been reduced too. */
  function Settled(s: MedicalStaffState, request: Action, run: Run): MedicalStaffState {
    ReduceAll(Reduce(s, request), run.puts)
  }

  /** A create answered without `data`, without a message or with an empty one fails with the fallback. */
  lemma CreateFallsBackToFixedMessage(formData: seq<Part<MedicalStaffFormModal.StaffPayload>>, data: Option<CreateData>)
    requires !Created(Returned(data))
    requires data.None? || data.value.message.None? || data.value.message == Some("")
    ensures CreateMedicalStaffWorker(formData, Returned(data)).puts == [CreateMedicalStaffFailure("Create failed")]
  {
  }

  /**
   * A successful create leaves the new member appended and, because of the
   * chained fetch request, the store loading again with no error; a failed
   * create leaves it idle with the old list and the failure message.
   */
  lemma CreateSettles(s: MedicalStaffState, formData: seq<Part<MedicalStaffFormModal.StaffPayload>>,
                      o: Outcome<Option<CreateData>>)
    ensures var t := Settled(s, CreateMedicalStaffRequest(formData), CreateMedicalStaffWorker(formData, o));
      t.upload == s.upload &&
      (Created(o) ==> t.crud.items == s.crud.items + [o.value.value.result.value] && t.crud.loading && t.crud.error == None) &&
      (o.Returned? && !Created(o) ==> t.crud.items == s.crud.items && !t.crud.loading && t.crud.error == Some(CreateMessage(o.value))) &&
      (o.Threw? ==> t.crud.items == s.crud.items && !t.crud.loading && t.crud.error == Some(GetErrorMessage(o.err)))
  {
    var run := CreateMedicalStaffWorker(formData, o);
    var r := Reduce(s, CreateMedicalStaffRequest(formData));
    if Created(o) {
      ReduceAllTwo(r, run.puts[0], run.puts[1]);
    } else {
      ReduceAllOne(r, run.puts[0]);
    }
  }

  /**
   * After a successful create, the chained re-fetch settles the list: the
   * server's list when that fetch is accepted, else the list with the new
   * member appended and the fetch's failure message.
   */
  lemma CreateThenRefetch(s: MedicalStaffState, formData: seq<Part<MedicalStaffFormModal.StaffPayload>>,
                          o: Outcome<Option<CreateData>>, refetch: Outcome<Envelope<seq<MedicalStaff>>>)
    requires Created(o)
    ensures var u := ReduceAll(Settled(s, CreateMedicalStaffRequest(formData), CreateMedicalStaffWorker(formData, o)),
                               FetchMedicalStaffWorker(refetch).puts);
      !u.crud.loading &&
      (Accepted(refetch) ==> u.crud.items == refetch.value.result.value && u.crud.error == None) &&
      (!Accepted(refetch) ==>
         u.crud.items == s.crud.items + [o.value.value.result.value] && u.crud.error == Some(Decide(refetch).message))
  {
    CreateSettles(s, formData, o);
    var t := Settled(s, CreateMedicalStaffRequest(formData), CreateMedicalStaffWorker(formData, o));
    ReduceAllOne(t, FetchMedicalStaffWorker(refetch).puts[0]);
  }

  /** A fetch ends idle with the fetched list and no error, or the old list and the failure message. */
  lemma FetchSettles(s: MedicalStaffState, o: Outcome<Envelope<seq<MedicalStaff>>>)
    ensures var t := Settled(s, FetchMedicalStaffRequest, FetchMedicalStaffWorker(o));
      !t.crud.loading &&
      (Accepted(o) ==> t.crud.items == o.value.result.value && t.crud.error == None) &&
      (!Accepted(o) ==> t.crud.items == s.crud.items && t.crud.error == Some(Decide(o).message))
  {
    var run := FetchMedicalStaffWorker(o);
    ReduceAllOne(Reduce(s, FetchMedicalStaffRequest), run.puts[0]);
  }

  /** A by-condition search settles like a fetch. */
  lemma FetchByConditionSettles(s: MedicalStaffState, c: SearchCondition, o: Outcome<Envelope<seq<MedicalStaff>>>)
    ensures var t := Settled(s, FetchMedicalStaffByConditionRequest(c), FetchMedicalStaffByConditionWorker(c, o));
      !t.crud.loading &&
      (Accepted(o) ==> t.crud.items == o.value.result.value && t.crud.error == None) &&
      (!Accepted(o) ==> t.crud.items == s.crud.items && t.crud.error == Some(Decide(o).message))
  {
    var run := FetchMedicalStaffByConditionWorker(c, o);
    ReduceAllOne(Reduce(s, FetchMedicalStaffByConditionRequest(c)), run.puts[0]);
  }

  /** A detail fetch ends idle with exactly that member listed, or the old list and the failure message. */
  lemma DetailSettles(s: MedicalStaffState, id: int, o: Outcome<Envelope<MedicalStaff>>)
    ensures var t := Settled(s, FetchMedicalStaffDetailRequest(id), FetchMedicalStaffDetailWorker(id, o));
      !t.crud.loading &&
      (Accepted(o) ==> t.crud.items == [o.value.result.value] && t.crud.error == None) &&
      (!Accepted(o) ==> t.crud.items == s.crud.items && t.crud.error == Some(Decide(o).message))
  {
    var run := FetchMedicalStaffDetailWorker(id, o);
    ReduceAllOne(Reduce(s, FetchMedicalStaffDetailRequest(id)), run.puts[0]);
  }

  /** An update ends idle with the id-matching members replaced, or the old list and the failure message. */
  lemma UpdateSettles(s: MedicalStaffState, id: int, data: MedicalStaffInput, o: Outcome<Envelope<MedicalStaff>>)
    ensures var t := Settled(s, UpdateMedicalStaffRequest(id, data), UpdateMedicalStaffWorker(id, data, o));
      !t.crud.loading &&
      (Accepted(o) ==> t.crud.items == ReplaceById(s.crud.items, IdOf, o.value.result.value) && t.crud.error == None) &&
      (!Accepted(o) ==> t.crud.items == s.crud.items && t.crud.error == Some(Decide(o).message))
  {
    var run := UpdateMedicalStaffWorker(id, data, o);
    ReduceAllOne(Reduce(s, UpdateMedicalStaffRequest(id, data)), run.puts[0]);
  }

  /** A delete ends idle with the requested id gone, or the old list and the failure message. */
  lemma DeleteSettles(s: MedicalStaffState, id: int, o: Outcome<Envelope<()>>)
    ensures var t := Settled(s, DeleteMedicalStaffRequest(id), DeleteMedicalStaffWorker(id, o));
      !t.crud.loading &&
      (DecideDelete(id, o).Accept? ==> t.crud.items == RemoveById(s.crud.items, IdOf, id) && t.crud.error == None) &&
      (DecideDelete(id, o).Reject? ==> t.crud.items == s.crud.items && t.crud.error == Some(DecideDelete(id, o).message))
  {
    var run := DeleteMedicalStaffWorker(id, o);
    var v := DecideDelete(id, o);
    var r := Reduce(s, DeleteMedicalStaffRequest(id));
    if v.Accept? {
      assert run.puts == [DeleteMedicalStaffSuccess(id)];
      ReduceAllOne(r, DeleteMedicalStaffSuccess(id));
    } else {
      assert run.puts == [DeleteMedicalStaffFailure(v.message)];
      ReduceAllOne(r, DeleteMedicalStaffFailure(v.message));
    }
  }
}
