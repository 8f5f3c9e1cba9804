/**
 * The `medicalStaff` slice: the staff record, the eighteen actions, the
 * reducer as a pure function and the store object whose `Dispatch` is proved
 * to agree with it.  The state declares the three image-upload fields but no
 * reducer writes them.
 */
module MedicalStaffSlice {
  import opened Wrappers
  import opened Effects
  import opened ItemList
  import opened EntityStore
  import opened Multipart
  import MedicalStaffFormModal

  datatype MedicalStaff = MedicalStaff(
    id: int,
    username: Option<string>,
    email: Option<string>,
    status: Option<string>,
    domainRole: Option<string>,
    fullName: Option<string>,
    officeLocation: Option<string>,
    bio: Option<int>,
    phone: Option<string>)

  /**
   * The update payload, as the medical-staff page builds it: the dialog's
   * fields with the id selects' null turned into an absent key and the file
   * defaulting to null.
   */
  datatype MedicalStaffInput = MedicalStaffInput(
    staffId: string,
    name: string,
    gender: Option<string>,
    birthDate: Option<string>,
    phone: Option<string>,
    email: Option<string>,
    hireDate: Option<string>,
    departmentId: Option<int>,
    positionId: Option<int>,
    status: Option<string>,
    profileImageFile: Nullable<File>)

  /** `SearchCondition`; the page passes any condition string through (`as any`). */
  datatype SearchCondition = SearchCondition(condition: string, value: string)

  function IdOf(m: MedicalStaff): int { m.id }

  datatype Action =
    | FetchMedicalStaffRequest
    | FetchMedicalStaffSuccess(staff: seq<MedicalStaff>)
    | FetchMedicalStaffFailure(message: string)
    | FetchMedicalStaffDetailRequest(id: int)
    | FetchMedicalStaffDetailSuccess(member: MedicalStaff)
    | FetchMedicalStaffDetailFailure(message: string)
    | CreateMedicalStaffRequest(formData: seq<Part<MedicalStaffFormModal.StaffPayload>>)
    | CreateMedicalStaffSuccess(member: MedicalStaff)
    | CreateMedicalStaffFailure(message: string)
    | UpdateMedicalStaffRequest(id: int, data: MedicalStaffInput)
    | UpdateMedicalStaffSuccess(member: MedicalStaff)
    | UpdateMedicalStaffFailure(message: string)
    | DeleteMedicalStaffRequest(id: int)
    | DeleteMedicalStaffSuccess(id: int)
    | DeleteMedicalStaffFailure(message: string)
    | FetchMedicalStaffByConditionRequest(condition: SearchCondition)
    | FetchMedicalStaffByConditionSuccess(staff: seq<MedicalStaff>)
    | FetchMedicalStaffByConditionFailure(message: string)
  {
    predicate IsRequest() {
      FetchMedicalStaffRequest? || FetchMedicalStaffDetailRequest? || CreateMedicalStaffRequest?
      || UpdateMedicalStaffRequest? || DeleteMedicalStaffRequest? || FetchMedicalStaffByConditionRequest?
    }

    predicate IsFailure() {
      FetchMedicalStaffFailure? || FetchMedicalStaffDetailFailure? || CreateMedicalStaffFailure?
      || UpdateMedicalStaffFailure? || DeleteMedicalStaffFailure? || FetchMedicalStaffByConditionFailure?
    }
  }

  datatype MedicalStaffState = MedicalStaffState(crud: CrudState<MedicalStaff>, upload: UploadState)

  function Initial(): (r: MedicalStaffState)
    ensures r.crud.items == [] && !r.crud.loading && r.crud.error == None
    ensures r.crud.apiresponse == Envelope(false, "", None)
    ensures r.upload.imageUploadUrl == None && !r.upload.imageUploading && r.upload.imageUploadError == None
  {
    MedicalStaffState(InitialCrud(), InitialUpload())
  }

  /** The slice reducer; every case writes only the shared fields. */
  function Reduce(s: MedicalStaffState, a: Action): (r: MedicalStaffState)
    ensures r.upload == s.upload
  {
    s.(crud := ReduceCrud(s.crud, a))
  }

  /** The case reducers on the shared fields. */
  function ReduceCrud(c: CrudState<MedicalStaff>, a: Action): (r: CrudState<MedicalStaff>)
    ensures r.loading <==> a.IsRequest()
    ensures a.IsRequest() || a.IsFailure() ==> r.items == c.items
    ensures r.apiresponse == c.apiresponse
  {
    match a
    case FetchMedicalStaffRequest => Requested(c)
    case FetchMedicalStaffSuccess(xs) => Loaded(c, xs)
    case FetchMedicalStaffFailure(m) => Failed(c, m)
    case FetchMedicalStaffDetailRequest(_) => Requested(c)
    case FetchMedicalStaffDetailSuccess(x) => Loaded(c, [x])
    case FetchMedicalStaffDetailFailure(m) => Failed(c, m)
    case CreateMedicalStaffRequest(_) => Requested(c)
    case CreateMedicalStaffSuccess(x) => Appended(c, x)
    case CreateMedicalStaffFailure(m) => Failed(c, m)
    case UpdateMedicalStaffRequest(_, _) => Requested(c)
    case UpdateMedicalStaffSuccess(x) => Replaced(c, IdOf, x)
    case UpdateMedicalStaffFailure(m) => Failed(c, m)
    case DeleteMedicalStaffRequest(_) => Requested(c)
    case DeleteMedicalStaffSuccess(id) => Removed(c, IdOf, id)
    case DeleteMedicalStaffFailure(m) => Failed(c, m)
    case FetchMedicalStaffByConditionRequest(_) => Requested(c)
    case FetchMedicalStaffByConditionSuccess(xs) => Loaded(c, xs)
    case FetchMedicalStaffByConditionFailure(m) => Failed(c, m)
  }

  function ReduceAll(s: MedicalStaffState, acts: seq<Action>): MedicalStaffState
    decreases |acts|
  {
    if acts == [] then s else ReduceAll(Reduce(s, acts[0]), acts[1..])
  }

  lemma ReduceAllOne(s: MedicalStaffState, a: Action)
    ensures ReduceAll(s, [a]) == Reduce(s, a)
  {
    assert [a][1..] == [];
  }

  lemma ReduceAllTwo(s: MedicalStaffState, a: Action, b: Action)
    ensures ReduceAll(s, [a, b]) == Reduce(Reduce(s, a), b)
  {
    assert [a, b][1..] == [b];
    ReduceAllOne(Reduce(s, a), b);
  }

  /** Every request starts loading, clears the error and leaves the items alone. */
  lemma RequestStartsLoading(s: MedicalStaffState, a: Action)
    requires a.IsRequest()
    ensures Reduce(s, a).crud.loading && Reduce(s, a).crud.error == None
    ensures Reduce(s, a).crud.items == s.crud.items
  {
  }

  /** Every failure stops loading and records its message, leaving the items alone. */
  lemma FailureRecordsMessage(s: MedicalStaffState, a: Action)
    requires a.IsFailure()
    ensures !Reduce(s, a).crud.loading && Reduce(s, a).crud.error == Some(a.message)
    ensures Reduce(s, a).crud.items == s.crud.items
  {
  }

  /** Success actions stop loading and leave `error` as it was. */
  lemma SuccessKeepsError(s: MedicalStaffState, a: Action)
    requires !a.IsRequest() && !a.IsFailure()
    ensures !Reduce(s, a).crud.loading && Reduce(s, a).crud.error == s.crud.error
  {
  }

  /** Fetch and by-condition success make the payload the item list; detail success makes it `[payload]`. */
  lemma FetchSuccessReplacesItems(s: MedicalStaffState, xs: seq<MedicalStaff>, x: MedicalStaff)
    ensures Reduce(s, FetchMedicalStaffSuccess(xs)).crud.items == xs
    ensures Reduce(s, FetchMedicalStaffByConditionSuccess(xs)).crud.items == xs
    ensures Reduce(s, FetchMedicalStaffDetailSuccess(x)).crud.items == [x]
  {
  }

  /** Create success appends the new member after the old items. */
  lemma CreateSuccessAppends(s: MedicalStaffState, x: MedicalStaff)
    ensures var r := Reduce(s, CreateMedicalStaffSuccess(x)).crud.items;
      |r| == |s.crud.items| + 1 && r[..|s.crud.items|] == s.crud.items && r[|s.crud.items|] == x
  {
  }

  /** Update success rewrites every member with the payload's id and keeps the others in place. */
  lemma UpdateSuccessReplacesById(s: MedicalStaffState, x: MedicalStaff)
    ensures var r := Reduce(s, UpdateMedicalStaffSuccess(x)).crud.items;
      |r| == |s.crud.items| &&
      (forall i :: 0 <= i < |r| ==> r[i] == if s.crud.items[i].id == x.id then x else s.crud.items[i])
    ensures !HasId(s.crud.items, IdOf, x.id) ==> Reduce(s, UpdateMedicalStaffSuccess(x)).crud.items == s.crud.items
  {
    if !HasId(s.crud.items, IdOf, x.id) {
      ReplaceAbsentIsIdentity(s.crud.items, IdOf, x);
    }
  }

  /** Delete success removes exactly the members with that id. */
  lemma DeleteSuccessRemovesById(s: MedicalStaffState, id: int)
    ensures var r := Reduce(s, DeleteMedicalStaffSuccess(id)).crud.items;
      !HasId(r, IdOf, id) &&
      (forall y :: y in s.crud.items && y.id != id ==> y in r) &&
      (forall y :: y in r ==> y in s.crud.items) &&
      r == RemoveById(s.crud.items, IdOf, id)
  {
    assert Reduce(s, DeleteMedicalStaffSuccess(id)).crud == Removed(s.crud, IdOf, id);
    RemoveRemovesExactly(s.crud.items, IdOf, id);
  }


  /** No sequence of actions writes the upload fields or `apiresponse`: they keep their initial values. */
  lemma {:induction false} UploadFieldsNeverChange(s: MedicalStaffState, acts: seq<Action>)
    ensures ReduceAll(s, acts).upload == s.upload
    ensures ReduceAll(s, acts).crud.apiresponse == s.crud.apiresponse
    decreases |acts|
  {
    if acts != [] {
      UploadFieldsNeverChange(Reduce(s, acts[0]), acts[1..]);
    }
  }

  /** The store: `medicalStaffSlice.reducer` applied to the draft in place. */
  class MedicalStaffStore {
    const crud: Store<MedicalStaff>
    const imageUploadUrl: Option<string>
    const imageUploading: bool
    const imageUploadError: Option<string>

    ghost predicate Valid()
      reads this
    {
      crud.idOf == IdOf
    }

    function State(): MedicalStaffState
      reads this, crud
    {
      MedicalStaffState(crud.State(), UploadState(imageUploadUrl, imageUploading, imageUploadError))
    }

    constructor ()
      ensures Valid() && fresh(crud)
      ensures State() == Initial()
    {
      crud := new Store(IdOf);
      imageUploadUrl := None;
      imageUploading := false;
      imageUploadError := None;
    }

    method Dispatch(a: Action)
      requires Valid()
      modifies crud
      ensures State() == Reduce(old(State()), a)
    {
      if a.IsRequest() {
        crud.Request();
      } else if a.IsFailure() {
        crud.Fail(a.message);
      } else if a.FetchMedicalStaffSuccess? || a.FetchMedicalStaffByConditionSuccess? {
        crud.Load(a.staff);
      } else if a.FetchMedicalStaffDetailSuccess? {
        crud.LoadOne(a.member);
      } else if a.CreateMedicalStaffSuccess? {
        crud.Push(a.member);
      } else if a.UpdateMedicalStaffSuccess? {
        crud.Replace(a.member);
      } else {
        crud.Remove(a.id);
      }
    }
  }
}
