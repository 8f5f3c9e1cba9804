/**
 * The `employees` slice: the employee record, the twenty-two actions, the
 * reducer table (the shared list/status reducers plus the image-upload
 * sub-machine) as a pure function, and the store object whose `Dispatch`
 * is proved to agree with it.
 */
module EmployeesSlice {
  import opened Wrappers
  import opened Effects
  import opened ItemList
  import opened EntityStore
  import opened Multipart
  import EmployeeForm

  datatype Employee = Employee(
    id: int,
    employeeId: string,
    name: string,
    emailLocal: Option<string>,
    emailDomain: Option<string>,
    email: Option<string>,
    department: Option<string>,
    gender: Option<string>,
    birthDate: Option<string>,
    phonePrefix: Option<string>,
    phoneMiddle: Option<string>,
    phoneLast: Option<string>,
    phone: Option<string>,
    zipCode: Option<string>,
    address1: Option<string>,
    address2: Option<string>,
    position: Option<string>,
    profileImageUrl: Option<string>,
    createdAt: Option<string>,
    updatedAt: Option<string>)

  /** `EmployeeInput`: an employee without `id`, `createdAt` and `updatedAt`. */
  datatype EmployeeInput = EmployeeInput(
    employeeId: string,
    name: string,
    emailLocal: Option<string>,
    emailDomain: Option<string>,
    email: Option<string>,
    department: Option<string>,
    gender: Option<string>,
    birthDate: Option<string>,
    phonePrefix: Option<string>,
    phoneMiddle: Option<string>,
    phoneLast: Option<string>,
    phone: Option<string>,
    zipCode: Option<string>,
    address1: Option<string>,
    address2: Option<string>,
    position: Option<string>,
    profileImageUrl: Option<string>)

  /** `SearchCondition`: the employee key to search on, by name, and the value. */
  datatype SearchCondition = SearchCondition(condition: string, value: string)

  function IdOf(e: Employee): int { e.id }

  datatype Action =
    | FetchEmployeesRequest
    | FetchEmployeesSuccess(employees: seq<Employee>)
    | FetchEmployeesFailure(message: string)
    | FetchEmployeeRequest(id: int)
    | FetchEmployeeSuccess(employee: Employee)
    | FetchEmployeeFailure(message: string)
    | CreateEmployeeRequest(formData: seq<Part<EmployeeForm.Form>>)
    | CreateEmployeeSuccess(employee: Employee)
    | CreateEmployeeFailure(message: string)
    | UpdateEmployeeRequest(id: int, data: EmployeeInput)
    | UpdateEmployeeSuccess(employee: Employee)
    | UpdateEmployeeFailure(message: string)
    | DeleteEmployeeRequest(id: int)
    | DeleteEmployeeSuccess(id: int)
    | DeleteEmployeeFailure(message: string)
    | UploadEmployeeImageRequest(file: File)
    | UploadEmployeeImageSuccess(url: string)
    | UploadEmployeeImageFailure(message: string)
    | ResetEmployeeImageUpload
    | FetchEmployeesByConditionRequest(condition: SearchCondition)
    | FetchEmployeesByConditionSuccess(employees: seq<Employee>)
    | FetchEmployeesByConditionFailure(message: string)
  {
    /** The four actions of the image-upload sub-machine. */
    predicate IsUpload() {
      UploadEmployeeImageRequest? || UploadEmployeeImageSuccess? || UploadEmployeeImageFailure?
      || ResetEmployeeImageUpload?
    }

    predicate IsRequest() {
      FetchEmployeesRequest? || FetchEmployeeRequest? || CreateEmployeeRequest?
      || UpdateEmployeeRequest? || DeleteEmployeeRequest? || FetchEmployeesByConditionRequest?
    }

    predicate IsFailure() {
      FetchEmployeesFailure? || FetchEmployeeFailure? || CreateEmployeeFailure?
      || UpdateEmployeeFailure? || DeleteEmployeeFailure? || FetchEmployeesByConditionFailure?
    }
  }

  datatype EmployeesState = EmployeesState(crud: CrudState<Employee>, upload: UploadState)

  function Initial(): (r: EmployeesState)
    ensures r.crud.items == [] && !r.crud.loading && r.crud.error == None
    ensures r.crud.apiresponse == Envelope(false, "", None)
    ensures r.upload.imageUploadUrl == None && !r.upload.imageUploading && r.upload.imageUploadError == None
  {
    EmployeesState(InitialCrud(), InitialUpload())
  }

  /** The upload reducers, which write only the three upload fields. */
  function ReduceUpload(u: UploadState, a: Action): (r: UploadState)
    requires a.IsUpload()
    ensures r.imageUploading <==> a.UploadEmployeeImageRequest?
    ensures r.imageUploadUrl.Some? <==> a.UploadEmployeeImageSuccess? || (a.UploadEmployeeImageFailure? && u.imageUploadUrl.Some?)
    ensures r.imageUploadError.Some? <==> a.UploadEmployeeImageFailure? || (a.UploadEmployeeImageSuccess? && u.imageUploadError.Some?)
  {
    match a
    case UploadEmployeeImageRequest(_) =>
      u.(imageUploading := true, imageUploadError := None, imageUploadUrl := None)
    case UploadEmployeeImageSuccess(url) => u.(imageUploading := false, imageUploadUrl := Some(url))
    case UploadEmployeeImageFailure(m) => u.(imageUploading := false, imageUploadError := Some(m))
    case ResetEmployeeImageUpload => InitialUpload()
  }

  /** The list and status reducers, which write only the shared fields. */
  function ReduceCrud(c: CrudState<Employee>, a: Action): (r: CrudState<Employee>)
    requires !a.IsUpload()
    ensures r.loading <==> a.IsRequest()
    ensures a.IsRequest() || a.IsFailure() ==> r.items == c.items
    ensures r.apiresponse == c.apiresponse
  {
    match a
    case FetchEmployeesRequest => Requested(c)
    case FetchEmployeesSuccess(xs) => Loaded(c, xs)
    case FetchEmployeesFailure(m) => Failed(c, m)
    case FetchEmployeeRequest(_) => Requested(c)
    case FetchEmployeeSuccess(e) => Loaded(c, [e])
    case FetchEmployeeFailure(m) => Failed(c, m)
    case CreateEmployeeRequest(_) => Requested(c)
    case CreateEmployeeSuccess(e) => Appended(c, e)
    case CreateEmployeeFailure(m) => Failed(c, m)
    case UpdateEmployeeRequest(_, _) => Requested(c)
    case UpdateEmployeeSuccess(e) => Replaced(c, IdOf, e)
    case UpdateEmployeeFailure(m) => Failed(c, m)
    case DeleteEmployeeRequest(_) => Requested(c)
    case DeleteEmployeeSuccess(id) => Removed(c, IdOf, id)
    case DeleteEmployeeFailure(m) => Failed(c, m)
    case FetchEmployeesByConditionRequest(_) => Requested(c)
    case FetchEmployeesByConditionSuccess(xs) => Loaded(c, xs)
    case FetchEmployeesByConditionFailure(m) => Failed(c, m)
  }

  /** The slice reducer. */
  function Reduce(s: EmployeesState, a: Action): (r: EmployeesState)
    ensures a.IsUpload() ==> r.crud == s.crud
    ensures !a.IsUpload() ==> r.upload == s.upload
  {
    if a.IsUpload() then s.(upload := ReduceUpload(s.upload, a))
    else s.(crud := ReduceCrud(s.crud, a))
  }

  function ReduceAll(s: EmployeesState, acts: seq<Action>): EmployeesState
    decreases |acts|
  {
    if acts == [] then s else ReduceAll(Reduce(s, acts[0]), acts[1..])
  }

  lemma ReduceAllOne(s: EmployeesState, a: Action)
    ensures ReduceAll(s, [a]) == Reduce(s, a)
  {
    assert [a][1..] == [];
  }

  /** Every request starts loading, clears the error, and leaves the items and the upload fields alone. */
  lemma RequestStartsLoading(s: EmployeesState, a: Action)
    requires a.IsRequest()
    ensures Reduce(s, a).crud.loading && Reduce(s, a).crud.error == None
    ensures Reduce(s, a).crud.items == s.crud.items && Reduce(s, a).upload == s.upload
  {
  }

  /** Every failure stops loading and records its message, leaving the items alone. */
  lemma FailureRecordsMessage(s: EmployeesState, a: Action)
    requires a.IsFailure()
    ensures !Reduce(s, a).crud.loading && Reduce(s, a).crud.error == Some(a.message)
    ensures Reduce(s, a).crud.items == s.crud.items && Reduce(s, a).upload == s.upload
  {
  }

  /** Success actions of the list stop loading and leave `error` as it was. */
  lemma SuccessKeepsError(s: EmployeesState, a: Action)
    requires !a.IsRequest() && !a.IsFailure() && !a.IsUpload()
    ensures !Reduce(s, a).crud.loading && Reduce(s, a).crud.error == s.crud.error
  {
  }

  /** Fetch-all and by-condition success make the payload the item list; fetch-one makes it `[payload]`. */
  lemma FetchSuccessReplacesItems(s: EmployeesState, xs: seq<Employee>, e: Employee)
    ensures Reduce(s, FetchEmployeesSuccess(xs)).crud.items == xs
    ensures Reduce(s, FetchEmployeesByConditionSuccess(xs)).crud.items == xs
    ensures Reduce(s, FetchEmployeeSuccess(e)).crud.items == [e]
  {
  }

  /** Create success appends the new employee after the old items. */
  lemma CreateSuccessAppends(s: EmployeesState, e: Employee)
    ensures var r := Reduce(s, CreateEmployeeSuccess(e)).crud.items;
      |r| == |s.crud.items| + 1 && r[..|s.crud.items|] == s.crud.items && r[|s.crud.items|] == e
  {
  }

  /** Update success rewrites every employee with the payload's id and keeps the others. */
  lemma UpdateSuccessReplacesById(s: EmployeesState, e: Employee)
    ensures var r := Reduce(s, UpdateEmployeeSuccess(e)).crud.items;
      |r| == |s.crud.items| &&
      (forall i :: 0 <= i < |r| ==> r[i] == if s.crud.items[i].id == e.id then e else s.crud.items[i])
    ensures !HasId(s.crud.items, IdOf, e.id) ==> Reduce(s, UpdateEmployeeSuccess(e)).crud.items == s.crud.items
  {
    if !HasId(s.crud.items, IdOf, e.id) {
      ReplaceAbsentIsIdentity(s.crud.items, IdOf, e);
    }
  }

  /** Delete success removes exactly the employees with that id. */
  lemma DeleteSuccessRemovesById(s: EmployeesState, id: int)
    ensures var r := Reduce(s, DeleteEmployeeSuccess(id)).crud.items;
      !HasId(r, IdOf, id) &&
      (forall y :: y in s.crud.items && y.id != id ==> y in r) &&
      (forall y :: y in r ==> y in s.crud.items) &&
      r == RemoveById(s.crud.items, IdOf, id)
  {
    assert Reduce(s, DeleteEmployeeSuccess(id)).crud == Removed(s.crud, IdOf, id);
    RemoveRemovesExactly(s.crud.items, IdOf, id);
  }


  /** The upload sub-machine, one transition at a time; none of them touches the list, `loading` or `error`. */
  lemma UploadTransitions(s: EmployeesState, f: File, url: string, m: string)
    ensures var u := Reduce(s, UploadEmployeeImageRequest(f)).upload;
      u.imageUploading && u.imageUploadUrl == None && u.imageUploadError == None
    ensures var u := Reduce(s, UploadEmployeeImageSuccess(url)).upload;
      !u.imageUploading && u.imageUploadUrl == Some(url) && u.imageUploadError == s.upload.imageUploadError
    ensures var u := Reduce(s, UploadEmployeeImageFailure(m)).upload;
      !u.imageUploading && u.imageUploadError == Some(m) && u.imageUploadUrl == s.upload.imageUploadUrl
    ensures Reduce(s, ResetEmployeeImageUpload).upload == Initial().upload
    ensures forall a: Action :: a.IsUpload() ==> Reduce(s, a).crud == s.crud
  {
  }

  /** The upload fields change only through the upload actions. */
  lemma {:induction false} UploadOnlyByUploadActions(s: EmployeesState, acts: seq<Action>)
    requires forall i :: 0 <= i < |acts| ==> !acts[i].IsUpload()
    ensures ReduceAll(s, acts).upload == s.upload
    decreases |acts|
  {
    if acts != [] {
      UploadOnlyByUploadActions(Reduce(s, acts[0]), acts[1..]);
    }
  }

  /** No reducer writes `apiresponse`. */
  lemma {:induction false} ApiResponseNeverChanges(s: EmployeesState, acts: seq<Action>)
    ensures ReduceAll(s, acts).crud.apiresponse == s.crud.apiresponse
    decreases |acts|
  {
    if acts != [] {
      ApiResponseNeverChanges(Reduce(s, acts[0]), acts[1..]);
    }
  }

  /** The store: `employeesSlice.reducer` applied to the draft in place. */
  class EmployeesStore {
    const crud: Store<Employee>
    var imageUploadUrl: Option<string>
    var imageUploading: bool
    var imageUploadError: Option<string>

    ghost predicate Valid()
      reads this
    {
      crud.idOf == IdOf
    }

    function State(): EmployeesState
      reads this, crud
    {
      EmployeesState(crud.State(), UploadState(imageUploadUrl, imageUploading, imageUploadError))
    }

    constructor ()
      ensures Valid() && fresh(crud)
      ensures State() == Initial()
    {
      crud := new Store(IdOf);
      imageUploadUrl := None;
      imageUploading := false;
      imageUploadError := None;
    }

    method Dispatch(a: Action)
      requires Valid()
      modifies this, crud
      ensures State() == Reduce(old(State()), a)
    {
      if a.IsUpload() {
        DispatchUpload(a);
      } else {
        DispatchCrud(a);
      }
    }

    /** The upload case reducers, which assign only the three upload fields. */
    method DispatchUpload(a: Action)
      requires a.IsUpload()
      modifies this
      ensures UploadState(imageUploadUrl, imageUploading, imageUploadError)
           == ReduceUpload(old(UploadState(imageUploadUrl, imageUploading, imageUploadError)), a)
    {
      match a
      case UploadEmployeeImageRequest(_) =>
        imageUploading := true;
        imageUploadError := None;
        imageUploadUrl := None;
      case UploadEmployeeImageSuccess(url) =>
        imageUploading := false;
        imageUploadUrl := Some(url);
      case UploadEmployeeImageFailure(m) =>
        imageUploading := false;
        imageUploadError := Some(m);
      case ResetEmployeeImageUpload =>
        imageUploading := false;
        imageUploadUrl := None;
        imageUploadError := None;
    }

    /** The list and status case reducers, which assign only the shared fields. */
    method DispatchCrud(a: Action)
      requires Valid() && !a.IsUpload()
      modifies crud
      ensures crud.State() == ReduceCrud(old(crud.State()), a)
    {
      if a.IsRequest() {
        crud.Request();
      } else if a.IsFailure() {
        crud.Fail(a.message);
      } else if a.FetchEmployeesSuccess? || a.FetchEmployeesByConditionSuccess? {
        crud.Load(a.employees);
      } else if a.FetchEmployeeSuccess? {
        crud.LoadOne(a.employee);
      } else if a.CreateEmployeeSuccess? {
        crud.Push(a.employee);
      } else if a.UpdateEmployeeSuccess? {
        crud.Replace(a.employee);
      } else {
        crud.Remove(a.id);
      }
    }
  }
}
