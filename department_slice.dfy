/**
 * The `department` slice: its record, its twelve actions, the reducer table
 * as a pure function on the state, and the store object whose `Dispatch`
 * is proved to agree with it.
 */
module DepartmentSlice {
  import opened Wrappers
  import opened Effects
  import opened ItemList
  import opened EntityStore

  datatype Department = Department(
    id: int,
    name: string,
    buildingNo: Option<string>,
    floorNo: Option<string>,
    roomNo: Option<string>,
    headMedicalStaffId: Option<Nullable<int>>,
    extension: Option<string>,
    status: Option<string>)

  /** `DepartmentInput`: a department without its `id`. */
  datatype DepartmentInput = DepartmentInput(
    name: string,
    buildingNo: Option<string>,
    floorNo: Option<string>,
    roomNo: Option<string>,
    headMedicalStaffId: Option<Nullable<int>>,
    extension: Option<string>,
    status: Option<string>)

  function IdOf(d: Department): int { d.id }

  datatype Action =
    | FetchDepartmentsRequest
    | FetchDepartmentsSuccess(departments: seq<Department>)
    | FetchDepartmentsFailure(message: string)
    | CreateDepartmentRequest(input: DepartmentInput)
    | CreateDepartmentSuccess(department: Department)
    | CreateDepartmentFailure(message: string)
    | UpdateDepartmentRequest(id: int, data: DepartmentInput)
    | UpdateDepartmentSuccess(department: Department)
    | UpdateDepartmentFailure(message: string)
    | DeleteDepartmentRequest(id: int)
    | DeleteDepartmentSuccess(id: int)
    | DeleteDepartmentFailure(message: string)
  {
    predicate IsRequest() {
      FetchDepartmentsRequest? || CreateDepartmentRequest? || UpdateDepartmentRequest? || DeleteDepartmentRequest?
    }

    predicate IsFailure() {
      FetchDepartmentsFailure? || CreateDepartmentFailure? || UpdateDepartmentFailure? || DeleteDepartmentFailure?
    }
  }

  type DepartmentState = CrudState<Department>

  function Initial(): (r: DepartmentState)
    ensures r.items == [] && !r.loading && r.error == None
    ensures r.apiresponse == Envelope(false, "", None)
  {
    InitialCrud()
  }

  /** The slice reducer: the case reducer of `a`'s type applied to `s`. */
  function Reduce(s: DepartmentState, a: Action): (r: DepartmentState)
    ensures r.loading <==> a.IsRequest()
    ensures a.IsRequest() || a.IsFailure() ==> r.items == s.items
    ensures r.apiresponse == s.apiresponse
  {
    match a
    case FetchDepartmentsRequest => Requested(s)
    case FetchDepartmentsSuccess(xs) => Loaded(s, xs)
    case FetchDepartmentsFailure(m) => Failed(s, m)
    case CreateDepartmentRequest(_) => Requested(s)
    case CreateDepartmentSuccess(d) => Appended(s, d)
    case CreateDepartmentFailure(m) => Failed(s, m)
    case UpdateDepartmentRequest(_, _) => Requested(s)
    case UpdateDepartmentSuccess(d) => Replaced(s, IdOf, d)
    case UpdateDepartmentFailure(m) => Failed(s, m)
    case DeleteDepartmentRequest(_) => Requested(s)
    case DeleteDepartmentSuccess(id) => Removed(s, IdOf, id)
    case DeleteDepartmentFailure(m) => Failed(s, m)
  }

  /** The state after the store has reduced `acts` in order. */
  function ReduceAll(s: DepartmentState, acts: seq<Action>): DepartmentState
    decreases |acts|
  {
    if acts == [] then s else ReduceAll(Reduce(s, acts[0]), acts[1..])
  }

  /** Reducing a one-action batch is reducing that action. */
  lemma ReduceAllOne(s: DepartmentState, a: Action)
    ensures ReduceAll(s, [a]) == Reduce(s, a)
  {
    assert [a][1..] == [];
  }

  /** Every request starts loading and clears the error, and touches nothing else. */
  lemma RequestStartsLoading(s: DepartmentState, a: Action)
    requires a.IsRequest()
    ensures Reduce(s, a).loading && Reduce(s, a).error == None
    ensures Reduce(s, a).items == s.items && Reduce(s, a).apiresponse == s.apiresponse
  {
  }

  /** Every failure stops loading and records its message, leaving the items alone. */
  lemma FailureRecordsMessage(s: DepartmentState, a: Action)
    requires a.IsFailure()
    ensures !Reduce(s, a).loading && Reduce(s, a).error == Some(a.message)
    ensures Reduce(s, a).items == s.items
  {
  }

  /** Success actions stop loading and leave `error` as it was. */
  lemma SuccessKeepsError(s: DepartmentState, a: Action)
    requires !a.IsRequest() && !a.IsFailure()
    ensures !Reduce(s, a).loading && Reduce(s, a).error == s.error
  {
  }

  /** Fetch success makes the payload the item list, exactly and in order. */
  lemma FetchSuccessReplacesItems(s: DepartmentState, xs: seq<Department>)
    ensures Reduce(s, FetchDepartmentsSuccess(xs)).items == xs
  {
  }

  /** Create success appends the new department after the old items. */
  lemma CreateSuccessAppends(s: DepartmentState, d: Department)
    ensures var r := Reduce(s, CreateDepartmentSuccess(d)).items;
      |r| == |s.items| + 1 && r[..|s.items|] == s.items && r[|s.items|] == d
  {
  }

  /** Update success rewrites only the departments with the payload's id, and is a no-op when there is none. */
  lemma UpdateSuccessReplacesById(s: DepartmentState, d: Department)
    ensures var r := Reduce(s, UpdateDepartmentSuccess(d)).items;
      |r| == |s.items| &&
      (forall i :: 0 <= i < |r| ==> r[i] == if s.items[i].id == d.id then d else s.items[i])
    ensures !HasId(s.items, IdOf, d.id) ==> Reduce(s, UpdateDepartmentSuccess(d)).items == s.items
  {
    if !HasId(s.items, IdOf, d.id) {
      ReplaceAbsentIsIdentity(s.items, IdOf, d);
    }
  }

  /** Delete success removes all and only the departments with that id. */
  lemma DeleteSuccessRemovesById(s: DepartmentState, id: int)
    ensures var r := Reduce(s, DeleteDepartmentSuccess(id)).items;
      !HasId(r, IdOf, id) &&
      (forall y :: y in s.items && y.id != id ==> y in r) &&
      (forall y :: y in r ==> y in s.items) &&
      r == RemoveById(s.items, IdOf, id)
  {
    assert Reduce(s, DeleteDepartmentSuccess(id)).items == RemoveById(s.items, IdOf, id);
    RemoveRemovesExactly(s.items, IdOf, id);
  }


  /** No reducer writes `apiresponse`: it keeps its initial value forever. */
  lemma {:induction false} ApiResponseNeverChanges(s: DepartmentState, acts: seq<Action>)
    ensures ReduceAll(s, acts).apiresponse == s.apiresponse
    decreases |acts|
  {
    if acts != [] {
      ApiResponseNeverChanges(Reduce(s, acts[0]), acts[1..]);
    }
  }

  /** The store: `departmentSlice.reducer` applied to the draft in place. */
  class DepartmentStore {
    const crud: Store<Department>

    ghost predicate Valid()
      reads this
    {
      crud.idOf == IdOf
    }

    constructor ()
      ensures Valid() && fresh(crud)
      ensures crud.State() == Initial()
    {
      crud := new Store(IdOf);
    }

    method Dispatch(a: Action)
      requires Valid()
      modifies crud
      ensures crud.State() == Reduce(old(crud.State()), a)
    {
      match a
      case FetchDepartmentsRequest => crud.Request();
      case FetchDepartmentsSuccess(xs) => crud.Load(xs);
      case FetchDepartmentsFailure(m) => crud.Fail(m);
      case CreateDepartmentRequest(_) => crud.Request();
      case CreateDepartmentSuccess(d) => crud.Push(d);
      case CreateDepartmentFailure(m) => crud.Fail(m);
      case UpdateDepartmentRequest(_, _) => crud.Request();
      case UpdateDepartmentSuccess(d) => crud.Replace(d);
      case UpdateDepartmentFailure(m) => crud.Fail(m);
      case DeleteDepartmentRequest(_) => crud.Request();
      case DeleteDepartmentSuccess(id) => crud.Remove(id);
      case DeleteDepartmentFailure(m) => crud.Fail(m);
    }
  }
}
