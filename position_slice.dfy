/**
 * The `position` slice: its record, its twelve actions, the reducer table
 * as a pure function on the state, and the store object whose `Dispatch`
 * is proved to agree with it.
 */
module PositionSlice {
  import opened Wrappers
  import opened Effects
  import opened ItemList
  import opened EntityStore

  datatype Position = Position(
    id: int,
    name: string,
    code: Option<string>,
    rankLevel: Option<Nullable<int>>,
    description: Option<string>,
    status: Option<string>)

  /** `PositionInput`: a position without its `id`. */
  datatype PositionInput = PositionInput(
    name: string,
    code: Option<string>,
    rankLevel: Option<Nullable<int>>,
    description: Option<string>,
    status: Option<string>)

  function IdOf(d: Position): int { d.id }

  datatype Action =
    | FetchPositionsRequest
    | FetchPositionsSuccess(positions: seq<Position>)
    | FetchPositionsFailure(message: string)
    | CreatePositionRequest(input: PositionInput)
    | CreatePositionSuccess(position: Position)
    | CreatePositionFailure(message: string)
    | UpdatePositionRequest(id: int, data: PositionInput)
    | UpdatePositionSuccess(position: Position)
    | UpdatePositionFailure(message: string)
    | DeletePositionRequest(id: int)
    | DeletePositionSuccess(id: int)
    | DeletePositionFailure(message: string)
  {
    predicate IsRequest() {
      FetchPositionsRequest? || CreatePositionRequest? || UpdatePositionRequest? || DeletePositionRequest?
    }

    predicate IsFailure() {
      FetchPositionsFailure? || CreatePositionFailure? || UpdatePositionFailure? || DeletePositionFailure?
    }
  }

  type PositionState = CrudState<Position>

  function Initial(): (r: PositionState)
    ensures r.items == [] && !r.loading && r.error == None
    ensures r.apiresponse == Envelope(false, "", None)
  {
    InitialCrud()
  }

  /** The slice reducer: the case reducer of `a`'s type applied to `s`. */
  function Reduce(s: PositionState, a: Action): (r: PositionState)
    ensures r.loading <==> a.IsRequest()
    ensures a.IsRequest() || a.IsFailure() ==> r.items == s.items
    ensures r.apiresponse == s.apiresponse
  {
    match a
    case FetchPositionsRequest => Requested(s)
    case FetchPositionsSuccess(xs) => Loaded(s, xs)
    case FetchPositionsFailure(m) => Failed(s, m)
    case CreatePositionRequest(_) => Requested(s)
    case CreatePositionSuccess(d) => Appended(s, d)
    case CreatePositionFailure(m) => Failed(s, m)
    case UpdatePositionRequest(_, _) => Requested(s)
    case UpdatePositionSuccess(d) => Replaced(s, IdOf, d)
    case UpdatePositionFailure(m) => Failed(s, m)
    case DeletePositionRequest(_) => Requested(s)
    case DeletePositionSuccess(id) => Removed(s, IdOf, id)
    case DeletePositionFailure(m) => Failed(s, m)
  }

  /** The state after the store has reduced `acts` in order. */
  function ReduceAll(s: PositionState, acts: seq<Action>): PositionState
    decreases |acts|
  {
    if acts == [] then s else ReduceAll(Reduce(s, acts[0]), acts[1..])
  }

  /** Reducing a one-action batch is reducing that action. */
  lemma ReduceAllOne(s: PositionState, a: Action)
    ensures ReduceAll(s, [a]) == Reduce(s, a)
  {
    assert [a][1..] == [];
  }

  /** Every request starts loading and clears the error, and touches nothing else. */
  lemma RequestStartsLoading(s: PositionState, a: Action)
    requires a.IsRequest()
    ensures Reduce(s, a).loading && Reduce(s, a).error == None
    ensures Reduce(s, a).items == s.items && Reduce(s, a).apiresponse == s.apiresponse
  {
  }

  /** Every failure stops loading and records its message, leaving the items alone. */
  lemma FailureRecordsMessage(s: PositionState, a: Action)
    requires a.IsFailure()
    ensures !Reduce(s, a).loading && Reduce(s, a).error == Some(a.message)
    ensures Reduce(s, a).items == s.items
  {
  }

  /** Success actions stop loading and leave `error` as it was. */
  lemma SuccessKeepsError(s: PositionState, a: Action)
    requires !a.IsRequest() && !a.IsFailure()
    ensures !Reduce(s, a).loading && Reduce(s, a).error == s.error
  {
  }

  /** Fetch success makes the payload the item list, exactly and in order. */
  lemma FetchSuccessReplacesItems(s: PositionState, xs: seq<Position>)
    ensures Reduce(s, FetchPositionsSuccess(xs)).items == xs
  {
  }

  /** Create success appends the new position after the old items. */
  lemma CreateSuccessAppends(s: PositionState, d: Position)
    ensures var r := Reduce(s, CreatePositionSuccess(d)).items;
      |r| == |s.items| + 1 && r[..|s.items|] == s.items && r[|s.items|] == d
  {
  }

  /** Update success rewrites only the positions with the payload's id, and is a no-op when there is none. */
  lemma UpdateSuccessReplacesById(s: PositionState, d: Position)
    ensures var r := Reduce(s, UpdatePositionSuccess(d)).items;
      |r| == |s.items| &&
      (forall i :: 0 <= i < |r| ==> r[i] == if s.items[i].id == d.id then d else s.items[i])
    ensures !HasId(s.items, IdOf, d.id) ==> Reduce(s, UpdatePositionSuccess(d)).items == s.items
  {
    if !HasId(s.items, IdOf, d.id) {
      ReplaceAbsentIsIdentity(s.items, IdOf, d);
    }
  }

  /** Delete success removes all and only the positions with that id. */
  lemma DeleteSuccessRemovesById(s: PositionState, id: int)
    ensures var r := Reduce(s, DeletePositionSuccess(id)).items;
      !HasId(r, IdOf, id) &&
      (forall y :: y in s.items && y.id != id ==> y in r) &&
      (forall y :: y in r ==> y in s.items) &&
      r == RemoveById(s.items, IdOf, id)
  {
    assert Reduce(s, DeletePositionSuccess(id)).items == RemoveById(s.items, IdOf, id);
    RemoveRemovesExactly(s.items, IdOf, id);
  }


  /** No reducer writes `apiresponse`: it keeps its initial value forever. */
  lemma {:induction false} ApiResponseNeverChanges(s: PositionState, acts: seq<Action>)
    ensures ReduceAll(s, acts).apiresponse == s.apiresponse
    decreases |acts|
  {
    if acts != [] {
      ApiResponseNeverChanges(Reduce(s, acts[0]), acts[1..]);
    }
  }

  /** The store: `positionSlice.reducer` applied to the draft in place. */
  class PositionStore {
    const crud: Store<Position>

    ghost predicate Valid()
      reads this
    {
      crud.idOf == IdOf
    }

    constructor ()
      ensures Valid() && fresh(crud)
      ensures crud.State() == Initial()
    {
      crud := new Store(IdOf);
    }

    method Dispatch(a: Action)
      requires Valid()
      modifies crud
      ensures crud.State() == Reduce(old(crud.State()), a)
    {
      match a
      case FetchPositionsRequest => crud.Request();
      case FetchPositionsSuccess(xs) => crud.Load(xs);
      case FetchPositionsFailure(m) => crud.Fail(m);
      case CreatePositionRequest(_) => crud.Request();
      case CreatePositionSuccess(d) => crud.Push(d);
      case CreatePositionFailure(m) => crud.Fail(m);
      case UpdatePositionRequest(_, _) => crud.Request();
      case UpdatePositionSuccess(d) => crud.Replace(d);
      case UpdatePositionFailure(m) => crud.Fail(m);
      case DeletePositionRequest(_) => crud.Request();
      case DeletePositionSuccess(id) => crud.Remove(id);
      case DeletePositionFailure(m) => crud.Fail(m);
    }
  }
}
