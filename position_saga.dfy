/**
 * The position effect workers.  Each one takes the payload of the request
 * it serves and the outcome of its api call, and yields the call it makes
 * and the actions it puts.  The lemmas at the end run a request, the worker
 * and the reducer together.
 */
module PositionSaga {
  import opened Wrappers
  import opened Effects
  import opened ItemList
  import opened EntityStore
  import opened PositionSlice

  datatype ApiCall =
    | FetchPositionsApi
    | CreatePositionApi(input: PositionInput)
    | UpdatePositionApi(id: int, data: PositionInput)
    | DeletePositionApi(id: int)

  type Run = Script<ApiCall, Action>

  /** Envelope accepted: `success` holds and a result is present. */
  predicate Accepted<R>(o: Outcome<Envelope<R>>) {
    o.Returned? && o.value.success && o.value.result.Some?
  }

  function FetchPositionsWorker(o: Outcome<Envelope<seq<Position>>>): (run: Run)
    ensures run.call == FetchPositionsApi
    ensures Accepted(o) ==> run.puts == [FetchPositionsSuccess(o.value.result.value)]
    ensures o.Returned? && !Accepted(o) ==> run.puts == [FetchPositionsFailure(o.value.message)]
    ensures o.Threw? ==> run.puts == [FetchPositionsFailure(GetErrorMessage(o.err))]
  {
    Script(FetchPositionsApi,
      match Decide(o)
      case Accept(xs) => [FetchPositionsSuccess(xs)]
      case Reject(m) => [FetchPositionsFailure(m)])
  }

  function CreatePositionWorker(input: PositionInput, o: Outcome<Envelope<Position>>): (run: Run)
    ensures run.call == CreatePositionApi(input)
    ensures Accepted(o) ==> run.puts == [CreatePositionSuccess(o.value.result.value)]
    ensures o.Returned? && !Accepted(o) ==> run.puts == [CreatePositionFailure(o.value.message)]
    ensures o.Threw? ==> run.puts == [CreatePositionFailure(GetErrorMessage(o.err))]
  {
    Script(CreatePositionApi(input),
      match Decide(o)
      case Accept(d) => [CreatePositionSuccess(d)]
      case Reject(m) => [CreatePositionFailure(m)])
  }

  /** The api receives the payload's id and data unchanged. */
  function UpdatePositionWorker(id: int, data: PositionInput, o: Outcome<Envelope<Position>>): (run: Run)
    ensures run.call == UpdatePositionApi(id, data)
    ensures Accepted(o) ==> run.puts == [UpdatePositionSuccess(o.value.result.value)]
    ensures o.Returned? && !Accepted(o) ==> run.puts == [UpdatePositionFailure(o.value.message)]
    ensures o.Threw? ==> run.puts == [UpdatePositionFailure(GetErrorMessage(o.err))]
  {
    Script(UpdatePositionApi(id, data),
      match Decide(o)
      case Accept(d) => [UpdatePositionSuccess(d)]
      case Reject(m) => [UpdatePositionFailure(m)])
  }

  /** Success carries the requested id; the envelope's `result` is never read. */
  function DeletePositionWorker(id: int, o: Outcome<Envelope<()>>): (run: Run)
    ensures run.call == DeletePositionApi(id)
    ensures o.Returned? && o.value.success ==> run.puts == [DeletePositionSuccess(id)]
    ensures o.Returned? && !o.value.success ==> run.puts == [DeletePositionFailure(o.value.message)]
    ensures o.Threw? ==> run.puts == [DeletePositionFailure(GetErrorMessage(o.err))]
  {
    Script(DeletePositionApi(id),
      match DecideDelete(id, o)
      case Accept(k) => [DeletePositionSuccess(k)]
      case Reject(m) => [DeletePositionFailure(m)])
  }

  /** The state a request leaves once its worker's actions have been reduced too. */
  function Settled(s: PositionState, request: Action, run: Run): PositionState {
    ReduceAll(Reduce(s, request), run.puts)
  }

  /** A fetch ends idle with either the fetched list and no error, or the old list and the failure message. */
  lemma FetchSettles(s: PositionState, o: Outcome<Envelope<seq<Position>>>)
    ensures var t := Settled(s, FetchPositionsRequest, FetchPositionsWorker(o));
      !t.loading &&
      (Accepted(o) ==> t.items == o.value.result.value && t.error == None) &&
      (!Accepted(o) ==> t.items == s.items && t.error == Some(Decide(o).message))
  {
    var run := FetchPositionsWorker(o);
    ReduceAllOne(Reduce(s, FetchPositionsRequest), run.puts[0]);
  }

  /** A create ends idle with the new position appended, or the old list and the failure message. */
  lemma CreateSettles(s: PositionState, input: PositionInput, o: Outcome<Envelope<Position>>)
    ensures var t := Settled(s, CreatePositionRequest(input), CreatePositionWorker(input, o));
      !t.loading &&
      (Accepted(o) ==> t.items == s.items + [o.value.result.value] && t.error == None) &&
      (!Accepted(o) ==> t.items == s.items && t.error == Some(Decide(o).message))
  {
    var run := CreatePositionWorker(input, o);
    ReduceAllOne(Reduce(s, CreatePositionRequest(input)), run.puts[0]);
  }

  /** An update ends idle with the id-matching positions replaced, or the old list and the failure message. */
  lemma UpdateSettles(s: PositionState, id: int, data: PositionInput, o: Outcome<Envelope<Position>>)
    ensures var t := Settled(s, UpdatePositionRequest(id, data), UpdatePositionWorker(id, data, o));
      !t.loading &&
      (Accepted(o) ==> t.items == ReplaceById(s.items, IdOf, o.value.result.value) && t.error == None) &&
      (!Accepted(o) ==> t.items == s.items && t.error == Some(Decide(o).message))
  {
    var run := UpdatePositionWorker(id, data, o);
    ReduceAllOne(Reduce(s, UpdatePositionRequest(id, data)), run.puts[0]);
  }

  /** A delete ends idle with the requested id gone, or the old list and the failure message. */
  lemma DeleteSettles(s: PositionState, id: int, o: Outcome<Envelope<()>>)
    ensures var t := Settled(s, DeletePositionRequest(id), DeletePositionWorker(id, o));
      !t.loading &&
      (DecideDelete(id, o).Accept? ==> t.items == RemoveById(s.items, IdOf, id) && t.error == None) &&
      (DecideDelete(id, o).Reject? ==> t.items == s.items && t.error == Some(DecideDelete(id, o).message))
  {
    var run := DeletePositionWorker(id, o);
    var v := DecideDelete(id, o);
    var r := Reduce(s, DeletePositionRequest(id));
    if v.Accept? {
      assert run.puts == [DeletePositionSuccess(id)];
      ReduceAllOne(r, DeletePositionSuccess(id));
    } else {
      assert run.puts == [DeletePositionFailure(v.message)];
      ReduceAllOne(r, DeletePositionFailure(v.message));
    }
  }
}
