/**
 * What an effect worker sees when its `yield call(api, ...)` resumes, and the
 * branch rule every worker applies to it:
 *
 *   try { const r = yield call(...); if (r.success && r.result) put(success) else put(failure(r.message)) }
 *   catch (err) { put(failure(getErrorMessage(err))) }
 */
module Effects {
  import opened Wrappers

  /** The backend envelope `ApiResponse<T>`: `{ success, message, result? }`. */
  datatype Envelope<R> = Envelope(success: bool, message: string, result: Option<R>)

  /** A value caught by `catch (err: unknown)`: an `Error` instance, or anything else. */
  datatype Thrown = ErrorObject(message: string) | OtherValue

  /** How the awaited call ended: it returned a value, or it threw. */
  datatype Outcome<V> = Returned(value: V) | Threw(err: Thrown)

  /** `getErrorMessage`: an `Error`'s own message, `"Unknown error"` for anything else. */
  function GetErrorMessage(err: Thrown): (m: string)
    ensures err.ErrorObject? ==> m == err.message
    ensures err.OtherValue? ==> m == "Unknown error"
  {
    match err
    case ErrorObject(msg) => msg
    case OtherValue => "Unknown error"
  }

  /** Which of its two actions a worker puts, and with what payload. */
  datatype Verdict<R> = Accept(result: R) | Reject(message: string)

  /**
   * The rule of the fetch, create and update workers.  A present `result` is
   * truthy: every result these workers receive is an array or an object.
   */
  function Decide<R>(o: Outcome<Envelope<R>>): (v: Verdict<R>)
    ensures v.Accept? <==> o.Returned? && o.value.success && o.value.result.Some?
    ensures v.Accept? ==> v.result == o.value.result.value
    ensures v.Reject? && o.Returned? ==> v.message == o.value.message
    ensures o.Threw? ==> v == Reject(GetErrorMessage(o.err))
  {
    match o
    case Threw(err) => Reject(GetErrorMessage(err))
    case Returned(env) =>
      if env.success && env.result.Some? then Accept(env.result.value) else Reject(env.message)
  }

  /**
   * The rule of the delete workers: only `success` is consulted, and the
   * accepted payload is the id the request carried.
   */
  function DecideDelete<R>(id: int, o: Outcome<Envelope<R>>): (v: Verdict<int>)
    ensures v.Accept? <==> o.Returned? && o.value.success
    ensures v.Accept? ==> v.result == id
    ensures v.Reject? && o.Returned? ==> v.message == o.value.message
    ensures o.Threw? ==> v == Reject(GetErrorMessage(o.err))
  {
    match o
    case Threw(err) => Reject(GetErrorMessage(err))
    case Returned(env) => if env.success then Accept(id) else Reject(env.message)
  }

  /** A delete never looks at the envelope's `result`. */
  lemma DeleteIgnoresResult<R>(id: int, success: bool, message: string, r1: Option<R>, r2: Option<R>)
    ensures DecideDelete(id, Returned(Envelope(success, message, r1)))
         == DecideDelete(id, Returned(Envelope(success, message, r2)))
  {
  }

  /** A thrown value always leads to the failure branch, whatever the worker. */
  lemma ThrownAlwaysRejects<R>(id: int, err: Thrown)
    ensures Decide<R>(Threw(err)).Reject? && DecideDelete<R>(id, Threw(err)).Reject?
    ensures Decide<R>(Threw(err)).message == DecideDelete<R>(id, Threw(err)).message == GetErrorMessage(err)
  {
  }

  /** One worker run: the api call it makes and the actions it puts, in order. */
  datatype Script<C, A> = Script(call: C, puts: seq<A>)
}
