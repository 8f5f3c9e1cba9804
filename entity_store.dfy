/**
 * The state every entity slice keeps (`items`, `apiresponse`, `loading`,
 * `error`) and the six case-reducer shapes the slices are built from, first as
 * pure transitions on a value and then as the Immer draft the reducers assign
 * in place: a `Store` object whose methods are proved to perform those
 * transitions.
 */
module EntityStore {
  import opened Wrappers
  import opened Effects
  import opened ItemList

  /** The fields shared by every slice's state. */
  datatype CrudState<T> = CrudState(
    items: seq<T>,
    apiresponse: Envelope<seq<T>>,
    loading: bool,
    error: Option<string>)

  /** `initialState`: no items, a blank response, idle, no error. */
  function InitialCrud<T>(): CrudState<T> {
    CrudState([], Envelope(false, "", None), false, None)
  }

  /** Every `...Request` reducer: `loading = true; error = undefined`. */
  function Requested<T>(s: CrudState<T>): (r: CrudState<T>)
    ensures r.loading && r.error == None
    ensures r.items == s.items && r.apiresponse == s.apiresponse
  {
    s.(loading := true, error := None)
  }

  /** Fetch-all and by-condition success: `loading = false; items = payload`. */
  function Loaded<T>(s: CrudState<T>, xs: seq<T>): (r: CrudState<T>)
    ensures !r.loading && r.items == xs
    ensures r.error == s.error && r.apiresponse == s.apiresponse
  {
    s.(loading := false, items := xs)
  }

  /** Create success: `loading = false; items.push(payload)`. */
  function Appended<T>(s: CrudState<T>, x: T): (r: CrudState<T>)
    ensures !r.loading
    ensures |r.items| == |s.items| + 1 && r.items[..|s.items|] == s.items && r.items[|s.items|] == x
    ensures r.error == s.error && r.apiresponse == s.apiresponse
  {
    s.(loading := false, items := s.items + [x])
  }

  /** Update success: `loading = false; items = items.map(i => i.id === x.id ? x : i)`. */
  function Replaced<T>(s: CrudState<T>, idOf: T -> int, x: T): (r: CrudState<T>)
    ensures !r.loading
    ensures |r.items| == |s.items|
    ensures forall i :: 0 <= i < |s.items| ==> r.items[i] == if idOf(s.items[i]) == idOf(x) then x else s.items[i]
    ensures r.error == s.error && r.apiresponse == s.apiresponse
  {
    s.(loading := false, items := ReplaceById(s.items, idOf, x))
  }

  /** Delete success: `loading = false; items = items.filter(i => i.id !== id)`. */
  function Removed<T>(s: CrudState<T>, idOf: T -> int, id: int): (r: CrudState<T>)
    ensures !r.loading
    ensures !HasId(r.items, idOf, id)
    ensures forall i :: 0 <= i < |s.items| && idOf(s.items[i]) != id ==> s.items[i] in r.items
    ensures forall i :: 0 <= i < |r.items| ==> r.items[i] in s.items
    ensures r.items == RemoveById(s.items, idOf, id)
    ensures r.error == s.error && r.apiresponse == s.apiresponse
  {
    var kept := RemoveById(s.items, idOf, id);
    RemoveRemovesExactly(s.items, idOf, id);
    assert forall i :: 0 <= i < |kept| ==> kept[i] in kept;
    s.(loading := false, items := kept)
  }

  /** Every `...Failure` reducer: `loading = false; error = payload`. */
  function Failed<T>(s: CrudState<T>, message: string): (r: CrudState<T>)
    ensures !r.loading && r.error == Some(message)
    ensures r.items == s.items && r.apiresponse == s.apiresponse
  {
    s.(loading := false, error := Some(message))
  }

  /** The image-upload fields of the employee and medical-staff slices. */
  datatype UploadState = UploadState(
    imageUploadUrl: Option<string>,
    imageUploading: bool,
    imageUploadError: Option<string>)

  /** Their initial values: no url, not uploading, no error. */
  function InitialUpload(): UploadState {
    UploadState(None, false, None)
  }

  /** The Immer draft of a slice's shared fields, mutated field by field. */
  class Store<T> {
    const idOf: T -> int
    var items: seq<T>
    const apiresponse: Envelope<seq<T>>
    var loading: bool
    var error: Option<string>

    function State(): CrudState<T>
      reads this
    {
      CrudState(items, apiresponse, loading, error)
    }

    constructor (idOf: T -> int)
      ensures this.idOf == idOf
      ensures State() == InitialCrud()
    {
      this.idOf := idOf;
      items := [];
      apiresponse := Envelope(false, "", None);
      loading := false;
      error := None;
    }

    method Request()
      modifies this
      ensures State() == Requested(old(State()))
    {
      loading := true;
      error := None;
    }

    method Load(xs: seq<T>)
      modifies this
      ensures State() == Loaded(old(State()), xs)
    {
      loading := false;
      items := xs;
    }

    /** Fetch-one success: `items = [payload]`. */
    method LoadOne(x: T)
      modifies this
      ensures State() == Loaded(old(State()), [x])
    {
      loading := false;
      items := [x];
    }

    method Push(x: T)
      modifies this
      ensures State() == Appended(old(State()), x)
    {
      loading := false;
      items := items + [x];
    }

    method Replace(x: T)
      modifies this
      ensures State() == Replaced(old(State()), idOf, x)
    {
      loading := false;
      items := ReplaceById(items, idOf, x);
    }

    method Remove(id: int)
      modifies this
      ensures State() == Removed(old(State()), idOf, id)
    {
      loading := false;
      items := RemoveById(items, idOf, id);
    }

    method Fail(message: string)
      modifies this
      ensures State() == Failed(old(State()), message)
    {
      loading := false;
      error := Some(message);
    }
  }
}
