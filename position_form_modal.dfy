/**
 * The position create/edit dialog: its values, the defaults, the merge on
 * open, the field updater, the rank-level input and the submit guard.
 */
module PositionFormModal {
  import opened Wrappers
  import opened Text

  /** `PositionFormValues`. */
  datatype Values = Values(
    id: Option<int>,
    name: string,
    code: Option<string>,
    rankLevel: Option<Nullable<int>>,
    description: Option<string>,
    status: Option<string>)

  datatype TextKey = Name | Code | Description | Status

  function GetText(v: Values, k: TextKey): Option<string> {
    match k
    case Name => Some(v.name)
    case Code => v.code
    case Description => v.description
    case Status => v.status
  }

  /** `defaultValues`: every text key "" but the status "ACTIVE", and no rank level. */
  function Defaults(): (r: Values)
    ensures r.id == None && r.rankLevel == Some(Null)
    ensures forall k :: GetText(r, k) == Some(if k == Status then "ACTIVE" else "")
  {
    Values(None, "", Some(""), Some(Null), Some(""), Some("ACTIVE"))
  }

  /** `{ ...defaultValues, ...initialValues }`: keys the initial values omit keep their defaults. */
  function Merge(init: Values): (r: Values)
    ensures forall k :: GetText(r, k) == if GetText(init, k).Some? then GetText(init, k) else GetText(Defaults(), k)
    ensures r.rankLevel == if init.rankLevel.Some? then init.rankLevel else Defaults().rankLevel
    ensures r.id == init.id
  {
    var d := Defaults();
    Values(Spread(d.id, init.id), init.name, Spread(d.code, init.code),
           Spread(d.rankLevel, init.rankLevel), Spread(d.description, init.description),
           Spread(d.status, init.status))
  }

  /** The open effect: the merged initial values when there are any, else the defaults. */
  function Opened(initialValues: Nullable<Values>): (r: Values)
    ensures initialValues.NonNull? ==> r == Merge(initialValues.value)
    ensures initialValues.Null? ==> r == Defaults()
  {
    if initialValues.NonNull? then Merge(initialValues.value) else Defaults()
  }

  /** Merging over the defaults adds nothing to values that already carry every key. */
  lemma MergeKeepsCompleteValues(v: Values)
    requires v.code.Some? && v.rankLevel.Some? && v.description.Some? && v.status.Some?
    ensures Merge(v) == v
  {
  }

  /** `handleChange` on a text input: that key takes the value, nothing else changes. */
  function SetText(v: Values, k: TextKey, s: string): (r: Values)
    ensures GetText(r, k) == Some(s)
    ensures forall j :: j != k ==> GetText(r, j) == GetText(v, j)
    ensures r.id == v.id && r.rankLevel == v.rankLevel
  {
    match k
    case Name => v.(name := s)
    case Code => v.(code := Some(s))
    case Description => v.(description := Some(s))
    case Status => v.(status := Some(s))
  }

  /** The rank-level input: `""` stores null, anything else `Number(raw)`; no text key changes. */
  function SetRank(v: Values, raw: string, parse: string -> int): (r: Values)
    ensures raw == "" <==> r.rankLevel == Some(Null)
    ensures raw != "" ==> r.rankLevel == Some(NonNull(parse(raw)))
    ensures forall j :: GetText(r, j) == GetText(v, j)
    ensures r.id == v.id
  {
    v.(rankLevel := Some(NumberOrNull(raw, parse)))
  }

  /** `handleSubmit`: nothing is submitted for a blank name, otherwise the form unchanged. */
  function SubmitDecision(form: Values): (r: Option<Values>)
    ensures r.Some? <==> !AllIn(form.name, IsJsWhitespace)
    ensures r.Some? ==> r.value == form
  {
    if Trim(form.name) == "" then None else Some(form)
  }
}
