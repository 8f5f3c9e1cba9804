/**
 * The department create/edit dialog: its values, the defaults, the merge on
 * open, the field updater, the head-of-department input and the submit guard.
 */
module DepartmentFormModal {
  import opened Wrappers
  import opened Text

  /** `DepartmentFormValues`. */
  datatype Values = Values(
    id: Option<int>,
    name: string,
    buildingNo: Option<string>,
    floorNo: Option<string>,
    roomNo: Option<string>,
    headMedicalStaffId: Option<Nullable<int>>,
    extension: Option<string>,
    status: Option<string>)

  datatype TextKey = Name | BuildingNo | FloorNo | RoomNo | Extension | Status

  function GetText(v: Values, k: TextKey): Option<string> {
    match k
    case Name => Some(v.name)
    case BuildingNo => v.buildingNo
    case FloorNo => v.floorNo
    case RoomNo => v.roomNo
    case Extension => v.extension
    case Status => v.status
  }

  /** `defaultValues`: every text key "" but the status "ACTIVE", and no head. */
  function Defaults(): (r: Values)
    ensures r.id == None && r.headMedicalStaffId == Some(Null)
    ensures forall k :: GetText(r, k) == Some(if k == Status then "ACTIVE" else "")
  {
    Values(None, "", Some(""), Some(""), Some(""), Some(Null), Some(""), Some("ACTIVE"))
  }

  /** `{ ...defaultValues, ...initialValues }`: keys the initial values omit keep their defaults. */
  function Merge(init: Values): (r: Values)
    ensures forall k :: GetText(r, k) == if GetText(init, k).Some? then GetText(init, k) else GetText(Defaults(), k)
    ensures r.headMedicalStaffId ==
      if init.headMedicalStaffId.Some? then init.headMedicalStaffId else Defaults().headMedicalStaffId
    ensures r.id == init.id
  {
    var d := Defaults();
    Values(Spread(d.id, init.id), init.name,
           Spread(d.buildingNo, init.buildingNo), Spread(d.floorNo, init.floorNo),
           Spread(d.roomNo, init.roomNo), Spread(d.headMedicalStaffId, init.headMedicalStaffId),
           Spread(d.extension, init.extension), Spread(d.status, init.status))
  }

  /** The open effect: the merged initial values when there are any, else the defaults. */
  function Opened(initialValues: Nullable<Values>): (r: Values)
    ensures initialValues.NonNull? ==> r == Merge(initialValues.value)
    ensures initialValues.Null? ==> r == Defaults()
  {
    if initialValues.NonNull? then Merge(initialValues.value) else Defaults()
  }

  /** Merging over the defaults adds nothing to values that already carry every key. */
  lemma MergeKeepsCompleteValues(v: Values)
    requires v.buildingNo.Some? && v.floorNo.Some? && v.roomNo.Some?
    requires v.headMedicalStaffId.Some? && v.extension.Some? && v.status.Some?
    ensures Merge(v) == v
  {
  }

  /** `handleChange` on a text input: that key takes the value, nothing else changes. */
  function SetText(v: Values, k: TextKey, s: string): (r: Values)
    ensures GetText(r, k) == Some(s)
    ensures forall j :: j != k ==> GetText(r, j) == GetText(v, j)
    ensures r.id == v.id && r.headMedicalStaffId == v.headMedicalStaffId
  {
    match k
    case Name => v.(name := s)
    case BuildingNo => v.(buildingNo := Some(s))
    case FloorNo => v.(floorNo := Some(s))
    case RoomNo => v.(roomNo := Some(s))
    case Extension => v.(extension := Some(s))
    case Status => v.(status := Some(s))
  }

  /** The head-of-department input: `""` stores null, anything else `Number(raw)`; no text key changes. */
  function SetHead(v: Values, raw: string, parse: string -> int): (r: Values)
    ensures raw == "" <==> r.headMedicalStaffId == Some(Null)
    ensures raw != "" ==> r.headMedicalStaffId == Some(NonNull(parse(raw)))
    ensures forall j :: GetText(r, j) == GetText(v, j)
    ensures r.id == v.id
  {
    v.(headMedicalStaffId := Some(NumberOrNull(raw, parse)))
  }

  /** `handleSubmit`: nothing is submitted for a blank name, otherwise the form unchanged. */
  function SubmitDecision(form: Values): (r: Option<Values>)
    ensures r.Some? <==> !AllIn(form.name, IsJsWhitespace)
    ensures r.Some? ==> r.value == form
  {
    if Trim(form.name) == "" then None else Some(form)
  }
}
