/**
 * The medical-staff page: the dialog values turned into the update payload
 * and into the create request's multipart body, the department and position
 * select options, and the page object whose mount effect and handlers
 * dispatch to the three slices.
 */
module MedicalStaffPage {
  import opened Wrappers
  import opened Multipart
  import opened MedicalStaffFormModal
  import MedicalStaffSlice
  import DepartmentSlice
  import PositionSlice

  /** `v.departmentId ?? undefined`: a null or absent selection becomes an absent key. */
  function IdOrAbsent(x: Option<Nullable<int>>): (r: Option<int>)
    ensures r.Some? <==> x.Some? && x.value.NonNull?
    ensures r.Some? ==> r.value == x.value.value
  {
    if x.Some? && x.value.NonNull? then Some(x.value.value) else None
  }

  /**
   * `toMedicalStaffInput`: the text fields are copied, the id selections lose
   * their null, the file becomes null when absent, and `id` is dropped.
   */
  function ToInput(v: Values): (r: MedicalStaffSlice.MedicalStaffInput)
    ensures r.staffId == v.staffId && r.name == v.name && r.status == v.status
    ensures r.gender == v.gender && r.birthDate == v.birthDate && r.phone == v.phone
    ensures r.email == v.email && r.hireDate == v.hireDate
    ensures r.departmentId.Some? <==> GetId(v, DepartmentId).Some? && GetId(v, DepartmentId).value.NonNull?
    ensures r.positionId.Some? <==> GetId(v, PositionId).Some? && GetId(v, PositionId).value.NonNull?
    ensures r.departmentId.Some? ==> NonNull(r.departmentId.value) == v.departmentId.value
    ensures r.positionId.Some? ==> NonNull(r.positionId.value) == v.positionId.value
    ensures r.profileImageFile.NonNull? <==> HasFile(v)
    ensures HasFile(v) ==> r.profileImageFile == v.profileImageFile.value
  {
    var file := if v.profileImageFile.Some? then v.profileImageFile.value else Null;
    MedicalStaffSlice.MedicalStaffInput(v.staffId, v.name, v.gender, v.birthDate, v.phone,
      v.email, v.hireDate, IdOrAbsent(v.departmentId), IdOrAbsent(v.positionId), v.status, file)
  }

  /** `const { profileImageFile, ...staffPayload } = values`. */
  function WithoutFile(v: Values): (r: StaffPayload)
    ensures r.id == v.id && r.staffId == v.staffId && r.name == v.name && r.gender == v.gender
    ensures r.birthDate == v.birthDate && r.phone == v.phone && r.email == v.email && r.hireDate == v.hireDate
    ensures r.departmentId == v.departmentId && r.positionId == v.positionId && r.status == v.status
  {
    StaffPayload(v.id, v.staffId, v.name, v.gender, v.birthDate, v.phone, v.email,
      v.hireDate, v.departmentId, v.positionId, v.status)
  }

  /** The rest pattern drops exactly the file: two values give the same payload iff they differ at most in the file. */
  lemma WithoutFileDropsOnlyTheFile(v: Values, w: Values)
    ensures WithoutFile(v) == WithoutFile(w) <==> v.(profileImageFile := w.profileImageFile) == w
  {
    if WithoutFile(v) == WithoutFile(w) {
      assert WithoutFile(v).id == WithoutFile(w).id && WithoutFile(v).staffId == WithoutFile(w).staffId;
    }
  }

  /**
   * `handleCreate`'s body: a `"staff"` JSON part holding the payload (no file
   * name), then a `"file"` part exactly when the values hold a file.
   */
  function CreateParts(v: Values): (r: seq<Part<StaffPayload>>)
    ensures Fields(r) == ["staff"] + (if HasFile(v) then ["file"] else [])
    ensures r[0] == JsonPart("staff", WithoutFile(v), None)
    ensures HasFile(v) ==> r[1] == FilePart("file", v.profileImageFile.value.value)
  {
    var staff := JsonPart("staff", WithoutFile(v), None);
    if HasFile(v) then [staff, FilePart("file", v.profileImageFile.value.value)] else [staff]
  }

  /** `departments.map(d => ({ id: d.id, name: d.name }))`. */
  function DepartmentOptions(ds: seq<DepartmentSlice.Department>): (r: seq<SimpleOption>)
    ensures |r| == |ds|
    ensures forall i :: 0 <= i < |ds| ==> r[i].id == ds[i].id && r[i].name == ds[i].name
  {
    if ds == [] then [] else [SimpleOption(ds[0].id, ds[0].name)] + DepartmentOptions(ds[1..])
  }

  /** `positions.map(p => ({ id: p.id, name: p.name }))`. */
  function PositionOptions(ps: seq<PositionSlice.Position>): (r: seq<SimpleOption>)
    ensures |r| == |ps|
    ensures forall i :: 0 <= i < |ps| ==> r[i].id == ps[i].id && r[i].name == ps[i].name
  {
    if ps == [] then [] else [SimpleOption(ps[0].id, ps[0].name)] + PositionOptions(ps[1..])
  }

  /** An action the page dispatches, tagged with the slice it is meant for. */
  datatype PageAction =
    | Staff(staff: MedicalStaffSlice.Action)
    | Departments(department: DepartmentSlice.Action)
    | Positions(position: PositionSlice.Action)

  /** The mount effect's three fetches. */
  function MountActions(): (r: seq<PageAction>)
    ensures |r| == 3
    ensures r[0].Staff? && r[0].staff == MedicalStaffSlice.FetchMedicalStaffRequest
    ensures r[1].Departments? && r[1].department == DepartmentSlice.FetchDepartmentsRequest
    ensures r[2].Positions? && r[2].position == PositionSlice.FetchPositionsRequest
  {
    [Staff(MedicalStaffSlice.FetchMedicalStaffRequest),
     Departments(DepartmentSlice.FetchDepartmentsRequest),
     Positions(PositionSlice.FetchPositionsRequest)]
  }

  /** After the mount effect all three slices are loading, with no error and their items untouched. */
  lemma MountStartsLoading(s: MedicalStaffSlice.MedicalStaffState, d: DepartmentSlice.DepartmentState,
                           p: PositionSlice.PositionState)
    ensures var m := MountActions();
      var s', d', p' := MedicalStaffSlice.Reduce(s, m[0].staff), DepartmentSlice.Reduce(d, m[1].department),
        PositionSlice.Reduce(p, m[2].position);
      s'.crud.loading && s'.crud.error == None && s'.crud.items == s.crud.items &&
      d'.loading && d'.error == None && d'.items == d.items &&
      p'.loading && p'.error == None && p'.items == p.items
  {
    MedicalStaffSlice.RequestStartsLoading(s, MedicalStaffSlice.FetchMedicalStaffRequest);
    DepartmentSlice.RequestStartsLoading(d, DepartmentSlice.FetchDepartmentsRequest);
    PositionSlice.RequestStartsLoading(p, PositionSlice.FetchPositionsRequest);
  }

  /** The page, as the actions it has dispatched, in order. */
  class Page {
    var dispatched: seq<PageAction>

    /** The first render and its mount effect. */
    constructor ()
      ensures dispatched == MountActions()
    {
      dispatched := MountActions();
    }

    /** `handleCreate`: build the body part by part and dispatch the create request. */
    method HandleCreate(values: Values)
      modifies this
      ensures dispatched == old(dispatched) + [Staff(MedicalStaffSlice.CreateMedicalStaffRequest(CreateParts(values)))]
    {
      var formData: seq<Part<StaffPayload>> := [JsonPart("staff", WithoutFile(values), None)];
      if HasFile(values) {
        formData := formData + [FilePart("file", values.profileImageFile.value.value)];
        assert formData == [formData[0], formData[1]];
      }
      assert formData == CreateParts(values);
      dispatched := dispatched + [Staff(MedicalStaffSlice.CreateMedicalStaffRequest(formData))];
    }

    /** `handleUpdate`. */
    method HandleUpdate(id: int, values: Values)
      modifies this
      ensures dispatched == old(dispatched) + [Staff(MedicalStaffSlice.UpdateMedicalStaffRequest(id, ToInput(values)))]
    {
      dispatched := dispatched + [Staff(MedicalStaffSlice.UpdateMedicalStaffRequest(id, ToInput(values)))];
    }

    /** `handleDelete`. */
    method HandleDelete(id: int)
      modifies this
      ensures dispatched == old(dispatched) + [Staff(MedicalStaffSlice.DeleteMedicalStaffRequest(id))]
    {
      dispatched := dispatched + [Staff(MedicalStaffSlice.DeleteMedicalStaffRequest(id))];
    }

    /** `onSearch`: the condition string passes through unchecked. */
    method Search(condition: string, value: string)
      modifies this
      ensures dispatched == old(dispatched) +
        [Staff(MedicalStaffSlice.FetchMedicalStaffByConditionRequest(MedicalStaffSlice.SearchCondition(condition, value)))]
    {
      dispatched := dispatched +
        [Staff(MedicalStaffSlice.FetchMedicalStaffByConditionRequest(MedicalStaffSlice.SearchCondition(condition, value)))];
    }
  }
}
