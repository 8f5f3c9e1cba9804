/**
 * The medical-staff create/edit dialog: its values, the defaults, the merge
 * performed when the dialog opens, the field updaters, the id selects and
 * the two submit guards, and the dialog object whose handlers update
 * `form`, `previewUrl` and `confirmImage`.
 */
module MedicalStaffFormModal {
  import opened Wrappers
  import opened Text
  import opened Multipart

  /** `MedicalStaffFormValues`; an optional key is `Option`, a `| null` is `Nullable`. */
  datatype Values = Values(
    id: Option<int>,
    staffId: string,
    name: string,
    gender: Option<string>,
    birthDate: Option<string>,
    phone: Option<string>,
    email: Option<string>,
    hireDate: Option<string>,
    departmentId: Option<Nullable<int>>,
    positionId: Option<Nullable<int>>,
    status: Option<string>,
    profileImageFile: Option<Nullable<File>>)

  /** The values without `profileImageFile`: what the create request's `"staff"` part holds. */
  datatype StaffPayload = StaffPayload(
    id: Option<int>,
    staffId: string,
    name: string,
    gender: Option<string>,
    birthDate: Option<string>,
    phone: Option<string>,
    email: Option<string>,
    hireDate: Option<string>,
    departmentId: Option<Nullable<int>>,
    positionId: Option<Nullable<int>>,
    status: Option<string>)

  /** `SimpleOption`: an entry of the department and position selects. */
  datatype SimpleOption = SimpleOption(id: int, name: string)

  /** The text inputs of the dialog. */
  datatype TextKey = StaffId | Name | Gender | BirthDate | Phone | Email | HireDate | Status

  /** The two id selects. */
  datatype IdKey = DepartmentId | PositionId

  function GetText(v: Values, k: TextKey): Option<string> {
    match k
    case StaffId => Some(v.staffId)
    case Name => Some(v.name)
    case Gender => v.gender
    case BirthDate => v.birthDate
    case Phone => v.phone
    case Email => v.email
    case HireDate => v.hireDate
    case Status => v.status
  }

  function GetId(v: Values, k: IdKey): Option<Nullable<int>> {
    match k
    case DepartmentId => v.departmentId
    case PositionId => v.positionId
  }

  /** `defaultValues`: every text key "" but the status "ACTIVE", both selects null, no file. */
  function Defaults(): (r: Values)
    ensures r.id == None && r.profileImageFile == Some(Null)
    ensures forall k :: GetText(r, k) == Some(if k == Status then "ACTIVE" else "")
    ensures forall k :: GetId(r, k) == Some(Null)
  {
    Values(None, "", "", Some(""), Some(""), Some(""), Some(""), Some(""),
           Some(Null), Some(Null), Some("ACTIVE"), Some(Null))
  }

  /** `{ ...defaultValues, ...initialValues, profileImageFile: null }`. */
  function Merge(init: Values): (r: Values)
    ensures forall k :: GetText(r, k) == if GetText(init, k).Some? then GetText(init, k) else GetText(Defaults(), k)
    ensures forall k :: GetId(r, k) == if GetId(init, k).Some? then GetId(init, k) else GetId(Defaults(), k)
    ensures r.id == init.id
    ensures r.profileImageFile == Some(Null)
  {
    var d := Defaults();
    Values(Spread(d.id, init.id), init.staffId, init.name,
           Spread(d.gender, init.gender), Spread(d.birthDate, init.birthDate),
           Spread(d.phone, init.phone), Spread(d.email, init.email),
           Spread(d.hireDate, init.hireDate),
           Spread(d.departmentId, init.departmentId), Spread(d.positionId, init.positionId),
           Spread(d.status, init.status), Some(Null))
  }

  /** The form the open effect installs: merged initial values, or the defaults. */
  function Opened(initialValues: Nullable<Values>): (r: Values)
    ensures initialValues.NonNull? ==> r == Merge(initialValues.value)
    ensures initialValues.Null? ==> r == Defaults()
    ensures !HasFile(r)
  {
    if initialValues.NonNull? then Merge(initialValues.value) else Defaults()
  }

  /** `handleChange` on a text input: that key takes the value, nothing else changes. */
  function SetText(v: Values, k: TextKey, s: string): (r: Values)
    ensures GetText(r, k) == Some(s)
    ensures forall j :: j != k ==> GetText(r, j) == GetText(v, j)
    ensures forall j :: GetId(r, j) == GetId(v, j)
    ensures r.id == v.id && r.profileImageFile == v.profileImageFile
  {
    match k
    case StaffId => v.(staffId := s)
    case Name => v.(name := s)
    case Gender => v.(gender := Some(s))
    case BirthDate => v.(birthDate := Some(s))
    case Phone => v.(phone := Some(s))
    case Email => v.(email := Some(s))
    case HireDate => v.(hireDate := Some(s))
    case Status => v.(status := Some(s))
  }

  /** `handleChange` on an id select: that select takes the id, nothing else changes. */
  function SetId(v: Values, k: IdKey, x: Nullable<int>): (r: Values)
    ensures GetId(r, k) == Some(x)
    ensures forall j :: j != k ==> GetId(r, j) == GetId(v, j)
    ensures forall j :: GetText(r, j) == GetText(v, j)
    ensures r.id == v.id && r.profileImageFile == v.profileImageFile
  {
    match k
    case DepartmentId => v.(departmentId := Some(x))
    case PositionId => v.(positionId := Some(x))
  }

  /** `form.profileImageFile` is truthy. */
  predicate HasFile(v: Values) {
    v.profileImageFile.Some? && v.profileImageFile.value.NonNull?
  }

  /**
   * `handleSubmit`: nothing is submitted when the staff id or the name is
   * blank after trimming, or when a chosen image is not confirmed; otherwise
   * the form is passed on as it is.
   */
  function SubmitDecision(form: Values, confirmImage: bool): (r: Option<Values>)
    ensures r.Some? <==>
      !AllIn(form.staffId, IsJsWhitespace) && !AllIn(form.name, IsJsWhitespace) &&
      (HasFile(form) ==> confirmImage)
    ensures r.Some? ==> r.value == form
  {
    if Trim(form.staffId) == "" || Trim(form.name) == "" then None
    else if HasFile(form) && !confirmImage then None
    else Some(form)
  }

  /** A freshly chosen file blocks submission until it is confirmed, whatever the rest of the form holds. */
  lemma ChosenFileNeedsConfirmation(form: Values, f: File)
    ensures SubmitDecision(form.(profileImageFile := Some(NonNull(f))), false) == None
  {
  }

  /** Right after opening, the file guard cannot block: only the two text guards decide. */
  lemma OpenedNeedsOnlyText(initialValues: Nullable<Values>, confirmImage: bool)
    ensures var f := Opened(initialValues);
      SubmitDecision(f, confirmImage).Some? <==>
        !AllIn(f.staffId, IsJsWhitespace) && !AllIn(f.name, IsJsWhitespace)
  {
  }

  /** The dialog's state: the form, the preview url and the confirm checkbox. */
  class Dialog {
    var form: Values
    var previewUrl: Nullable<string>
    var confirmImage: bool

    constructor ()
      ensures form == Defaults() && previewUrl == Null && !confirmImage
    {
      form := Defaults();
      previewUrl := Null;
      confirmImage := false;
    }

    /** The open effect: install the opened form, drop the preview, clear the confirmation. */
    method Open(initialValues: Nullable<Values>)
      modifies this
      ensures form == Opened(initialValues) && previewUrl == Null && !confirmImage
    {
      if initialValues.NonNull? {
        form := Merge(initialValues.value);
        previewUrl := Null;
      } else {
        form := Defaults();
        previewUrl := Null;
      }
      confirmImage := false;
    }

    method ChangeText(k: TextKey, s: string)
      modifies this
      ensures form == SetText(old(form), k, s)
      ensures previewUrl == old(previewUrl) && confirmImage == old(confirmImage)
    {
      form := SetText(form, k, s);
    }

    /** A select's `onChange`: `""` stores null, anything else its number. */
    method SelectId(k: IdKey, raw: string, parse: string -> int)
      modifies this
      ensures form == SetId(old(form), k, NumberOrNull(raw, parse))
      ensures previewUrl == old(previewUrl) && confirmImage == old(confirmImage)
    {
      form := SetId(form, k, NumberOrNull(raw, parse));
    }

    /**
     * `handleFileChange`: store the file, clear the confirmation, and show
     * `objectUrl` (what `URL.createObjectURL(file)` returned) when there is a file.
     */
    method ChangeFile(file: Nullable<File>, objectUrl: string)
      modifies this
      ensures form == old(form).(profileImageFile := Some(file))
      ensures !confirmImage
      ensures previewUrl == if file.NonNull? then NonNull(objectUrl) else Null
    {
      form := form.(profileImageFile := Some(file));
      confirmImage := false;
      previewUrl := if file.NonNull? then NonNull(objectUrl) else Null;
    }

    /** The "this is the right photo" checkbox. */
    method Confirm(checked: bool)
      modifies this
      ensures confirmImage == checked
      ensures form == old(form) && previewUrl == old(previewUrl)
    {
      confirmImage := checked;
    }

    /** `handleSubmit`: what `onSubmit` receives, if it is called. */
    method Submit() returns (submitted: Option<Values>)
      ensures submitted.Some? <==>
        !AllIn(form.staffId, IsJsWhitespace) && !AllIn(form.name, IsJsWhitespace) &&
        (HasFile(form) ==> confirmImage)
      ensures submitted.Some? ==> submitted.value == form
    {
      submitted := SubmitDecision(form, confirmImage);
    }
  }
}
