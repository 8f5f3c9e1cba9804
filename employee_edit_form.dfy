/**
 * The detail page's edit form: the draft seeded from the stored employee
 * (every missing field becoming `""`), and the form object whose handlers
 * edit the draft, choose a file, upload it and hand the draft to `onSave`.
 */
module EmployeeEditForm {
  import opened Wrappers
  import opened Text
  import opened Multipart
  import opened EmployeeForm
  import EmployeesSlice

  /** The stored employee's value for a draft key; `employeeId` and `name` are always present. */
  function EmployeeField(e: EmployeesSlice.Employee, k: Key): Option<string> {
    match k
    case EmployeeId => Some(e.employeeId)
    case Name => Some(e.name)
    case EmailLocal => e.emailLocal
    case EmailDomain => e.emailDomain
    case Department => e.department
    case Gender => e.gender
    case BirthDate => e.birthDate
    case PhonePrefix => e.phonePrefix
    case PhoneMiddle => e.phoneMiddle
    case PhoneLast => e.phoneLast
    case ZipCode => e.zipCode
    case Address1 => e.address1
    case Address2 => e.address2
    case Position => e.position
    case ProfileImageUrl => e.profileImageUrl
  }

  /** The initial draft: each key the employee's value, `?? ""`. */
  function FromEmployee(e: EmployeesSlice.Employee): (r: Form)
    ensures forall k :: Get(r, k) == EmployeeField(e, k).GetOr("")
  {
    Form(e.employeeId, e.name, e.emailLocal.GetOr(""), e.emailDomain.GetOr(""),
      e.department.GetOr(""), e.gender.GetOr(""), e.birthDate.GetOr(""),
      e.phonePrefix.GetOr(""), e.phoneMiddle.GetOr(""), e.phoneLast.GetOr(""),
      e.zipCode.GetOr(""), e.address1.GetOr(""), e.address2.GetOr(""),
      e.position.GetOr(""), e.profileImageUrl.GetOr(""))
  }

  /**
   * The draft leaves out `id`, the combined `email` and `phone`, and the
   * timestamps: employees that differ only there seed the same draft.
   */
  lemma FromEmployeeIgnoresOmittedKeys(e: EmployeesSlice.Employee, f: EmployeesSlice.Employee)
    requires forall k :: EmployeeField(e, k) == EmployeeField(f, k)
    ensures FromEmployee(e) == FromEmployee(f)
  {
    FormExtensionality(FromEmployee(e), FromEmployee(f));
  }

  /** The edit form's state, and the actions it has dispatched to the store, in order. */
  class EditForm {
    var form: Form
    var selectedFile: Nullable<File>
    var dispatched: seq<EmployeesSlice.Action>

    /** The first render for `employee`, and its mount effect, which resets the upload state. */
    constructor (employee: EmployeesSlice.Employee)
      ensures form == FromEmployee(employee) && selectedFile == Null
      ensures dispatched == [EmployeesSlice.ResetEmployeeImageUpload]
    {
      form := FromEmployee(employee);
      selectedFile := Null;
      dispatched := [EmployeesSlice.ResetEmployeeImageUpload];
    }

    /** `handleFieldChange(key)`. */
    method FieldChange(key: Key, value: string)
      modifies this
      ensures form == Set(old(form), key, value)
      ensures selectedFile == old(selectedFile) && dispatched == old(dispatched)
    {
      form := Set(form, key, value);
    }

    /** `handleFileChange`: the first picked file, or null; only remembered locally. */
    method FileChange(picked: Nullable<File>)
      modifies this
      ensures selectedFile == picked
      ensures form == old(form) && dispatched == old(dispatched)
    {
      selectedFile := picked;
    }

    /** `handleImageUpload`: upload the chosen file unless none is chosen or an upload is running. */
    method UploadImage(imageUploading: bool)
      modifies this
      ensures MayUpload(selectedFile, imageUploading) ==>
        dispatched == old(dispatched) + [EmployeesSlice.UploadEmployeeImageRequest(selectedFile.value)]
      ensures !MayUpload(selectedFile, imageUploading) ==> dispatched == old(dispatched)
      ensures form == old(form) && selectedFile == old(selectedFile)
    {
      if selectedFile.Null? || imageUploading {
        return;
      }
      dispatched := dispatched + [EmployeesSlice.UploadEmployeeImageRequest(selectedFile.value)];
    }

    /** The effect on `imageUploadUrl`: a set url becomes the profile image url. */
    method UploadUrlChanged(imageUploadUrl: Option<string>)
      modifies this
      ensures form == MergeUploadedUrl(old(form), imageUploadUrl)
      ensures selectedFile == old(selectedFile) && dispatched == old(dispatched)
    {
      form := MergeUploadedUrl(form, imageUploadUrl);
    }

    /** `handleSave`: the draft as it stands goes to `onSave`; the chosen file is not part of it. */
    method Save() returns (saved: Form)
      ensures saved == form
    {
      saved := form;
    }
  }
}
