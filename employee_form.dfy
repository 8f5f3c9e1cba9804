/**
 * The fifteen-field employee draft edited by the register page (`FormState`)
 * and by the detail page's edit form (`EmployeeFormState`), the key-wise
 * update both use (`setForm(prev => ({ ...prev, [key]: value }))`), and the
 * two image-upload rules they share.
 */
module EmployeeForm {
  import opened Wrappers
  import opened Text
  import opened Multipart

  datatype Form = Form(
    employeeId: string,
    name: string,
    emailLocal: string,
    emailDomain: string,
    department: string,
    gender: string,
    birthDate: string,
    phonePrefix: string,
    phoneMiddle: string,
    phoneLast: string,
    zipCode: string,
    address1: string,
    address2: string,
    position: string,
    profileImageUrl: string)

  /** `keyof FormState`. */
  datatype Key =
    | EmployeeId | Name | EmailLocal | EmailDomain | Department | Gender | BirthDate
    | PhonePrefix | PhoneMiddle | PhoneLast | ZipCode | Address1 | Address2 | Position
    | ProfileImageUrl

  /** `form[key]`. */
  function Get(f: Form, k: Key): string {
    match k
    case EmployeeId => f.employeeId
    case Name => f.name
    case EmailLocal => f.emailLocal
    case EmailDomain => f.emailDomain
    case Department => f.department
    case Gender => f.gender
    case BirthDate => f.birthDate
    case PhonePrefix => f.phonePrefix
    case PhoneMiddle => f.phoneMiddle
    case PhoneLast => f.phoneLast
    case ZipCode => f.zipCode
    case Address1 => f.address1
    case Address2 => f.address2
    case Position => f.position
    case ProfileImageUrl => f.profileImageUrl
  }

  /** `{ ...f, [k]: v }`: the named key takes the new value and every other key keeps its own. */
  function Set(f: Form, k: Key, v: string): (r: Form)
    ensures Get(r, k) == v
    ensures forall j :: j != k ==> Get(r, j) == Get(f, j)
  {
    match k
    case EmployeeId => f.(employeeId := v)
    case Name => f.(name := v)
    case EmailLocal => f.(emailLocal := v)
    case EmailDomain => f.(emailDomain := v)
    case Department => f.(department := v)
    case Gender => f.(gender := v)
    case BirthDate => f.(birthDate := v)
    case PhonePrefix => f.(phonePrefix := v)
    case PhoneMiddle => f.(phoneMiddle := v)
    case PhoneLast => f.(phoneLast := v)
    case ZipCode => f.(zipCode := v)
    case Address1 => f.(address1 := v)
    case Address2 => f.(address2 := v)
    case Position => f.(position := v)
    case ProfileImageUrl => f.(profileImageUrl := v)
  }

  /** Two drafts that agree on every key are the same draft. */
  lemma FormExtensionality(f: Form, g: Form)
    requires forall k :: Get(f, k) == Get(g, k)
    ensures f == g
  {
    assert Get(f, EmployeeId) == Get(g, EmployeeId) && Get(f, Name) == Get(g, Name);
    assert Get(f, EmailLocal) == Get(g, EmailLocal) && Get(f, EmailDomain) == Get(g, EmailDomain);
    assert Get(f, Department) == Get(g, Department) && Get(f, Gender) == Get(g, Gender);
    assert Get(f, BirthDate) == Get(g, BirthDate) && Get(f, PhonePrefix) == Get(g, PhonePrefix);
    assert Get(f, PhoneMiddle) == Get(g, PhoneMiddle) && Get(f, PhoneLast) == Get(g, PhoneLast);
    assert Get(f, ZipCode) == Get(g, ZipCode) && Get(f, Address1) == Get(g, Address1);
    assert Get(f, Address2) == Get(g, Address2) && Get(f, Position) == Get(g, Position);
    assert Get(f, ProfileImageUrl) == Get(g, ProfileImageUrl);
  }

  /** Writing back a key's own value changes nothing; a second write to one key overrides the first. */
  lemma SetLaws(f: Form, k: Key, v: string, w: string)
    ensures Set(f, k, Get(f, k)) == f
    ensures Set(Set(f, k, v), k, w) == Set(f, k, w)
  {
    FormExtensionality(Set(f, k, Get(f, k)), f);
    FormExtensionality(Set(Set(f, k, v), k, w), Set(f, k, w));
  }

  /**
   * The upload-URL effect: once `imageUploadUrl` is set (truthy) it becomes
   * `profileImageUrl`; nothing else in the draft changes.
   */
  function MergeUploadedUrl(f: Form, imageUploadUrl: Option<string>): (r: Form)
    ensures Truthy(imageUploadUrl) ==> Get(r, ProfileImageUrl) == imageUploadUrl.value
    ensures forall k :: k != ProfileImageUrl ==> Get(r, k) == Get(f, k)
    ensures !Truthy(imageUploadUrl) ==> r == f
  {
    if Truthy(imageUploadUrl) then Set(f, ProfileImageUrl, imageUploadUrl.value) else f
  }

  /** `handleImageUpload`'s guard: `if (!selectedFile || imageUploading) return;`. */
  predicate MayUpload(selectedFile: Nullable<File>, imageUploading: bool) {
    selectedFile.NonNull? && !imageUploading
  }
}
