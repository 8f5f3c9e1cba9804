/**
 * The employee registration page: the initial draft, the phone, prefix and
 * address updaters, the image-file check, the multipart body it submits, and
 * the page object whose handlers and effects update the draft, the chosen
 * file and the dispatched actions.
 */
module EmployeeRegister {
  import opened Wrappers
  import opened Text
  import opened Multipart
  import opened EmployeeForm
  import EmployeesSlice

  /** `INITIAL_FORM`: everything empty but the mail domain and the phone prefix. */
  function InitialForm(): (r: Form)
    ensures Get(r, EmailDomain) == "naver.com" && Get(r, PhonePrefix) == "010"
    ensures forall k :: k != EmailDomain && k != PhonePrefix ==> Get(r, k) == ""
  {
    Form("", "", "", "naver.com", "", "", "", "010", "", "", "", "", "", "", "")
  }

  /** The length cap of a phone part: 3 for the middle part under a prefix other than 010, else 4. */
  function MaxPhoneLength(key: Key, prefix: string): (r: nat)
    ensures r == 3 || r == 4
    ensures r == 3 <==> key == PhoneMiddle && prefix != "010"
  {
    if key == PhoneMiddle && prefix != "010" then 3 else 4
  }

  /**
   * `handlePhoneChange(key)`: keep the digits of what was typed, cut to the
   * cap, into that part; no other key changes.
   */
  function PhoneChange(f: Form, key: Key, typed: string): (r: Form)
    requires key == PhoneMiddle || key == PhoneLast
    ensures AllDigits(Get(r, key))
    ensures |Get(r, key)| <= MaxPhoneLength(key, f.phonePrefix)
    ensures StartsWith(KeepDigits(typed), Get(r, key))
    ensures |KeepDigits(typed)| <= MaxPhoneLength(key, f.phonePrefix) ==> Get(r, key) == KeepDigits(typed)
    ensures |KeepDigits(typed)| > MaxPhoneLength(key, f.phonePrefix) ==> |Get(r, key)| == MaxPhoneLength(key, f.phonePrefix)
    ensures Get(r, key) == Take(KeepDigits(typed), MaxPhoneLength(key, f.phonePrefix))
    ensures forall k :: k != key ==> Get(r, k) == Get(f, k)
  {
    var digits := KeepDigits(typed);
    var kept := Take(digits, MaxPhoneLength(key, f.phonePrefix));
    assert forall i :: 0 <= i < |kept| ==> kept[i] == digits[i];
    Set(f, key, kept)
  }

  /** Typing back what a phone part already shows changes nothing. */
  lemma PhoneChangeIsStable(f: Form, key: Key, typed: string)
    requires key == PhoneMiddle || key == PhoneLast
    ensures var g := PhoneChange(f, key, typed); PhoneChange(g, key, Get(g, key)) == g
  {
    var g := PhoneChange(f, key, typed);
    KeepDigitsOfDigits(Get(g, key));
    assert g.phonePrefix == f.phonePrefix;
    SetLaws(g, key, Get(g, key), Get(g, key));
  }

  /** `handlePhonePrefixChange`: set the prefix and empty the middle and last parts. */
  function PrefixChange(f: Form, prefix: string): (r: Form)
    ensures Get(r, PhonePrefix) == prefix && Get(r, PhoneMiddle) == "" && Get(r, PhoneLast) == ""
    ensures forall k :: k != PhonePrefix && k != PhoneMiddle && k != PhoneLast ==> Get(r, k) == Get(f, k)
  {
    f.(phonePrefix := prefix, phoneMiddle := "", phoneLast := "")
  }

  datatype AddressType = Road | Jibun

  /** The postcode widget's `oncomplete` data; every key may be missing. */
  datatype PostcodeResult = PostcodeResult(
    zonecode: Option<string>,
    roadAddress: Option<string>,
    jibunAddress: Option<string>,
    userSelectedType: Option<AddressType>)

  /**
   * `oncomplete`: the zip code, and the road address when the user picked
   * one ("R"), else the lot-number address; a missing value becomes `""`.
   */
  function AddressPicked(f: Form, data: PostcodeResult): (r: Form)
    ensures Get(r, ZipCode) == data.zonecode.GetOr("")
    ensures data.userSelectedType == Some(Road) ==> Get(r, Address1) == data.roadAddress.GetOr("")
    ensures data.userSelectedType != Some(Road) ==> Get(r, Address1) == data.jibunAddress.GetOr("")
    ensures forall k :: k != ZipCode && k != Address1 ==> Get(r, k) == Get(f, k)
  {
    var address := if data.userSelectedType == Some(Road) then data.roadAddress else data.jibunAddress;
    f.(zipCode := data.zonecode.GetOr(""), address1 := address.GetOr(""))
  }

  /** `file.type.startsWith("image/")`: the type is `image/` followed by anything. */
  predicate IsImage(file: File)
    ensures IsImage(file) <==> exists rest :: file.mimeType == "image/" + rest
  {
    assert StartsWith(file.mimeType, "image/") ==> file.mimeType == "image/" + file.mimeType[6..];
    assert forall rest :: ("image/" + rest)[..6] == "image/";
    StartsWith(file.mimeType, "image/")
  }

  /**
   * The body `handleSubmit` builds: an `"employee"` part holding the draft
   * (file name `employee.json`), then a `"file"` part exactly when a file is
   * selected.
   */
  function SubmitParts(form: Form, selectedFile: Nullable<File>): (r: seq<Part<Form>>)
    ensures Fields(r) == ["employee"] + (if selectedFile.NonNull? then ["file"] else [])
    ensures r[0] == JsonPart("employee", form, Some("employee.json"))
    ensures selectedFile.NonNull? ==> r[1] == FilePart("file", selectedFile.value)
  {
    var employee := JsonPart("employee", form, Some("employee.json"));
    if selectedFile.NonNull? then [employee, FilePart("file", selectedFile.value)] else [employee]
  }

  /** The registration page's state, and the actions it has dispatched to the store, in order. */
  class RegisterPage {
    var form: Form
    var submitted: bool
    var toastOpen: bool
    var selectedFile: Nullable<File>
    var previewUrl: Nullable<string>
    var isImageFile: bool
    var dispatched: seq<EmployeesSlice.Action>

    /** The first render and its mount effect, which resets the upload state. */
    constructor ()
      ensures form == InitialForm() && !submitted && !toastOpen
      ensures selectedFile == Null && previewUrl == Null && !isImageFile
      ensures dispatched == [EmployeesSlice.ResetEmployeeImageUpload]
    {
      form := InitialForm();
      submitted := false;
      toastOpen := false;
      selectedFile := Null;
      previewUrl := Null;
      isImageFile := false;
      dispatched := [EmployeesSlice.ResetEmployeeImageUpload];
    }

    /** `handleChange(key)`. */
    method Change(key: Key, value: string)
      modifies this
      ensures form == Set(old(form), key, value)
      ensures dispatched == old(dispatched) && selectedFile == old(selectedFile) && submitted == old(submitted)
      ensures toastOpen == old(toastOpen) && previewUrl == old(previewUrl) && isImageFile == old(isImageFile)
    {
      form := Set(form, key, value);
    }

    method ChangePhone(key: Key, typed: string)
      requires key == PhoneMiddle || key == PhoneLast
      modifies this
      ensures form == PhoneChange(old(form), key, typed)
      ensures dispatched == old(dispatched) && selectedFile == old(selectedFile) && submitted == old(submitted)
      ensures toastOpen == old(toastOpen) && previewUrl == old(previewUrl) && isImageFile == old(isImageFile)
    {
      form := PhoneChange(form, key, typed);
    }

    method ChangePrefix(prefix: string)
      modifies this
      ensures form == PrefixChange(old(form), prefix)
      ensures dispatched == old(dispatched) && selectedFile == old(selectedFile) && submitted == old(submitted)
      ensures toastOpen == old(toastOpen) && previewUrl == old(previewUrl) && isImageFile == old(isImageFile)
    {
      form := PrefixChange(form, prefix);
    }

    method PickAddress(data: PostcodeResult)
      modifies this
      ensures form == AddressPicked(old(form), data)
      ensures dispatched == old(dispatched) && selectedFile == old(selectedFile) && submitted == old(submitted)
      ensures toastOpen == old(toastOpen) && previewUrl == old(previewUrl) && isImageFile == old(isImageFile)
    {
      form := AddressPicked(form, data);
    }

    /**
     * `handleFileChange`: remember the file; an image gets a preview at
     * `objectUrl` (what `URL.createObjectURL(file)` returned), anything else none.
     */
    method ChooseFile(file: Nullable<File>, objectUrl: string)
      modifies this
      ensures selectedFile == file
      ensures isImageFile <==> file.NonNull? && IsImage(file.value)
      ensures previewUrl == if isImageFile then NonNull(objectUrl) else Null
      ensures form == old(form) && dispatched == old(dispatched) && submitted == old(submitted)
      ensures toastOpen == old(toastOpen)
    {
      selectedFile := file;
      if file.Null? {
        previewUrl := Null;
        isImageFile := false;
        return;
      }
      var isImage := IsImage(file.value);
      isImageFile := isImage;
      if isImage {
        previewUrl := NonNull(objectUrl);
      } else {
        previewUrl := Null;
      }
    }

    /** `handleImageUpload`: upload the chosen file unless none is chosen or an upload is running. */
    method UploadImage(imageUploading: bool)
      modifies this
      ensures MayUpload(selectedFile, imageUploading) ==>
        dispatched == old(dispatched) + [EmployeesSlice.UploadEmployeeImageRequest(selectedFile.value)]
      ensures !MayUpload(selectedFile, imageUploading) ==> dispatched == old(dispatched)
      ensures form == old(form) && selectedFile == old(selectedFile) && submitted == old(submitted)
      ensures toastOpen == old(toastOpen) && previewUrl == old(previewUrl) && isImageFile == old(isImageFile)
    {
      if selectedFile.Null? || imageUploading {
        return;
      }
      dispatched := dispatched + [EmployeesSlice.UploadEmployeeImageRequest(selectedFile.value)];
    }

    /** The effect on `imageUploadUrl`: a set url becomes the profile image url. */
    method UploadUrlChanged(imageUploadUrl: Option<string>)
      modifies this
      ensures form == MergeUploadedUrl(old(form), imageUploadUrl)
      ensures dispatched == old(dispatched) && selectedFile == old(selectedFile) && submitted == old(submitted)
      ensures toastOpen == old(toastOpen) && previewUrl == old(previewUrl) && isImageFile == old(isImageFile)
    {
      form := MergeUploadedUrl(form, imageUploadUrl);
    }

    /** `handleSubmit`: send the body and wait for the request to settle. */
    method Submit()
      modifies this
      ensures dispatched == old(dispatched) + [EmployeesSlice.CreateEmployeeRequest(SubmitParts(form, selectedFile))]
      ensures submitted
      ensures form == old(form) && selectedFile == old(selectedFile)
      ensures toastOpen == old(toastOpen) && previewUrl == old(previewUrl) && isImageFile == old(isImageFile)
    {
      dispatched := dispatched + [EmployeesSlice.CreateEmployeeRequest(SubmitParts(form, selectedFile))];
      submitted := true;
    }

    /**
     * The post-submit effect, run with the store's `loading` and `error`:
     * once a submission has settled, an error-free one resets the page;
     * `submitted` is cleared either way.
     */
    method Settle(loading: bool, error: Option<string>)
      modifies this
      ensures !old(submitted) || loading ==>
        form == old(form) && submitted == old(submitted) && selectedFile == old(selectedFile) &&
        toastOpen == old(toastOpen) && previewUrl == old(previewUrl) && isImageFile == old(isImageFile)
      ensures old(submitted) && !loading ==> !submitted
      ensures old(submitted) && !loading && !Truthy(error) ==>
        toastOpen && form == InitialForm() && selectedFile == Null && previewUrl == Null && !isImageFile
      ensures old(submitted) && !loading && Truthy(error) ==>
        form == old(form) && selectedFile == old(selectedFile) && toastOpen == old(toastOpen) &&
        previewUrl == old(previewUrl) && isImageFile == old(isImageFile)
      ensures dispatched == old(dispatched)
    {
      if !submitted || loading {
        return;
      }
      if !Truthy(error) {
        toastOpen := true;
        form := InitialForm();
        selectedFile := Null;
        previewUrl := Null;
        isImageFile := false;
      }
      submitted := false;
    }
  }
}
