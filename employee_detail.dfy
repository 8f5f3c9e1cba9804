/**
 * The read-only employee card: the image-url host rewrite and the e-mail,
 * phone and address lines composed from the split fields, and the `"-"`
 * shown for an empty row.
 */
module EmployeeDetail {
  import opened Wrappers
  import opened Text
  import opened EmployeesSlice

  /** The storage host as the backend reports it, and as the browser reaches it. */
  const InternalOrigin: string := "http://minio:9000"
  const PublicOrigin: string := "http://localhost:9000"

  /**
   * `normalizeImageUrl`: nothing for a missing or empty url; otherwise the url
   * with its first internal-host occurrence replaced by the public host.
   */
  function NormalizeImageUrl(url: Option<string>): (r: Option<string>)
    ensures !Truthy(url) ==> r == None
    ensures Truthy(url) ==> r.Some?
    ensures Truthy(url) && (forall k :: 0 <= k <= |url.value| ==> !OccursAt(url.value, InternalOrigin, k)) ==> r == url
    ensures forall k :: Truthy(url) && 0 <= k <= |url.value| && OccursAt(url.value, InternalOrigin, k)
              && (forall j :: 0 <= j < k ==> !OccursAt(url.value, InternalOrigin, j))
              ==> r == Some(url.value[..k] + PublicOrigin + url.value[k + |InternalOrigin|..])
  {
    if !Truthy(url) then None else Some(ReplaceFirst(url.value, InternalOrigin, PublicOrigin))
  }

  /** A url on the internal host keeps its path and moves to the public host. */
  lemma InternalUrlMovesToPublicHost(path: string)
    ensures NormalizeImageUrl(Some(InternalOrigin + path)) == Some(PublicOrigin + path)
  {
    var u := InternalOrigin + path;
    assert u[..|InternalOrigin|] == InternalOrigin;
    assert IndexOfFrom(u, InternalOrigin, 0) == Some(0);
    assert u[..0] + PublicOrigin + u[|InternalOrigin|..] == PublicOrigin + path;
  }

  /**
   * The e-mail line: when either split part is non-empty, the non-empty
   * parts joined by `@`; otherwise the stored `email`.
   */
  function DisplayEmail(e: Employee): (r: Option<string>)
    ensures Truthy(e.emailLocal) && Truthy(e.emailDomain) ==>
      r == Some(e.emailLocal.value + "@" + e.emailDomain.value)
    ensures Truthy(e.emailLocal) && !Truthy(e.emailDomain) ==> r == e.emailLocal
    ensures !Truthy(e.emailLocal) && Truthy(e.emailDomain) ==> r == e.emailDomain
    ensures !Truthy(e.emailLocal) && !Truthy(e.emailDomain) ==> r == e.email
  {
    JoinTruthyTwo(e.emailLocal, e.emailDomain, "@");
    if Truthy(e.emailLocal) || Truthy(e.emailDomain) then Some(JoinTruthy([e.emailLocal, e.emailDomain], "@"))
    else e.email
  }

  /**
   * The phone line: the non-empty prefix, middle and last parts joined by
   * `-`, or the stored `phone` when all three are empty.
   */
  function DisplayPhone(e: Employee): (r: Option<string>)
    ensures var parts := [e.phonePrefix, e.phoneMiddle, e.phoneLast];
      (exists i :: 0 <= i < 3 && Truthy(parts[i])) ==> r == Some(JoinTruthy(parts, "-")) && r.value != ""
    ensures !Truthy(e.phonePrefix) && !Truthy(e.phoneMiddle) && !Truthy(e.phoneLast) ==> r == e.phone
    ensures Truthy(e.phonePrefix) && Truthy(e.phoneMiddle) && Truthy(e.phoneLast) ==>
      r == Some(e.phonePrefix.value + "-" + e.phoneMiddle.value + "-" + e.phoneLast.value)
  {
    var parts := [e.phonePrefix, e.phoneMiddle, e.phoneLast];
    var joined := JoinTruthy(parts, "-");
    JoinTruthyThree(e.phonePrefix, e.phoneMiddle, e.phoneLast, "-");
    if joined != "" then Some(joined) else e.phone
  }

  /** The address line: the non-empty parts joined by one space. */
  function DisplayAddress(e: Employee): (r: string)
    ensures Truthy(e.address1) && Truthy(e.address2) ==> r == e.address1.value + " " + e.address2.value
    ensures Truthy(e.address1) && !Truthy(e.address2) ==> r == e.address1.value
    ensures !Truthy(e.address1) && Truthy(e.address2) ==> r == e.address2.value
    ensures !Truthy(e.address1) && !Truthy(e.address2) ==> r == ""
  {
    JoinTruthyTwo(e.address1, e.address2, " ");
    JoinTruthy([e.address1, e.address2], " ")
  }

  /** `renderRow`'s cell: the value, or `"-"` when it is missing or empty; never blank. */
  function RenderValue(value: Option<string>): (r: string)
    ensures Truthy(value) ==> r == value.value
    ensures !Truthy(value) ==> r == "-"
    ensures r != ""
  {
    if Truthy(value) then value.value else "-"
  }
}
