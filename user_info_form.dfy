/**
 * The first form (src/components/UserInfoForm.tsx): name, role and company. The submit button is
 * enabled by a check on the trimmed fields; the submit handler itself checks the fields untrimmed
 * and hands them on unchanged, with an empty email.
 */
module UserInfoForm {
  import opened Types
  import opened Text

  /** `isValid`: each field holds something other than whitespace; it enables the submit button. */
  function IsValid(name: string, role: string, company: string): (ok: bool)
    ensures ok <==> !AllSpace(name) && !AllSpace(role) && !AllSpace(company)
  {
    Trim(name) != [] && Trim(role) != [] && Trim(company) != []
  }

  /**
   * `handleSubmit`: the record passed to `onSubmit`, if it is called. The fields are checked for
   * being non-empty as typed, and passed on as typed.
   */
  function HandleSubmit(name: string, role: string, company: string): (emitted: Option<UserInfo>)
    ensures emitted.Some? <==> name != [] && role != [] && company != []
    ensures emitted.Some? ==>
      && emitted.value.name == name && emitted.value.role == role && emitted.value.company == company
      && emitted.value.email == []
  {
    if name != [] && role != [] && company != [] then Some(UserInfo(name, role, company, "")) else None
  }

  /** Whenever the button is enabled, submitting hands the fields on. */
  lemma EnabledSubmits(name: string, role: string, company: string)
    requires IsValid(name, role, company)
    ensures HandleSubmit(name, role, company) == Some(UserInfo(name, role, company, ""))
  {
    assert name != [] by { assert !AllSpace(name); }
    assert role != [] by { assert !AllSpace(role); }
    assert company != [] by { assert !AllSpace(company); }
  }

  /**
   * The two checks differ: a field of spaces passes the submit handler's check but keeps the
   * button disabled.
   */
  lemma WhitespaceFieldPassesOnlySubmit(role: string, company: string)
    requires role != [] && company != []
    ensures HandleSubmit(" ", role, company).Some?
    ensures !IsValid(" ", role, company)
  {
    assert AllSpace(" ") by { assert IsSpace(" "[0]); }
  }
}
