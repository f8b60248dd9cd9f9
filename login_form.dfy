/**
 * The login form's submit handler (src/components/auth/LoginForm.tsx):
 * it builds the user record from the typed fields and hands it, with the
 * chosen role, to the session holder. Nothing is validated.
 */
module LoginForm {
  datatype UserType = Patient | Doctor

  /** The user record; its random id is not part of this model. */
  datatype UserData = UserData(email: string, name: string, userType: UserType)

  /** One `onLogin(userType, userData)` invocation. */
  datatype LoginCall = LoginCall(userType: UserType, userData: UserData)

  /**
   * `s.split('@')[0]`: the text before the first '@', or all of `s` when
   * it has none.
   */
  function BeforeFirstAt(s: string): (r: string)
    ensures r <= s
    ensures '@' !in r
    ensures |r| < |s| ==> s[|r|] == '@'
  {
    if s == [] || s[0] == '@' then []
    else [s[0]] + BeforeFirstAt(s[1..])
  }

  /**
   * The three properties of `BeforeFirstAt` pin it down: any prefix of `s`
   * without '@' that stops at an '@' or at the end is that result.
   */
  lemma BeforeFirstAtUnique(s: string, p: string)
    requires p <= s && '@' !in p && (|p| < |s| ==> s[|p|] == '@')
    ensures p == BeforeFirstAt(s)
  {
  }

  /** An address without '@' is its own display name. */
  lemma BeforeFirstAtNoAt(s: string)
    requires '@' !in s
    ensures BeforeFirstAt(s) == s
  {
  }

  /** `name || email.split('@')[0]`: an empty name is the only falsy one. */
  function DisplayName(name: string, email: string): string
  {
    if name != "" then name else BeforeFirstAt(email)
  }

  /**
   * `handleSubmit(userType)` with the form's current `email`, `password`
   * and `name` fields: always succeeds, stamps the role into the record
   * and passes the same role alongside it.
   */
  function HandleSubmit(userType: UserType, email: string, password: string, name: string): (c: LoginCall)
    ensures c.userType == userType && c.userData.userType == userType
    ensures c.userData.email == email
    ensures name != "" ==> c.userData.name == name
    ensures name == "" ==>
      c.userData.name <= email && '@' !in c.userData.name &&
      (|c.userData.name| < |email| ==> email[|c.userData.name|] == '@')
  {
    LoginCall(userType, UserData(email, DisplayName(name, email), userType))
  }

  /** The password field has no influence on what is submitted. */
  lemma PasswordNotRecorded(userType: UserType, email: string, name: string, password1: string, password2: string)
    ensures HandleSubmit(userType, email, password1, name) == HandleSubmit(userType, email, password2, name)
  {
  }

  /** With an empty name, the record is named after the address's local part. */
  lemma LocalPartName(userType: UserType, email: string, password: string, local: string, domain: string)
    requires email == local + "@" + domain && '@' !in local
    ensures HandleSubmit(userType, email, password, "").userData.name == local
  {
    BeforeFirstAtUnique(email, local);
  }
}
