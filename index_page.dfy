/**
 * The top-level page (src/pages/Index.tsx): it holds the logged-in user,
 * sets it on login with the chosen role stamped in, clears it on logout,
 * and shows the login form, the patient dashboard or the doctor dashboard
 * depending on it.
 */
module IndexPage {
  import opened Wrappers
  import opened LoginForm

  datatype View = LoginView | PatientView | DoctorView

  /** The screen shown for a session state. */
  function SelectView(user: Option<UserData>): (v: View)
    ensures v == LoginView <==> user.None?
    ensures v == PatientView <==> user.Some? && user.value.userType == Patient
    ensures v == DoctorView <==> user.Some? && user.value.userType != Patient
  {
    match user
    case None => LoginView
    case Some(u) => if u.userType == Patient then PatientView else DoctorView
  }

  /** The dashboard a role leads to. */
  function RoleView(t: UserType): View
  {
    if t == Patient then PatientView else DoctorView
  }

  /** `{ ...userData, type: userType }` */
  function Stamped(userType: UserType, userData: UserData): UserData
  {
    userData.(userType := userType)
  }

  /** The role given to `handleLogin` decides the dashboard, whatever the record's own type. */
  lemma LoginSelectsRoleView(userType: UserType, userData: UserData)
    ensures SelectView(Some(Stamped(userType, userData))) == RoleView(userType)
    ensures SelectView(Some(Stamped(userType, userData))) != LoginView
  {
  }

  /**
   * Submitting the form and handing the call to the page: the user's role
   * is the tab's, their address is the one typed, and the matching
   * dashboard is shown.
   */
  lemma SubmitThenView(userType: UserType, email: string, password: string, name: string)
    ensures var c := HandleSubmit(userType, email, password, name);
      var u := Stamped(c.userType, c.userData);
      u.userType == userType && u.email == email &&
      (name != "" ==> u.name == name) &&
      SelectView(Some(u)) == RoleView(userType)
  {
  }

  /** The `user` state of the page. */
  class SessionHolder {
    var user: Option<UserData>

    constructor ()
      ensures user == None && CurrentView() == LoginView
    {
      user := None;
    }

    /** The view rendered for the current state. */
    function CurrentView(): (v: View)
      reads this
      ensures v == LoginView <==> user.None?
    {
      SelectView(user)
    }

    /** `handleLogin(userType, userData)` */
    method HandleLogin(userType: UserType, userData: UserData)
      modifies this
      ensures user == Some(userData.(userType := userType))
      ensures CurrentView() == RoleView(userType)
    {
      user := Some(Stamped(userType, userData));
    }

    /** `handleLogout()` */
    method HandleLogout()
      modifies this
      ensures user == None && CurrentView() == LoginView
    {
      user := None;
    }
  }

  /** A doctor-tab login with a patient-typed record reaches the doctor view; logout returns to login. */
  method LoginLogoutScenario(email: string) returns (afterLogin: View, afterLogout: View)
    ensures afterLogin == DoctorView && afterLogout == LoginView
  {
    var page := new SessionHolder();
    var c := HandleSubmit(Doctor, email, "", "");
    page.HandleLogin(c.userType, c.userData.(userType := Patient));
    afterLogin := page.CurrentView();
    page.HandleLogout();
    afterLogout := page.CurrentView();
  }
}
