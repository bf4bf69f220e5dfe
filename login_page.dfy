/**
 * The login page: the submit handler around `login` and the choice of where
 * a freshly logged-in user goes, made from the role of the stored user.
 */
module LoginPage {
  import opened Wrappers
  import opened Routes
  import opened AuthContext

  const InvalidCredentials: string := "Email atau password salah"

  /** The role in storage: none when nothing is stored (the source parses '{}' then). */
  function StoredRole(stored: Option<User>): Option<Role>
  {
    if stored.Some? then Some(stored.value.role) else None
  }

  /**
   * The role switch as written: admin to `/admin`, partner to
   * `/partner-dashboard`, anything else (including no role) to `/dashboard`.
   */
  function DestinationAsWritten(role: Option<Role>): string
  {
    match role
    case Some(Admin) => "/admin"
    case Some(Partner) => "/partner-dashboard"
    case _ => "/dashboard"
  }

  /** As written, a partner is sent to a path no route declares, so the not-found page renders. */
  lemma PartnerDestinationNotDeclared()
    ensures !IsDeclared(DestinationAsWritten(Some(Partner)))
    ensures Resolve(DestinationAsWritten(Some(Partner))) == "*"
    ensures forall r :: r != Some(Partner) ==> IsDeclared(DestinationAsWritten(r))
  {
    var p := DestinationAsWritten(Some(Partner));
    assert p[..|ReviewPrefix|] != ReviewPrefix by {
      assert p[1] == 'p' && ReviewPrefix[1] == 'r';
    }
  }

  /**
   * The role switch with the partner's destination corrected to `/partner`,
   * the path the router declares for the partner dashboard.
   */
  function Destination(role: Option<Role>): (path: string)
    ensures path in StaticRoutes && Resolve(path) == path
    ensures role == Some(Admin) ==> path == "/admin"
    ensures role == Some(Partner) ==> path == "/partner"
    ensures role != Some(Admin) && role != Some(Partner) ==> path == "/dashboard"
  {
    match role
    case Some(Admin) => "/admin"
    case Some(Partner) => "/partner"
    case _ => "/dashboard"
  }

  /** The correction changes the destination of partners and of no one else. */
  lemma DestinationCorrectsOnlyPartner(role: Option<Role>)
    ensures Destination(role) == DestinationAsWritten(role) <==> role != Some(Partner)
  {
  }

  /** The form's state: the error line and the loading flag. */
  class LoginForm {
    var error: string
    var loading: bool

    constructor ()
      ensures error == "" && !loading
    {
      error := "";
      loading := false;
    }

    /**
     * `handleSubmit`: clears the error, calls `login`; on success goes where
     * the stored user's role says, on failure shows the invalid-credentials
     * message and stays. Loading is off at the end either way.
     */
    method Submit(auth: IdentityStore, email: string, password: string) returns (nav: Option<string>)
      modifies this, auth
      ensures auth.directory == old(auth.directory)
      ensures !loading
      ensures HasMatch(auth.directory, email, password) ==>
        && error == ""
        && auth.stored == Some(FindAccount(auth.directory, email, password).value.user)
        && auth.current == auth.stored
        && nav == Some(Destination(StoredRole(auth.stored)))
      ensures !HasMatch(auth.directory, email, password) ==>
        && error == InvalidCredentials && nav == None
        && auth.current == old(auth.current) && auth.stored == old(auth.stored)
    {
      loading := true;
      error := "";
      var success := auth.Login(email, password);
      if success {
        nav := Some(Destination(StoredRole(auth.stored)));
      } else {
        error := InvalidCredentials;
        nav := None;
      }
      loading := false;
    }
  }
}
