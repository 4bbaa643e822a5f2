/** The sign-in page: which tab and form the `role` query value selects,
    and how a login reply drives the session and the form's messages. */
module Signin {
  import opened Wrappers
  import opened Json
  import opened Records
  import opened AuthContext

  const GenericLoginError := "An unexpected error occurred during login."
  const FarmerWelcome := "Farmer logged in successfully!"
  const RetailerWelcome := "Retailer logged in successfully!"
  /** Where a successful sign-in redirects (after a delay that is not modelled). */
  const HomePath := "/"

  /** The role the page is opened for: the `role` query value, or "farmer"
      when it is absent or empty. */
  function RoleParam(query: Option<string>): (role: string)
    ensures role != ""
    ensures query.Some? && query.value != "" ==> role == query.value
    ensures query.None? || query.value == "" ==> role == FarmerRole
  {
    if query.Some? && query.value != "" then query.value else FarmerRole
  }

  datatype Form = FarmerForm | RetailerForm | NoForm

  /** The form under the tab buttons: the farmer form for the "farmer" tab,
      the retailer form for the "retailer" tab, nothing for any other value. */
  function FormFor(tab: string): (f: Form)
    ensures f == FarmerForm <==> tab == FarmerRole
    ensures f == RetailerForm <==> tab == RetailerRole
    ensures f == NoForm <==> tab != FarmerRole && tab != RetailerRole
  {
    if tab == FarmerRole then FarmerForm
    else if tab == RetailerRole then RetailerForm
    else NoForm
  }

  /** The page: the role derived from the query at the last render, and the selected tab. */
  class SigninPage {
    var role: string
    var activeTab: string

    constructor (query: Option<string>)
      ensures role == RoleParam(query) && activeTab == role
    {
      role := RoleParam(query);
      activeTab := role;
    }

    /** A render with a new query: the effect resets the tab only when the
        derived role differs from the previous one. */
    method Rerender(query: Option<string>)
      modifies this
      ensures role == RoleParam(query)
      ensures role != old(role) ==> activeTab == role
      ensures role == old(role) ==> activeTab == old(activeTab)
    {
      var r := RoleParam(query);
      if r != role {
        activeTab := r;
      }
      role := r;
    }

    method ClickFarmerTab()
      modifies this
      ensures activeTab == FarmerRole && role == old(role)
    {
      activeTab := FarmerRole;
    }

    method ClickRetailerTab()
      modifies this
      ensures activeTab == RetailerRole && role == old(role)
    {
      activeTab := RetailerRole;
    }

    function ShownForm(): Form
      reads this
    {
      FormFor(activeTab)
    }
  }

  /** The body of a successful login reply: the account record and the token. */
  datatype LoginData = LoginData(account: Json, token: string)

  datatype Kind = Farmer | Retailer

  function RoleOf(kind: Kind): string
  {
    match kind
    case Farmer => FarmerRole
    case Retailer => RetailerRole
  }

  function Welcome(kind: Kind): string
  {
    match kind
    case Farmer => FarmerWelcome
    case Retailer => RetailerWelcome
  }

  /** The login post: to the farmer or the retailer endpoint, with the form's credentials. */
  function LoginRequest(kind: Kind, credentials: Credentials): (r: Request)
    ensures r.LoginFarmer? <==> kind == Farmer
    ensures r.LoginRetailer? <==> kind == Retailer
    ensures (r.LoginFarmer? || r.LoginRetailer?) && r.credentials == credentials
  {
    match kind
    case Farmer => LoginFarmer(credentials)
    case Retailer => LoginRetailer(credentials)
  }

  /** The message shown when a login fails: the backend's description when
      it is truthy, the generic message otherwise. Never empty, so the error
      banner always appears. */
  function LoginError(description: Option<string>): (message: string)
    ensures message != ""
    ensures description.Some? && description.value != "" ==> message == description.value
    ensures description.None? || description.value == "" ==> message == GenericLoginError
  {
    if description.Some? && description.value != "" then description.value else GenericLoginError
  }

  /** The farmer or retailer sign-in form with its two messages. */
  class SignInForm {
    const kind: Kind
    var error: string
    var successMessage: string

    constructor (kind: Kind)
      ensures this.kind == kind && error == "" && successMessage == ""
    {
      this.kind := kind;
      error := "";
      successMessage := "";
    }

    /** Submitting: both messages are cleared, the login request is sent, and
        the reply either logs the session in under the form's role or sets
        the error. */
    method HandleSubmit(credentials: Credentials, reply: Reply<LoginData>, session: Session, jar: CookieJar)
        returns (sent: Request, redirect: Option<string>)
      modifies this, session, jar
      ensures sent == LoginRequest(kind, credentials)
      ensures reply.Ok? ==>
        error == "" && successMessage == Welcome(kind) && redirect == Some(HomePath) &&
        session.isLoggedIn && session.user == reply.data.account &&
        session.userRole == Some(RoleOf(kind)) &&
        jar.cookies == old(jar.cookies)
          [TokenCookie := Cookie(reply.data.token, Some(ExpiryDays))]
          [UserCookie := Cookie(Stringify(reply.data.account), Some(ExpiryDays))]
          [RoleCookie := Cookie(RoleOf(kind), Some(ExpiryDays))]
      ensures reply.Failed? ==>
        error == LoginError(reply.message) && successMessage == "" && redirect == None &&
        session.isLoggedIn == old(session.isLoggedIn) && session.user == old(session.user) &&
        session.userRole == old(session.userRole) && jar.cookies == old(jar.cookies)
    {
      error := "";
      successMessage := "";
      sent := LoginRequest(kind, credentials);
      match reply {
        case Ok(data) =>
          session.Login(jar, data.account, RoleOf(kind), data.token);
          successMessage := Welcome(kind);
          redirect := Some(HomePath);
        case Failed(description) =>
          error := LoginError(description);
          redirect := None;
      }
    }
  }

  /** Opening `/signin?role=retailer` and signing in successfully leaves a
      retailer session whose user is the returned account. */
  method RetailerSignIn(credentials: Credentials, data: LoginData, jar: CookieJar)
      returns (session: Session, redirect: Option<string>)
    modifies jar
    ensures fresh(session)
    ensures session.isLoggedIn && session.user == data.account && session.userRole == Some(RetailerRole)
    ensures redirect == Some(HomePath)
  {
    session := new Session();
    var page := new SigninPage(Some(RetailerRole));
    assert page.ShownForm() == RetailerForm;
    var form := new SignInForm(Retailer);
    var sent;
    sent, redirect := form.HandleSubmit(credentials, Ok(data), session, jar);
  }
}
