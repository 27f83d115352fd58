/** The sign-up screen: four text fields, a submit handler that checks them, registers the
    user, stores the returned token and then replaces the screen with the home tabs. */
module SignUp {
  import opened Ui
  import opened JsText
  import Api

  const FillInAllFields: string := "Please fill in all fields."
  const RegistrationSuccessful: string := "Registration successful!"
  const RegistrationFailed: string := "Registration failed."
  const HomeRoute: string := "HomeTabs"
  const LoginRoute: string := "LoginScreen"

  /** The arguments of one `registerUser` call. */
  datatype Registration = Registration(name: string, email: string, password: string, employeeId: string)

  /** How the awaited `registerUser` (and the token write after it) settled: the response
      body's `token`, which may be missing, or the error response's `message`, if any. */
  datatype RegisterOutcome = Registered(token: Option<string>) | Rejected(serverMessage: Option<string>)

  /** `!name || !email || !password || !employeeId` is false. */
  predicate AllFieldsFilled(name: string, email: string, password: string, employeeId: string): (ok: bool)
    ensures ok <==> "" !in {name, email, password, employeeId}
  {
    Truthy(name) && Truthy(email) && Truthy(password) && Truthy(employeeId)
  }

  /** `error.response?.data?.message || "Registration failed."`. */
  function FailureMessage(serverMessage: Option<string>): (r: string)
    ensures r != ""
    ensures serverMessage.Some? && serverMessage.value != "" ==> r == serverMessage.value
    ensures serverMessage.None? || serverMessage.value == "" ==> r == RegistrationFailed
  {
    if serverMessage.Some? && Truthy(serverMessage.value) then serverMessage.value else RegistrationFailed
  }

  class Screen {
    const api: Api.Client
    var name: string
    var email: string
    var password: string
    var employeeId: string
    var loading: bool
    var snackbarVisible: bool
    var snackbarMessage: string
    var snackbarColor: string
    /** The `registerUser` calls made so far. */
    var registrations: seq<Registration>
    /** A `registerUser` call is awaited. */
    var registerPending: bool
    /** The 1500 ms timer that ends loading and leaves the screen is scheduled. */
    var leavePending: bool
    /** The navigation calls made so far. */
    var navigation: seq<NavAction>

    /** While a registration or the timer after it is outstanding, the screen is loading
        (and its button disabled). */
    ghost predicate Valid()
      reads this
    {
      && (registerPending ==> loading)
      && (leavePending ==> loading)
      && !(registerPending && leavePending)
    }

    constructor (api: Api.Client)
      ensures Valid() && this.api == api
      ensures name == "" && email == "" && password == "" && employeeId == ""
      ensures !loading && !snackbarVisible && snackbarMessage == "" && snackbarColor == ""
      ensures registrations == [] && !registerPending && !leavePending && navigation == []
    {
      this.api := api;
      name, email, password, employeeId := "", "", "", "";
      loading, snackbarVisible, snackbarMessage, snackbarColor := false, false, "", "";
      registrations, registerPending, leavePending, navigation := [], false, false, [];
    }

    method SetName(text: string)
      modifies this`name
      ensures name == text
    {
      name := text;
    }

    method SetEmail(text: string)
      modifies this`email
      ensures email == text
    {
      email := text;
    }

    method SetPassword(text: string)
      modifies this`password
      ensures password == text
    {
      password := text;
    }

    method SetEmployeeId(text: string)
      modifies this`employeeId
      ensures employeeId == text
    {
      employeeId := text;
    }

    /** `handleSignUp` up to the awaited `registerUser`: an incomplete form only raises the
        red snackbar; a complete one sets loading and issues the registration. The button
        is disabled while loading. */
    method HandleSignUp()
      requires Valid() && !loading
      modifies this
      ensures Valid()
      ensures !AllFieldsFilled(name, email, password, employeeId) ==>
        && snackbarMessage == FillInAllFields && snackbarColor == Red && snackbarVisible
        && !loading && registrations == old(registrations) && !registerPending
      ensures AllFieldsFilled(name, email, password, employeeId) ==>
        && loading && registerPending
        && registrations == old(registrations) + [Registration(name, email, password, employeeId)]
        && snackbarMessage == old(snackbarMessage) && snackbarColor == old(snackbarColor)
        && snackbarVisible == old(snackbarVisible)
      ensures name == old(name) && email == old(email) && password == old(password) && employeeId == old(employeeId)
      ensures navigation == old(navigation) && leavePending == old(leavePending)
    {
      if !Truthy(name) || !Truthy(email) || !Truthy(password) || !Truthy(employeeId) {
        snackbarMessage := FillInAllFields;
        snackbarColor := Red;
        snackbarVisible := true;
        return;
      }
      loading := true;
      registrations := registrations + [Registration(name, email, password, employeeId)];
      registerPending := true;
    }

    /** The rest of `handleSignUp` once the registration settles: on success the returned
        token is handed to `setAuthToken`, the green snackbar shows and the timer is set; on
        failure loading ends, the server's message (or the fallback) shows in red, and the
        store and headers are left alone. */
    method RegisterSettled(outcome: RegisterOutcome)
      requires Valid() && registerPending && api.Valid()
      modifies this, api`storage, api`commonHeaders
      ensures Valid() && api.Valid() && !registerPending
      ensures api.baseUrl == old(api.baseUrl)
      ensures snackbarVisible
      ensures outcome.Registered? ==>
        && api.storage == Api.StorageAfter(old(api.storage), outcome.token)
        && api.commonHeaders == Api.CommonHeadersAfter(old(api.commonHeaders), outcome.token)
        && snackbarMessage == RegistrationSuccessful && snackbarColor == Green
        && loading && leavePending
      ensures outcome.Rejected? ==>
        && api.storage == old(api.storage) && api.commonHeaders == old(api.commonHeaders)
        && snackbarMessage == FailureMessage(outcome.serverMessage) && snackbarColor == Red
        && !loading && !leavePending
      ensures api.instanceHeaders == old(api.instanceHeaders)
      ensures name == old(name) && email == old(email) && password == old(password) && employeeId == old(employeeId)
      ensures registrations == old(registrations) && navigation == old(navigation)
    {
      registerPending := false;
      match outcome {
        case Registered(token) =>
          api.SetAuthToken(token);
          snackbarMessage := RegistrationSuccessful;
          snackbarColor := Green;
          snackbarVisible := true;
          leavePending := true;
        case Rejected(serverMessage) =>
          loading := false;
          snackbarMessage := FailureMessage(serverMessage);
          snackbarColor := Red;
          snackbarVisible := true;
      }
    }

    /** The 1500 ms timer: loading ends and the home tabs replace the screen. */
    method LeaveTimerFires()
      requires Valid() && leavePending
      modifies this`loading, this`leavePending, this`navigation
      ensures Valid() && !loading && !leavePending
      ensures navigation == old(navigation) + [Replace(HomeRoute)]
    {
      loading := false;
      leavePending := false;
      navigation := navigation + [Replace(HomeRoute)];
    }

    /** The "Already have an account? Login" link. */
    method GoToLogin()
      modifies this`navigation
      ensures navigation == old(navigation) + [Navigate(LoginRoute)]
    {
      navigation := navigation + [Navigate(LoginRoute)];
    }

    method DismissSnackbar()
      modifies this`snackbarVisible
      ensures !snackbarVisible
    {
      snackbarVisible := false;
    }
  }

  /** A complete form that the server accepts ends on the home tabs with the token stored;
      one it rejects stays on the screen and stores nothing. */
  method SignUpScenario(persisted: map<string, string>, outcome: RegisterOutcome)
    returns (stored: map<string, string>, trail: seq<NavAction>, message: string)
    ensures outcome.Registered? ==> stored == Api.StorageAfter(persisted, outcome.token) && trail == [Replace(HomeRoute)]
    ensures outcome.Registered? ==> message == RegistrationSuccessful
    ensures outcome.Rejected? ==> stored == persisted && trail == [] && message == FailureMessage(outcome.serverMessage)
  {
    var api := new Api.Client(persisted);
    var screen := new Screen(api);
    screen.SetName("Ada");
    screen.SetEmail("ada@example.com");
    screen.SetPassword("secret");
    screen.SetEmployeeId("E1");
    screen.HandleSignUp();
    screen.RegisterSettled(outcome);
    message := screen.snackbarMessage;
    if outcome.Registered? {
      screen.LeaveTimerFires();
    }
    stored, trail := api.storage, screen.navigation;
  }
}
