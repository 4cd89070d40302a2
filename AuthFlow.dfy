/** The sign-in wizard (components/AuthFlow.tsx): choose a profile, then
    sign in or register; finishing hands the chosen role to the shell. */
module AuthFlow {
  import opened Types

  /** The wizard's steps: the profile choice, the login form, and the two
      registration forms (a person, "PF", and a company, "PJ"). */
  datatype AuthStep = UserTypeStep | LoginStep | RegisterPF | RegisterPJ

  /** The login button is disabled while the e-mail or the password is
      empty. */
  predicate LoginButtonDisabled(email: string, password: string)
  {
    email == "" || password == ""
  }

  /** The registration form of a role: the person's form for a candidate,
      the company's form otherwise. */
  function RegisterStepFor(role: UserRole): (s: AuthStep)
    ensures s == RegisterPF || s == RegisterPJ
    ensures s == RegisterPF <==> role == Candidate
  {
    if role == Candidate then RegisterPF else RegisterPJ
  }

  /** The four screens the wizard can draw. */
  datatype Screen = UserTypeScreen | LoginScreen | RegisterPFScreen | RegisterPJScreen

  /** What the wizard draws: each screen is drawn when the step is its
      own, so exactly the step's screen is drawn. */
  function Rendered(step: AuthStep): (r: seq<Screen>)
    ensures |r| == 1
    ensures r[0] == UserTypeScreen <==> step == UserTypeStep
    ensures r[0] == LoginScreen <==> step == LoginStep
    ensures r[0] == RegisterPFScreen <==> step == RegisterPF
    ensures r[0] == RegisterPJScreen <==> step == RegisterPJ
  {
    (if step == UserTypeStep then [UserTypeScreen] else [])
    + (if step == LoginStep then [LoginScreen] else [])
    + (if step == RegisterPF then [RegisterPFScreen] else [])
    + (if step == RegisterPJ then [RegisterPJScreen] else [])
  }

  class AuthFlow {
    var step: AuthStep
    var role: UserRole
    var email: string
    var password: string

    /** A registration form always matches the chosen role. */
    ghost predicate Valid()
      reads this
    {
      (step == RegisterPF ==> role == Candidate) && (step == RegisterPJ ==> role == Employer)
    }

    /** The wizard opens on the profile choice, as a candidate, with empty
        fields. */
    constructor()
      ensures Valid()
      ensures step == UserTypeStep && role == Candidate && email == "" && password == ""
    {
      step := UserTypeStep;
      role := Candidate;
      email := "";
      password := "";
    }

    /** Pick a profile on the first screen: it becomes the role and the
        login form opens. */
    method ChooseRole(r: UserRole)
      requires Valid() && step == UserTypeStep
      modifies this
      ensures Valid()
      ensures step == LoginStep && role == r
      ensures email == old(email) && password == old(password)
    {
      role := r;
      step := LoginStep;
    }

    /** Type into the e-mail field of the login form. */
    method SetEmail(value: string)
      requires Valid() && step == LoginStep
      modifies this
      ensures Valid()
      ensures email == value
      ensures step == old(step) && role == old(role) && password == old(password)
    {
      email := value;
    }

    /** Type into the password field of the login form. */
    method SetPassword(value: string)
      requires Valid() && step == LoginStep
      modifies this
      ensures Valid()
      ensures password == value
      ensures step == old(step) && role == old(role) && email == old(email)
    {
      password := value;
    }

    /** Submit the login form: the role is handed on exactly when the
        button is enabled, that is when both fields are filled; the
        wizard's own state does not change. */
    method SubmitLogin() returns (authenticated: Option<UserRole>)
      requires step == LoginStep
      ensures authenticated.None? <==> LoginButtonDisabled(email, password)
      ensures authenticated.Some? ==> authenticated.value == role
    {
      if email != "" && password != "" {
        authenticated := Some(role);
      } else {
        authenticated := None;
      }
    }

    /** Submit a registration form: the role is handed on whatever the
        fields hold, and it is the role the form belongs to. */
    method SubmitRegister() returns (authenticated: UserRole)
      requires Valid() && (step == RegisterPF || step == RegisterPJ)
      ensures authenticated == role
      ensures step == RegisterStepFor(authenticated)
    {
      authenticated := role;
    }

    /** "Criar conta": open the registration form of the chosen role. */
    method CreateAccount()
      requires Valid() && step == LoginStep
      modifies this
      ensures Valid()
      ensures step == RegisterStepFor(role)
      ensures role == old(role) && email == old(email) && password == old(password)
    {
      step := if role == Candidate then RegisterPF else RegisterPJ;
    }

    /** Back from the login form to the profile choice; the role stays. */
    method BackToUserType()
      requires Valid() && step == LoginStep
      modifies this
      ensures Valid()
      ensures step == UserTypeStep
      ensures role == old(role) && email == old(email) && password == old(password)
    {
      step := UserTypeStep;
    }

    /** Back from a registration form to the login form; the role stays. */
    method BackToLogin()
      requires Valid() && (step == RegisterPF || step == RegisterPJ)
      modifies this
      ensures Valid()
      ensures step == LoginStep
      ensures role == old(role) && email == old(email) && password == old(password)
    {
      step := LoginStep;
    }
  }

  /** Going to registration and back returns to the login form with the
      role and the fields as they were. */
  method RegisterAndBack(flow: AuthFlow)
    requires flow.Valid() && flow.step == LoginStep
    modifies flow
    ensures flow.Valid()
    ensures flow.step == LoginStep && flow.role == old(flow.role)
    ensures flow.email == old(flow.email) && flow.password == old(flow.password)
  {
    flow.CreateAccount();
    flow.BackToLogin();
  }

  /** A whole sign-in: pick a profile, fill both fields, submit; the role
      picked is the one handed on. */
  method SignIn(r: UserRole, email: string, password: string) returns (authenticated: Option<UserRole>)
    ensures authenticated.Some? <==> email != "" && password != ""
    ensures authenticated.Some? ==> authenticated.value == r
  {
    var flow := new AuthFlow();
    flow.ChooseRole(r);
    flow.SetEmail(email);
    flow.SetPassword(password);
    authenticated := flow.SubmitLogin();
  }

  /** A whole registration: pick a profile, open its form, submit; the role
      picked is the one handed on, with no field needed. */
  method Register(r: UserRole) returns (authenticated: UserRole)
    ensures authenticated == r
  {
    var flow := new AuthFlow();
    flow.ChooseRole(r);
    flow.CreateAccount();
    authenticated := flow.SubmitRegister();
  }
}
