/** The login form (src/pages/auth/Login.tsx): the empty-field gate, the
    `isSubmitting` flag around the `login` call and the demo buttons. */
module LoginPage {
  import opened Wrappers
  import opened Identity
  import opened AuthContext
  import opened SessionCodec
  import opened FormOutcomes

  const EmptyFieldsMessage := "Veuillez remplir tous les champs"
  const DemoFailureMessage := "\U{C9}chec de la connexion. Veuillez r\U{E9}essayer."

  /** The password of every demo button. */
  const DemoPassword := "password"

  /** The email of a role's demo button. */
  function DemoEmail(role: Role): string {
    match role
    case Patient => "patient@example.com"
    case Doctor => "doctor@example.com"
    case Admin => "admin@example.com"
  }

  /** Each demo button's credentials find the directory entry of its role. */
  lemma DemoCredentialsFindRole(role: Role)
    ensures FindCredentials(MockUsers, DemoEmail(role), DemoPassword).Some?
    ensures FindCredentials(MockUsers, DemoEmail(role), DemoPassword).value.role == role
  {
    var i := match role case Patient => 0 case Doctor => 1 case Admin => 2;
    assert MockUsers[i].email == DemoEmail(role) && MockUsers[i].password == DemoPassword;
    MockUsersDistinctEmails();
  }

  class LoginForm {
    var email: string
    var password: string
    var isSubmitting: bool

    constructor ()
      ensures email == "" && password == "" && !isSubmitting
    {
      email := "";
      password := "";
      isSubmitting := false;
    }

    method SetEmail(text: string)
      modifies this`email
      ensures email == text
    {
      email := text;
    }

    method SetPassword(text: string)
      modifies this`password
      ensures password == text
    {
      password := text;
    }

    /** `handleSubmit`.  An empty field shows an error without calling
        `login` or touching the flag.  Otherwise `login` runs with the flag
        set (`busy` is its value during the call), and the flag is cleared
        whatever the result: a match goes to the dashboard, anything else
        shows the error's message. */
    method HandleSubmit(auth: AuthProvider) returns (outcome: FormOutcome, busy: bool)
      requires auth.Valid()
      modifies this`isSubmitting, auth
      ensures auth.Valid()
      ensures email == "" || password == "" ==>
        outcome == ShowError(EmptyFieldsMessage) && !busy && isSubmitting == old(isSubmitting) &&
        auth.user == old(auth.user) && auth.storage == old(auth.storage) && auth.isLoading == old(auth.isLoading)
      ensures email != "" && password != "" ==> busy && !isSubmitting && !auth.isLoading
      ensures email != "" && password != "" ==>
        match FindCredentials(MockUsers, email, password)
        case Some(a) =>
          outcome == Navigate("/dashboard") && auth.user == Some(WithoutPassword(a)) &&
          auth.storage == old(auth.storage)[SessionKey := Serialize(WithoutPassword(a))]
        case None =>
          outcome == ShowError(Message(InvalidCredentials)) && auth.user == old(auth.user) &&
          auth.storage == old(auth.storage)
    {
      if email == "" || password == "" {
        return ShowError(EmptyFieldsMessage), false;
      }
      isSubmitting := true;
      busy := isSubmitting;
      var r := auth.Login(email, password);
      outcome := if r.Pass? then Navigate("/dashboard") else ShowError(Message(r.error));
      isSubmitting := false;
    }

    /** `handleDemoLogin`: the role's demo credentials always sign in, as
        that role, and the dashboard follows. */
    method HandleDemoLogin(auth: AuthProvider, role: Role) returns (outcome: FormOutcome)
      requires auth.Valid()
      modifies this`isSubmitting, auth
      ensures auth.Valid() && !isSubmitting && !auth.isLoading
      ensures outcome == Navigate("/dashboard")
      ensures auth.user.Some? && auth.user.value.role == role && auth.user.value.email == DemoEmail(role)
    {
      isSubmitting := true;
      DemoCredentialsFindRole(role);
      var r := auth.Login(DemoEmail(role), DemoPassword);
      outcome := if r.Pass? then Navigate("/dashboard") else ShowError(DemoFailureMessage);
      isSubmitting := false;
    }
  }
}
