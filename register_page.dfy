/** The registration form (src/pages/auth/Register.tsx): the password
    confirmation gate, the role choice and the `isSubmitting` flag around the
    `register` call. */
module RegisterPage {
  import opened Wrappers
  import opened Identity
  import opened AuthContext
  import opened SessionCodec
  import opened FormOutcomes

  const MismatchMessage := "Les mots de passe ne correspondent pas"

  class RegisterForm {
    var name: string
    var email: string
    var password: string
    var confirmPassword: string
    var role: RegistrableRole
    var isSubmitting: bool

    /** The form starts empty, on the patient role. */
    constructor ()
      ensures name == "" && email == "" && password == "" && confirmPassword == ""
      ensures role == Patient && !isSubmitting
    {
      name := "";
      email := "";
      password := "";
      confirmPassword := "";
      role := Patient;
      isSubmitting := false;
    }

    method SetFields(name': string, email': string, password': string, confirm: string)
      modifies this`name, this`email, this`password, this`confirmPassword
      ensures name == name' && email == email' && password == password' && confirmPassword == confirm
    {
      name, email, password, confirmPassword := name', email', password', confirm;
    }

    /** The two radio buttons; an administrator cannot be chosen. */
    method ChooseRole(r: RegistrableRole)
      modifies this`role
      ensures role == r && role != Admin
    {
      role := r;
    }

    /** `handleSubmit`.  Different passwords show an error without calling
        `register` or touching the flag.  Otherwise `register` runs with the
        flag set (`busy` is its value during the call), and the flag is
        cleared whatever the result: a new account goes to the dashboard, a
        known email shows the error's message. */
    method HandleSubmit(auth: AuthProvider) returns (outcome: FormOutcome, busy: bool)
      requires auth.Valid()
      modifies this`isSubmitting, auth
      ensures auth.Valid()
      ensures password != confirmPassword ==>
        outcome == ShowError(MismatchMessage) && !busy && isSubmitting == old(isSubmitting) &&
        auth.user == old(auth.user) && auth.storage == old(auth.storage) && auth.isLoading == old(auth.isLoading)
      ensures password == confirmPassword ==> busy && !isSubmitting && !auth.isLoading
      ensures password == confirmPassword && FindEmail(MockUsers, email).None? ==>
        outcome == Navigate("/dashboard") && auth.user == Some(User(NewUserId(), name, email, role)) &&
        auth.storage == old(auth.storage)[SessionKey := Serialize(auth.user.value)]
      ensures password == confirmPassword && FindEmail(MockUsers, email).Some? ==>
        outcome == ShowError(Message(EmailTaken)) && auth.user == old(auth.user) &&
        auth.storage == old(auth.storage)
    {
      if password != confirmPassword {
        return ShowError(MismatchMessage), false;
      }
      isSubmitting := true;
      busy := isSubmitting;
      var r := auth.Register(name, email, password, role);
      outcome := if r.Pass? then Navigate("/dashboard") else ShowError(Message(r.error));
      isSubmitting := false;
    }
  }

  /** A successful registration never signs in an administrator, whatever
      the form held. */
  method RegisteredRoleNotAdmin(saved: map<string, string>, name: string, email: string, password: string)
    returns (outcome: FormOutcome, signedIn: Option<User>)
    ensures outcome == Navigate("/dashboard") <==> FindEmail(MockUsers, email).None?
    ensures outcome == Navigate("/dashboard") ==> signedIn.Some? && signedIn.value.role == Patient
  {
    var auth := new AuthProvider(saved);
    var form := new RegisterForm();
    form.SetFields(name, email, password, password);
    var busy;
    outcome, busy := form.HandleSubmit(auth);
    signedIn := auth.user;
  }
}
