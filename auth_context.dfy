/** The auth session store of src/contexts/AuthContext.tsx: the current user,
    the loading flag, and the browser's localStorage, where the session is
    kept under one key.  Each asynchronous operation is one atomic step. */
module AuthContext {
  import opened Wrappers
  import opened Identity
  import opened SessionCodec

  /** The localStorage key of the session. */
  const SessionKey := "si7ati_user"

  /** The two errors `login` and `register` throw. */
  datatype AuthError = InvalidCredentials | EmailTaken

  /** The `message` of the thrown `Error`. */
  function Message(e: AuthError): string {
    match e
    case InvalidCredentials => "Identifiants incorrects"
    case EmailTaken => "Cet email est d\U{E9}j\U{E0} utilis\U{E9}"
  }

  /** What the session slot holds, as restore reads it: nothing (absent, or
      the empty string, which is falsy), a user, or text `JSON.parse` throws on. */
  datatype Slot = Vacant | Session(user: User) | Unreadable(text: string)

  function ReadSlot(storage: map<string, string>): (slot: Slot)
    ensures slot == Vacant <==> SessionKey !in storage || storage[SessionKey] == ""
    ensures slot.Session? ==> SessionKey in storage && storage[SessionKey] == Serialize(slot.user)
    ensures slot.Unreadable? ==> SessionKey in storage && slot.text == storage[SessionKey]
  {
    if SessionKey !in storage || storage[SessionKey] == "" then Vacant
    else
      match Parse(storage[SessionKey])
      case Some(u) => Session(u)
      case None => Unreadable(storage[SessionKey])
  }

  /** Persisting a user and reading the slot back gives that user, whatever
      else the storage holds. */
  lemma PersistThenRead(storage: map<string, string>, u: User)
    ensures ReadSlot(storage[SessionKey := Serialize(u)]) == Session(u)
  {
    ParseSerialize(u);
  }

  /** The value the provider hands to its consumers (`AuthContextType`
      without its callbacks). */
  datatype AuthState = AuthState(user: Option<User>, isAuthenticated: bool, isLoading: bool)

  /** The id `register` gives a new user: `${mockUsers.length + 1}`. */
  function NewUserId(): (id: string)
    ensures id == "4"
  {
    Text.Decimal(|MockUsers| + 1)
  }

  class AuthProvider {
    var user: Option<User>
    var isLoading: bool
    /** localStorage, of which the provider uses the key `SessionKey`. */
    var storage: map<string, string>

    /** A signed-in user is always the one the session slot holds. */
    predicate Valid()
      reads this
      ensures Valid() && user.Some? ==> SessionKey in storage && storage[SessionKey] == Serialize(user.value)
    {
      user.Some? ==> ReadSlot(storage) == Session(user.value)
    }

    /** Mounting the provider: no user yet, loading, on the given storage. */
    constructor (saved: map<string, string>)
      ensures Valid()
      ensures user == None && isLoading && storage == saved
    {
      user := None;
      isLoading := true;
      storage := saved;
    }

    /** `isAuthenticated: !!user`. */
    function IsAuthenticated(): (b: bool)
      reads this
      ensures b <==> user.Some?
    {
      user.Some?
    }

    /** The context value the provider passes down. */
    function State(): (s: AuthState)
      reads this
      ensures s.user == user && s.isLoading == isLoading
      ensures s.isAuthenticated <==> s.user.Some?
    {
      AuthState(user, IsAuthenticated(), isLoading)
    }

    /** The mount effect: a user found in the slot becomes the current user
        and loading ends; text `JSON.parse` throws on aborts the effect
        before loading ends, changing nothing. */
    method Restore() returns (r: Outcome<string>)
      requires Valid()
      modifies this
      ensures Valid() && storage == old(storage)
      ensures match ReadSlot(storage)
        case Vacant => r == Pass && user == old(user) && !isLoading
        case Session(u) => r == Pass && user == Some(u) && !isLoading
        case Unreadable(text) => r == Fail(text) && user == old(user) && isLoading == old(isLoading)
    {
      match ReadSlot(storage)
      case Vacant =>
        isLoading := false;
        r := Pass;
      case Session(u) =>
        user := Some(u);
        isLoading := false;
        r := Pass;
      case Unreadable(text) =>
        r := Fail(text);
    }

    /** `login`: on an exact email and password match the entry, without its
        password, becomes the user and is persisted; otherwise it throws
        "Identifiants incorrects" and the user and storage stay as they were.
        Loading ends on both paths. */
    method Login(email: string, password: string) returns (r: Outcome<AuthError>)
      requires Valid()
      modifies this
      ensures Valid() && !isLoading
      ensures match FindCredentials(MockUsers, email, password)
        case None => r == Fail(InvalidCredentials) && user == old(user) && storage == old(storage)
        case Some(a) =>
          r == Pass && user == Some(WithoutPassword(a)) &&
          storage == old(storage)[SessionKey := Serialize(WithoutPassword(a))]
    {
      isLoading := true;
      var found := FindCredentials(MockUsers, email, password);
      if found.None? {
        isLoading := false;
        return Fail(InvalidCredentials);
      }
      var u := WithoutPassword(found.value);
      user := Some(u);
      PersistThenRead(storage, u);
      storage := storage[SessionKey := Serialize(u)];
      isLoading := false;
      r := Pass;
    }

    /** `logout`: no user and no session slot; loading is left alone. */
    method Logout()
      requires Valid()
      modifies this
      ensures Valid()
      ensures user == None && storage == old(storage) - {SessionKey} && isLoading == old(isLoading)
    {
      user := None;
      storage := storage - {SessionKey};
    }

    /** `register`: an email already in the directory throws "Cet email est
        déjà utilisé" and changes neither user nor storage; otherwise a user
        with id `NewUserId()` and the chosen role becomes the user and is
        persisted.  The directory itself is never extended, and the password
        is not used.  Loading ends on both paths. */
    method Register(name: string, email: string, password: string, role: RegistrableRole)
      returns (r: Outcome<AuthError>)
      requires Valid()
      modifies this
      ensures Valid() && !isLoading
      ensures FindEmail(MockUsers, email).Some? ==>
        r == Fail(EmailTaken) && user == old(user) && storage == old(storage)
      ensures FindEmail(MockUsers, email).None? ==>
        r == Pass && user == Some(User(NewUserId(), name, email, role)) &&
        storage == old(storage)[SessionKey := Serialize(user.value)]
    {
      isLoading := true;
      var existing := FindEmail(MockUsers, email);
      if existing.Some? {
        isLoading := false;
        return Fail(EmailTaken);
      }
      var u := User(NewUserId(), name, email, role);
      user := Some(u);
      PersistThenRead(storage, u);
      storage := storage[SessionKey := Serialize(u)];
      isLoading := false;
      r := Pass;
    }
  }

  /** A session started by `login` survives a reload: a provider mounted
      later on the same storage restores the same user, and only a matching
      directory entry starts a session. */
  method ReloadAfterLogin(saved: map<string, string>, email: string, password: string)
    returns (signedIn: Option<User>, restored: Option<User>)
    ensures signedIn.Some? <==> FindCredentials(MockUsers, email, password).Some?
    ensures signedIn.Some? ==> signedIn.value.role == FindCredentials(MockUsers, email, password).value.role
    ensures signedIn.Some? ==> restored == signedIn
  {
    var page := new AuthProvider(saved);
    var _ := page.Login(email, password);
    signedIn := page.user;
    var reloaded := new AuthProvider(page.storage);
    var _ := reloaded.Restore();
    restored := reloaded.user;
  }

  /** A session started by `register` survives a reload with the requested
      role, which is never the administrator's. */
  method ReloadAfterRegister(saved: map<string, string>, name: string, email: string, password: string,
                             role: RegistrableRole)
    returns (signedIn: Option<User>, restored: Option<User>)
    ensures signedIn.Some? <==> FindEmail(MockUsers, email).None?
    ensures signedIn.Some? ==> signedIn.value.role == role && signedIn.value.role != Admin
    ensures signedIn.Some? ==> restored == signedIn
  {
    var page := new AuthProvider(saved);
    var _ := page.Register(name, email, password, role);
    signedIn := page.user;
    var reloaded := new AuthProvider(page.storage);
    var _ := reloaded.Restore();
    restored := reloaded.user;
  }

  /** After `logout` a reload finds no session, whatever was stored before. */
  method ReloadAfterLogout(saved: map<string, string>) returns (restored: Option<User>, stillLoading: bool)
    ensures restored == None && !stillLoading
  {
    var page := new AuthProvider(saved);
    var _ := page.Restore();
    page.Logout();
    var reloaded := new AuthProvider(page.storage);
    var _ := reloaded.Restore();
    restored := reloaded.user;
    stillLoading := reloaded.isLoading;
  }

  /** Registering the same new email twice succeeds twice with the same id,
      because the directory is never extended. */
  method RegisterTwice(saved: map<string, string>, name: string, email: string, password: string,
                       role: RegistrableRole)
    returns (first: Outcome<AuthError>, second: Outcome<AuthError>, firstId: string, secondId: string)
    ensures first == second
    ensures first.Pass? ==> firstId == secondId == "4"
  {
    var page := new AuthProvider(saved);
    first := page.Register(name, email, password, role);
    firstId := if page.user.Some? then page.user.value.id else "";
    second := page.Register(name, email, password, role);
    secondId := if page.user.Some? then page.user.value.id else "";
  }
}
