/** The identities of the auth session store: the three roles, the user kept
    in the session, the entries of the fixed demo directory, and the two
    lookups that `login` and `register` run on it
    (src/contexts/AuthContext.tsx). */
module Identity {
  import opened Wrappers
  import opened Seqs

  datatype Role = Patient | Doctor | Admin

  /** The string the source stores for a role. */
  function RoleName(r: Role): string {
    match r
    case Patient => "patient"
    case Doctor => "doctor"
    case Admin => "admin"
  }

  /** The role a stored role string names, if any. */
  function RoleFromName(s: string): (r: Option<Role>)
    ensures r.Some? ==> RoleName(r.value) == s
  {
    if s == "patient" then Some(Patient)
    else if s == "doctor" then Some(Doctor)
    else if s == "admin" then Some(Admin)
    else None
  }

  /** Role names are distinct, so a role is recovered from its name. */
  lemma RoleNameRoundTrip(r: Role)
    ensures RoleFromName(RoleName(r)) == Some(r)
  {
  }

  /** The roles the register form offers. */
  type RegistrableRole = r: Role | r != Admin witness Patient

  /** The signed-in user: a directory entry without its password. */
  datatype User = User(id: string, name: string, email: string, role: Role)

  /** An entry of the demo directory. */
  datatype Account = Account(id: string, name: string, email: string, password: string, role: Role)

  /** `const { password: _, ...userWithoutPassword } = foundUser`. */
  function WithoutPassword(a: Account): (u: User)
    ensures u.id == a.id && u.name == a.name && u.email == a.email && u.role == a.role
  {
    User(a.id, a.name, a.email, a.role)
  }

  /** `mockUsers`: the fixed directory of demo accounts. */
  const MockUsers: seq<Account> := [
    Account("1", "Patient Test", "patient@example.com", "password", Patient),
    Account("2", "Dr. M\U{E9}decin", "doctor@example.com", "password", Doctor),
    Account("3", "Admin Si7ati", "admin@example.com", "password", Admin)
  ]

  /** `directory.find(u => u.email === email && u.password === password)`:
      the first entry whose email and password are both equal, character for
      character, to the given ones. */
  function FindCredentials(directory: seq<Account>, email: string, password: string): (r: Option<Account>)
    ensures r.Some? <==> exists a :: a in directory && a.email == email && a.password == password
    ensures r.Some? ==> r.value in directory && r.value.email == email && r.value.password == password
    ensures r.Some? ==>
      exists i :: 0 <= i < |directory| && directory[i] == r.value &&
        forall j :: 0 <= j < i ==> !(directory[j].email == email && directory[j].password == password)
  {
    Find(directory, (a: Account) => a.email == email && a.password == password)
  }

  /** `directory.find(u => u.email === email)`. */
  function FindEmail(directory: seq<Account>, email: string): (r: Option<Account>)
    ensures r.Some? <==> exists a :: a in directory && a.email == email
    ensures r.Some? ==> r.value in directory && r.value.email == email
  {
    Find(directory, (a: Account) => a.email == email)
  }

  /** No two entries of the demo directory share an email, so a successful
      lookup is never ambiguous. */
  lemma MockUsersDistinctEmails()
    ensures forall i, j :: 0 <= i < j < |MockUsers| ==> MockUsers[i].email != MockUsers[j].email
  {
  }
}
