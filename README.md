# Si7ati front end: auth session, guards, routes and page state, in Dafny

Si7ati is a React single-page application for patients, doctors and
administrators. This project models its core logic:

- the auth session store, with its three-entry demo directory, `login`,
  `logout`, `register`, the restore-on-mount effect and the `localStorage`
  slot `si7ati_user`;
- the two route guards and the route table;
- the role dispatch of the dashboard, and the menu and role label of the
  signed-in layout;
- the state the pages keep and change:
  - the appointment list and its four-step booking wizard;
  - the medical-records filter, expand toggle and DMP import;
  - the patient profile's edit / cancel / save cycle with its two input
    handlers;
  - the login and registration forms.

Each source file becomes one module. Page and provider state that the
source updates in place becomes a `class`: `AuthProvider`,
`AppointmentsPage`, `MedicalRecordsPage`, `PatientProfilePage`, `LoginForm`,
`RegisterForm` and `MobileMenu`. Each React `useState` hook is a field,
with one exception. The medical-records page keeps both date bounds in one
`dateRange` object (src/pages/medical/MedicalRecords.tsx:88), and the model
splits it into two fields, `dateStart` and `dateEnd`. Each bound's input
spreads the old object and replaces only its own bound, so the two setters
each change one field. Each handler is a method, with `modifies` on the fields it sets. Decisions
and lookups are functions. Three helper modules give the JavaScript
built-ins the pages use:

- `Seqs`: `find`, `filter`, `map`, `Array.from(new Set(..))` and the
  add/remove toggle;
- `Text`: `split`, `join`, `trim`, `toLowerCase`, `includes` and decimal
  rendering;
- `SessionCodec`: `JSON.stringify` / `JSON.parse` of the stored user.

The source's `async` operations and timers are each one atomic step. The
browser's `localStorage` is a `map<string, string>` field of the provider.
A reload is a second provider built on the same storage.

Two behaviours of the code shape the model:

- `register` builds the new account but never adds it to `mockUsers`
  (src/contexts/AuthContext.tsx:84-91). Every new account therefore gets
  the id "4", and the same email can be registered again.
  `AuthContext.RegisterTwice` states this.
- On mount, the stored slot goes to `JSON.parse` without a guard
  (src/contexts/AuthContext.tsx:38). Malformed text makes it throw inside
  the mount effect, so loading never ends. `AuthContext.AuthProvider.Restore`
  models this as a failure that leaves the state unchanged and
  `isLoading` true.

## Model

| member | source | states |
|---|---|---|
| Identity.RoleFromName | src/contexts/AuthContext.tsx:8 | a stored role string names at most one role, and the role found has exactly that name |
| Identity.RoleNameRoundTrip | src/contexts/AuthContext.tsx:8 | every role is recovered from the string stored for it |
| Identity.FindCredentials | src/contexts/AuthContext.tsx:50 | `find` on email and password: some entry matches both exactly iff a result is returned; the result is the first such entry |
| Identity.WithoutPassword | src/contexts/AuthContext.tsx:57 | the user kept for the session has the account's id, name, e-mail and role; the password is the one field dropped |
| Identity.FindEmail | src/contexts/AuthContext.tsx:76 | `find` on email: some entry has the email iff a result is returned, and the result is an entry with that email |
| Identity.MockUsersDistinctEmails | src/contexts/AuthContext.tsx:24-28 | no two demo entries share an email |
| SessionCodec.Serialize | src/contexts/AuthContext.tsx:59 | the stored text of a user begins with `{`; its meaning is given by its partners `ParseSerialize` (parsing it gives the user back) and `Parse` (it is the only text parsed as that user) |
| SessionCodec.Parse | src/contexts/AuthContext.tsx:38 | `JSON.parse` of the slot accepts only the text `JSON.stringify` writes: whatever user it returns is the one whose stored text was read |
| SessionCodec.ExpectInverse | src/contexts/AuthContext.tsx:38 | what a literal match consumes is exactly that literal |
| SessionCodec.UnquoteInverse | src/contexts/AuthContext.tsx:38 | whatever string body is read back is the escaped value, the closing quote and the rest: only the escapes the encoder writes are read |
| SessionCodec.ReadMemberInverse | src/contexts/AuthContext.tsx:38 | whatever `"key":"value"` member is read is exactly that member's text followed by the rest |
| SessionCodec.UnquoteEscape | src/contexts/AuthContext.tsx:59 | reading a JSON string back undoes the escaping of `"` and `\` and stops at the closing quote |
| SessionCodec.ExpectPrefix | src/contexts/AuthContext.tsx:38 | matching a literal prefix consumes exactly that prefix |
| SessionCodec.ReadPair | src/contexts/AuthContext.tsx:38 | reading two members separated by a comma accepts only that text: the two values read back and the rest make up the input |
| SessionCodec.ReadPairOf | src/contexts/AuthContext.tsx:38 | two members written one after the other read back as their values and the rest |
| SessionCodec.ReadMemberOf | src/contexts/AuthContext.tsx:38 | reading a `"key":"value"` member gives back the value and the rest of the text |
| SessionCodec.ParseSerialize | src/contexts/AuthContext.tsx:38 | parsing what was stored for a user gives that same user back (round trip) |
| AuthContext.ReadSlot | src/contexts/AuthContext.tsx:36-38 | the slot reads as absent iff the key is missing or holds "" (falsy); a user read from it is the user whose stored text it holds; anything else is unreadable text |
| AuthContext.AuthProvider.Valid | src/contexts/AuthContext.tsx:58-59 | the provider's invariant: a signed-in user is the user stored under the session key |
| AuthContext.PersistThenRead | src/contexts/AuthContext.tsx:59 | after storing a user's text under the session key, restore reads that user back, whatever else storage holds |
| AuthContext.NewUserId | src/contexts/AuthContext.tsx:85 | the id of a new account is the decimal of the directory size plus one, which is "4" |
| AuthContext.AuthProvider.constructor | src/contexts/AuthContext.tsx:31-32 | a provider starts with no user and loading, on the storage it is given |
| AuthContext.AuthProvider.IsAuthenticated | src/contexts/AuthContext.tsx:99 | authenticated exactly when there is a user |
| AuthContext.AuthProvider.State | src/contexts/AuthContext.tsx:97-100 | the state handed to consumers carries the user and loading flag, and `isAuthenticated` iff a user |
| AuthContext.AuthProvider.Restore | src/contexts/AuthContext.tsx:35-41 | an empty or absent slot ends loading with the user unchanged; a stored user becomes the user and ends loading; unparsable text fails and changes nothing, loading included |
| AuthContext.AuthProvider.Login | src/contexts/AuthContext.tsx:44-61 | a match makes that entry without its password the user and stores it; no match fails with "Identifiants incorrects" and keeps user and storage; loading ends on both paths; the stored slot always agrees with the user |
| AuthContext.AuthProvider.Logout | src/contexts/AuthContext.tsx:64-67 | no user, session key removed, the rest of storage and the loading flag untouched |
| AuthContext.AuthProvider.Register | src/contexts/AuthContext.tsx:70-94 | a known email fails with "Cet email est déjà utilisé" and keeps user and storage; otherwise the user is id "4" with the given name, email and a non-administrator role, and is stored; loading ends |
| AuthContext.ReloadAfterLogin | src/contexts/AuthContext.tsx:35-61 | a session exists after login iff the credentials match, with the matched entry's role, and a reload restores exactly that user |
| AuthContext.ReloadAfterRegister | src/contexts/AuthContext.tsx:35-94 | a session exists after register iff the email is new, with the chosen non-administrator role, and a reload restores it |
| AuthContext.ReloadAfterLogout | src/contexts/AuthContext.tsx:35-67 | after logout a reload finds no user and loading ends |
| AuthContext.RegisterTwice | src/contexts/AuthContext.tsx:76-89 | registering the same new email twice gives the same outcome twice, and both accounts get id "4" |
| Guards.ProtectedRoute | src/components/auth/ProtectedRoute.tsx:9-13 | loading screen iff loading; content iff not loading and authenticated; redirect to "/login" iff not loading and not authenticated |
| Guards.RoleBasedRoute | src/components/auth/RoleBasedRoute.tsx:13-17 | content iff there is a user whose role is listed; anything else redirects to "/dashboard" |
| Guards.RoleBasedRouteMonotone | src/components/auth/RoleBasedRoute.tsx:13 | listing more roles never takes access away |
| Guards.RoleBasedRouteOnlyRole | src/components/auth/RoleBasedRoute.tsx:13 | two users with the same role get the same decision |
| Guards.RoleBasedRouteEmpty | src/components/auth/RoleBasedRoute.tsx:13-14 | an empty role list admits nobody |
| Guards.AdminGuard | src/components/auth/RoleBasedRoute.tsx:13-17 | the `['admin']` guard admits exactly an administrator |
| Routes.Resolve | src/App.tsx:30-63 | `<Routes>`: public paths show their page in the auth layout; the dashboard layout shows only a listed member page, after loading, to an authenticated user; settings shows only to an administrator; the loading screen only on a guarded path while loading; redirects only go to "/login" or "/dashboard"; the not-found page iff the path is in no table and is not "/" |
| Routes.PublicRoutesUnguarded | src/App.tsx:32-36 | login, register and forgot-password show in the auth layout whatever the auth state |
| Routes.MemberRoutesProtected | src/App.tsx:39-44 | dashboard, profile, medical records and appointments: loading iff loading, shown iff signed in, "/login" otherwise |
| Routes.SettingsRoute | src/App.tsx:47-54 | "/settings": loading first, then "/login" without a user, "/dashboard" for a non-administrator, the page for an administrator |
| Routes.RootAndUnknownRoutes | src/App.tsx:59-62 | "/" redirects to "/dashboard"; any path not in the table shows the not-found page |
| Routes.ShownOnlyWhenSignedIn | src/App.tsx:39-54 | a guarded page is shown only to a signed-in user once loading is over, and settings only to an administrator |
| Dashboard.DashboardFor | src/pages/dashboard/Dashboard.tsx:575-586 | doctor dashboard iff a doctor, admin dashboard iff an administrator, patient dashboard iff a patient or no user |
| DashboardLayout.BuildMenu | src/layouts/DashboardLayout.tsx:27-37 | the four base entries in order, then settings last for an administrator only; settings is listed iff the `['admin']` guard would admit the user |
| DashboardLayout.RoleLabel | src/layouts/DashboardLayout.tsx:159 | "Patient" iff a patient, "Médecin" iff a doctor, "Administrateur" iff an administrator or no user |
| DashboardLayout.MobileMenu.constructor | src/layouts/DashboardLayout.tsx:20 | the mobile menu starts closed |
| DashboardLayout.MobileMenu.Toggle | src/layouts/DashboardLayout.tsx:47 | the burger button flips the menu |
| DashboardLayout.MobileMenu.Close | src/layouts/DashboardLayout.tsx:61 | the close button closes it |
| DashboardLayout.MobileMenu.Select | src/layouts/DashboardLayout.tsx:78 | choosing an entry closes the menu and targets that entry's path |
| DashboardLayout.HandleLogout | src/layouts/DashboardLayout.tsx:22-25 | logout runs, then the target is "/login" |
| Seqs.Find | src/pages/appointments/Appointments.tsx:436 | `find`: nothing iff no element satisfies the predicate; otherwise the first element that does |
| Seqs.Filter | src/pages/medical/MedicalRecords.tsx:94 | `filter`: exactly the elements that satisfy the predicate, each as many times as the input holds it, never more elements than the input |
| Seqs.Map | src/pages/appointments/Appointments.tsx:366 | `map`: one result per element, the i-th result is the function applied to the i-th element |
| Seqs.FindAfterFilter | src/pages/appointments/Appointments.tsx:396-436 | `find` after `filter` returns nothing iff no element meets both predicates, and otherwise the first element of the input that meets both |
| Seqs.FilterIsSubsequence | src/pages/medical/MedicalRecords.tsx:94 | `filter` keeps the input's order |
| Seqs.FilterAllPass | src/pages/patients/PatientProfile.tsx:49 | `filter` with a predicate every element meets returns the input |
| Seqs.Distinct | src/pages/appointments/Appointments.tsx:366 | `Array.from(new Set(s))`: each element of `s` once, no repeats, ordered by the index of its first occurrence in `s` |
| Seqs.DistinctFrom | src/pages/appointments/Appointments.tsx:366 | the elements of `s` not already seen, once each, ordered by first occurrence in `s` |
| Seqs.Toggle | src/pages/appointments/Appointments.tsx:147-153 | the toggled id is listed iff it was not; every other id keeps its membership |
| Seqs.ToggleKeepsNoDup | src/pages/medical/MedicalRecords.tsx:113-119 | toggling never lists an id twice |
| Seqs.ToggleTwice | src/pages/appointments/Appointments.tsx:147-153 | toggling twice restores membership, and the list itself when the id was absent |
| Text.Trim | src/pages/patients/PatientProfile.tsx:49 | `trim` gives the slice of the input left once white space is removed from both ends: everything cut off is white space, and neither end of the result is |
| Text.TrimOfTrimmed | src/pages/patients/PatientProfile.tsx:49 | `trim` keeps a trimmed string and removes just one leading space in front of one |
| Text.Split | src/pages/patients/PatientProfile.tsx:35 | `split` gives at least one piece, two or more when the separator occurs, and no piece holds the separator |
| Text.SplitJoin | src/pages/patients/PatientProfile.tsx:49 | `split` undoes `join` for separator-free pieces |
| Text.JoinSplit | src/pages/patients/PatientProfile.tsx:49 | `join` undoes `split` |
| Text.Join | src/pages/patients/PatientProfile.tsx:321 | `join`: no parts give "", the text starts with the first part, and every character comes from a part or the separator; `Split` undoes it (SplitJoin) and it undoes `Split` (JoinSplit) |
| Text.Lower | src/pages/medical/MedicalRecords.tsx:96 | `toLowerCase` maps each character and keeps the length |
| Text.LowerIdempotent | src/pages/medical/MedicalRecords.tsx:96 | lowering twice is lowering once |
| Text.IncludesAt | src/pages/medical/MedicalRecords.tsx:96 | `includes` holds iff the needle occurs at some offset |
| Text.Decimal | src/contexts/AuthContext.tsx:85 | the decimal rendering of a number is a string of digits whose value is that number, with no leading zero, longer than one digit iff the number is 10 or more |
| Appointments.DoctorChoices | src/pages/appointments/Appointments.tsx:366 | step 1 lists each doctor that has a slot, exactly once, ordered by the position of their first slot in the doctor column |
| Appointments.DoctorColumn | src/pages/appointments/Appointments.tsx:366 | `availableSlots.map(slot => slot.doctor)`: the i-th name is the i-th slot's doctor |
| Appointments.OfferedDoctors | src/pages/appointments/Appointments.tsx:101-108 | the doctors offered are Dr. Martin, Dr. Dubois and Dr. Lefèvre, in that order |
| Appointments.DoctorNamesDistinct | src/pages/appointments/Appointments.tsx:101-108 | the doctor column of the slots, with its repeats removed, is Dr. Martin, Dr. Dubois, Dr. Lefèvre |
| Seqs.DistinctFromDoubled | src/pages/appointments/Appointments.tsx:366 | a list of different names, each written twice in a row, comes out of the repeat removal as the list itself |
| Seqs.DistinctFromPair | src/pages/appointments/Appointments.tsx:366 | a name not yet seen, written twice in a row, is kept once and then counts as seen |
| Appointments.DoctorSlots | src/pages/appointments/Appointments.tsx:396 | step 2 lists exactly the chosen doctor's slots, in their order, each as many times as the list holds it |
| Appointments.TimeChoices | src/pages/appointments/Appointments.tsx:435-436 | no times iff the doctor has no slot on the date; otherwise the times of the first of the doctor's slots on that date |
| Appointments.NoDuboisSlotOn1125 | src/pages/appointments/Appointments.tsx:101-108 | Dr. Dubois has no times on 2025-11-25 |
| Appointments.AppointmentsPage.constructor | src/pages/appointments/Appointments.tsx:137-145 | the initial values of the page's nine state hooks |
| Appointments.AppointmentsPage.ToggleExpand | src/pages/appointments/Appointments.tsx:147-153 | the card's id is toggled in the expanded list |
| Appointments.AppointmentsPage.StartBooking | src/pages/appointments/Appointments.tsx:155-164 | the wizard opens at step 1 with every choice reset to its default, the expanded cards kept |
| Appointments.AppointmentsPage.CloseBooking | src/pages/appointments/Appointments.tsx:166-168 | the wizard is hidden, choices kept |
| Appointments.AppointmentsPage.SelectDoctor | src/pages/appointments/Appointments.tsx:374 | the clicked doctor becomes the choice |
| Appointments.AppointmentsPage.SelectDate | src/pages/appointments/Appointments.tsx:420 | the clicked date becomes the choice |
| Appointments.AppointmentsPage.SelectTime | src/pages/appointments/Appointments.tsx:443 | the clicked time becomes the choice |
| Appointments.AppointmentsPage.NextStep | src/pages/appointments/Appointments.tsx:170-182 | step 1 without a doctor and step 2 without a date or time show their error and stay; in every other case, and only then, the step advances by one; the step stays within 1..4 |
| Appointments.AppointmentsPage.PrevStep | src/pages/appointments/Appointments.tsx:184-186 | the step goes back one and stays within 1..4 |
| Appointments.AppointmentsPage.ConfirmBooking | src/pages/appointments/Appointments.tsx:188-191 | the wizard closes |
| Appointments.StaleChoicesPass | src/pages/appointments/Appointments.tsx:170-182 | choosing a date, going back and changing the doctor reaches step 3 with a date and time the new doctor has no slot for |
| MedicalRecords.MatchesSearch | src/pages/medical/MedicalRecords.tsx:95-98 | an empty term matches; otherwise the lower-cased term must occur at some offset of the lower-cased title, doctor or description |
| MedicalRecords.MatchesType | src/pages/medical/MedicalRecords.tsx:100 | "Tous" admits every record; any other type only records of exactly that type |
| MedicalRecords.RecordDateText | src/pages/medical/MedicalRecords.tsx:102 | a date with no space is handed to the date parser followed by " undefined undefined", the missing pieces read as `undefined` |
| MedicalRecords.MatchesDateRange | src/pages/medical/MedicalRecords.tsx:103-108 | empty bounds admit every record; a record that passes a set bound has a valid date and the bound is a valid date |
| MedicalRecords.Shown | src/pages/medical/MedicalRecords.tsx:110 | a listed record matches the search and the type; with the initial criteria every record is listed |
| MedicalRecords.FilteredRecords | src/pages/medical/MedicalRecords.tsx:94-111 | a record is listed iff it is in the list and matches the search, type and date criteria; the list order is kept, and a record the list holds twice is listed twice |
| MedicalRecords.RecordDateTextOfThreePieces | src/pages/medical/MedicalRecords.tsx:102 | for a date of three space-separated pieces, the text handed to the date parser is the date itself |
| MedicalRecords.NoCriteriaShowsAll | src/pages/medical/MedicalRecords.tsx:86-88 | with the initial criteria every record is listed, in order |
| MedicalRecords.EmptyBoundsAlwaysMet | src/pages/medical/MedicalRecords.tsx:103-108 | empty date bounds never hide a record |
| MedicalRecords.InvalidBoundHidesAll | src/pages/medical/MedicalRecords.tsx:103-108 | a set bound that does not parse as a date hides every record |
| MedicalRecords.ShownRecordsMatch | src/pages/medical/MedicalRecords.tsx:95-100 | a type other than "Tous" lists only that type, and every listed record matches the search |
| MedicalRecords.SearchIgnoresCase | src/pages/medical/MedicalRecords.tsx:95-98 | the search matches the same records whatever the case of the term |
| MedicalRecords.MedicalRecordsPage.constructor | src/pages/medical/MedicalRecords.tsx:86-90 | empty search, "Tous", no dates, nothing expanded, the five demo records |
| MedicalRecords.MedicalRecordsPage.SetSearchTerm | src/pages/medical/MedicalRecords.tsx:180 | the search box sets the term, nothing else |
| MedicalRecords.MedicalRecordsPage.SetSelectedType | src/pages/medical/MedicalRecords.tsx:195 | the type selector sets the type, nothing else |
| MedicalRecords.MedicalRecordsPage.SetDateStart | src/pages/medical/MedicalRecords.tsx:213 | the "from" input sets the start bound and keeps the end bound |
| MedicalRecords.MedicalRecordsPage.SetDateEnd | src/pages/medical/MedicalRecords.tsx:220 | the "to" input sets the end bound and keeps the start bound |
| MedicalRecords.MedicalRecordsPage.DetailsShown | src/pages/medical/MedicalRecords.tsx:274 | a card that cannot expand always shows its details; an expandable one iff its id is in the expanded list |
| MedicalRecords.MedicalRecordsPage.ToggleExpand | src/pages/medical/MedicalRecords.tsx:113-119 | the record's id is toggled in the expanded list |
| MedicalRecords.MedicalRecordsPage.ClickRecord | src/pages/medical/MedicalRecords.tsx:245 | a click toggles only an expandable record, flipping whether its details show; a record that cannot expand always shows them |
| MedicalRecords.MedicalRecordsPage.RequestDmp | src/pages/medical/MedicalRecords.tsx:129-149 | the vaccination record (id 6) is put in front, the earlier records follow in order |
| MedicalRecords.ImportTwice | src/pages/medical/MedicalRecords.tsx:134-147 | two imports list the vaccination record twice, in front of the demo records |
| MedicalRecords.ImportedRecordShown | src/pages/medical/MedicalRecords.tsx:94-147 | after an import the initial filters list the vaccination record and then every demo record |
| PatientProfile.InitialPatientData | src/pages/patients/PatientProfile.tsx:11-28 | name and email come from the user unless missing or empty, then "Patient Test" and "patient@example.com" |
| PatientProfile.Spread | src/pages/patients/PatientProfile.tsx:37-39 | `...editedData[parent]`: a missing field gives no entries, an object its own entries, and an array or a string exactly one entry per index, keyed by the index in decimal and holding that element or character |
| PatientProfile.IndexedEntries | src/pages/patients/PatientProfile.tsx:37-39 | spreading a sequence puts each element under the decimal rendering of its index |
| PatientProfile.IndexedKeys | src/pages/patients/PatientProfile.tsx:37-39 | spreading a sequence gives no key other than the decimal renderings of its indices |
| PatientProfile.ChangeInput | src/pages/patients/PatientProfile.tsx:32-46 | a plain name sets that field to the text and keeps every other field; a dotted name sets the second piece inside the object at the first piece, keeping its other sub-fields and every other field |
| PatientProfile.DottedNameSetsOneSubfield | src/pages/patients/PatientProfile.tsx:34-42 | `parent.child` on an object field changes exactly that one sub-field |
| PatientProfile.ParseList | src/pages/patients/PatientProfile.tsx:49 | every parsed item is non-empty, trimmed and free of commas |
| PatientProfile.JoinWithSpace | src/pages/patients/PatientProfile.tsx:321 | joining with ", " is joining with "," items that start with a space |
| PatientProfile.ParseShownList | src/pages/patients/PatientProfile.tsx:321 | parsing the `join(', ')` text of non-empty, trimmed, comma-free items gives the items back |
| PatientProfile.ShowList | src/pages/patients/PatientProfile.tsx:321 | `join(', ')`: no items give "", the text starts with the first item, and every character is a comma, a space or from an item; ParseShownList parses it back to the items |
| PatientProfile.ParseListStable | src/pages/patients/PatientProfile.tsx:49 | showing a parsed list and parsing it again changes nothing |
| PatientProfile.PatientProfilePage.constructor | src/pages/patients/PatientProfile.tsx:8-30 | not editing, the edited copy equal to the initial data |
| PatientProfile.PatientProfilePage.Shown | src/pages/patients/PatientProfile.tsx:111 | an input shows the saved data outside editing; on a valid page it always shows the edited copy, which equals the saved data outside editing |
| PatientProfile.PatientProfilePage.InputChange | src/pages/patients/PatientProfile.tsx:32-46 | the edited copy becomes the result of the input change |
| PatientProfile.PatientProfilePage.MultipleInputChange | src/pages/patients/PatientProfile.tsx:48-51 | only the field changes in the edited copy, to the parsed list |
| PatientProfile.PatientProfilePage.ToggleEdit | src/pages/patients/PatientProfile.tsx:68-73 | editing flips; leaving drops the copy's changes; the copy equals the saved data afterwards either way |
| PatientProfile.PatientProfilePage.Cancel | src/pages/patients/PatientProfile.tsx:367-370 | the copy is reset to the saved data and editing stops |
| PatientProfile.PatientProfilePage.Submit | src/pages/patients/PatientProfile.tsx:53-61 | the copy becomes the saved data and editing stops |
| PatientProfile.EditThenCancel | src/pages/patients/PatientProfile.tsx:111 | editing a field then cancelling shows what was shown before |
| PatientProfile.EditThenSave | src/pages/patients/PatientProfile.tsx:128 | editing a field then saving shows the new value |
| LoginPage.DemoCredentialsFindRole | src/pages/auth/Login.tsx:17-23 | each demo button's credentials find the directory entry of its role |
| LoginPage.LoginForm.constructor | src/pages/auth/Login.tsx:8-10 | empty fields, not submitting |
| LoginPage.LoginForm.SetEmail | src/pages/auth/Login.tsx:73 | the email field takes the typed text |
| LoginPage.LoginForm.SetPassword | src/pages/auth/Login.tsx:89 | the password field takes the typed text |
| LoginPage.LoginForm.HandleSubmit | src/pages/auth/Login.tsx:32-52 | an empty field shows "Veuillez remplir tous les champs" without calling login or touching the flag; otherwise login runs with the flag set, the flag ends cleared, a match goes to "/dashboard" as that user and stores it, and a mismatch shows "Identifiants incorrects" with user and storage unchanged |
| LoginPage.LoginForm.HandleDemoLogin | src/pages/auth/Login.tsx:14-30 | a demo button signs in as its role and goes to "/dashboard", the flag ending cleared |
| RegisterPage.RegisterForm.constructor | src/pages/auth/Register.tsx:8-13 | empty fields, the patient role, not submitting |
| RegisterPage.RegisterForm.SetFields | src/pages/auth/Register.tsx:61-109 | the four text inputs take the typed texts |
| RegisterPage.RegisterForm.ChooseRole | src/pages/auth/Register.tsx:118-142 | the role chosen is patient or doctor, never administrator |
| RegisterPage.RegisterForm.HandleSubmit | src/pages/auth/Register.tsx:18-40 | different passwords show "Les mots de passe ne correspondent pas" without calling register or touching the flag; otherwise register runs with the flag set, the flag ends cleared, a new email goes to "/dashboard" as the new user and stores it, and a known one shows the error's message with user and storage unchanged |
| RegisterPage.RegisteredRoleNotAdmin | src/pages/auth/Register.tsx:12-30 | with the default role, registration reaches "/dashboard" iff the email is new, as a patient |

## Left out

- Rendering, icons, styling, toasts and the `setTimeout` / `await` delays. Each async operation is one atomic step.
- AuthContext.AuthProvider.Login: the `isLoading == true` phase during the simulated request is not observable, because the operation is atomic; only its end state is stated. The same holds for `Register`.
- SessionCodec.Parse: accepts only the exact text `JSON.stringify` produces for a user. Other JSON, for example with spaces, other key orders or other escapes, counts as unreadable. The escapes `JSON.stringify` writes for control characters are not modelled.
- A slot holding valid JSON that is not a user (for example `42`) is not distinguished from unparsable text. React's crash after the unguarded `JSON.parse` (src/contexts/AuthContext.tsx:38) is modelled only as "state unchanged, still loading".
- `useAuth`'s error outside a provider is React wiring.
- React Router's case-insensitive matching and trailing-slash handling are not modelled. `Routes.Resolve` compares paths exactly.
- Text.Lower: lowers ASCII and Latin-1 capitals only. Other Unicode case mappings of `toLowerCase` are not modelled.
- MedicalRecords.MatchesDateRange: `new Date(...)` parsing is a parameter, because it depends on the engine, the locale and the time zone. Only its validity and the order of the results are used.
- The laboratory values of record 2, the document downloads and their toasts are display only.
- Appointments.AppointmentsPage.NextStep: requires a step below 4, and PrevStep a step above 1. These are the only states in which the page shows those buttons (src/pages/appointments/Appointments.tsx:723,735).
- PatientProfile.PatientProfilePage.InputChange: requires editing, because the inputs are disabled otherwise (src/pages/patients/PatientProfile.tsx:110). The same holds for `MultipleInputChange`.
- The appointment type, notes and mode inputs of steps 3–4, the appointment list data, `formatDate`, and the rest of the mock dashboard data are display only.
- The password typed at registration is passed to `register`, which does not use it.
- The catch branches for thrown values that are not `Error` ("Une erreur est survenue ...") cannot be reached, because `login` and `register` throw only `Error`s.
- src/pages/settings/Settings.tsx and src/pages/auth/ForgotPassword.tsx hold only toasts, timers and a field setter. src/layouts/AuthLayout.tsx, src/pages/NotFound.tsx and src/components/ui/LoadingScreen.tsx are presentation only.
