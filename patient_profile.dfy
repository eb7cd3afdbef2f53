/** The patient profile page (src/pages/patients/PatientProfile.tsx): the
    saved data, the copy being edited, the two input handlers and the
    edit / cancel / save cycle. */
module PatientProfile {
  import opened Wrappers
  import opened Seqs
  import opened Text
  import opened Identity

  /** A field of the profile object: a string, a list of strings or a nested
      object of strings (`emergencyContact`). */
  datatype Value = Str(text: string) | Strs(items: seq<string>) | Obj(fields: map<string, string>)

  /** The profile object, keyed by field name. */
  type Profile = map<string, Value>

  /** The mock data the page starts from; name and email come from the
      signed-in user unless missing or empty (JavaScript `||`). */
  function InitialPatientData(user: Option<User>): (data: Profile)
    ensures "name" in data && "email" in data
    ensures user.Some? && user.value.name != "" ==> data["name"] == Str(user.value.name)
    ensures user.None? || user.value.name == "" ==> data["name"] == Str("Patient Test")
    ensures user.Some? && user.value.email != "" ==> data["email"] == Str(user.value.email)
    ensures user.None? || user.value.email == "" ==> data["email"] == Str("patient@example.com")
  {
    var name := if user.Some? && user.value.name != "" then user.value.name else "Patient Test";
    var email := if user.Some? && user.value.email != "" then user.value.email else "patient@example.com";
    map[
      "dateOfBirth" := Str("15/05/1985"),
      "gender" := Str("Homme"),
      "socialSecurityNumber" := Str("1 85 05 75 123 456 78"),
      "address" := Str("123 Rue de Paris, 75001 Paris"),
      "phone" := Str("06 12 34 56 78"),
      "emergencyContact" := Obj(map[
        "name" := "Marie Dupont",
        "relationship" := "\U{C9}pouse",
        "phone" := "06 98 76 54 32"]),
      "bloodType" := Str("A+"),
      "allergies" := Strs(["P\U{E9}nicilline", "Arachides"]),
      "chronicConditions" := Strs(["Hypertension", "Diab\U{E8}te type 2"]),
      "currentMedications" := Strs(["Lisinopril 10mg", "Metformine 500mg"]),
      "email" := Str(email),
      "name" := Str(name)
    ]
  }

  /** The entries `{...xs}` makes of a sequence: one per index, keyed by the
      index written in decimal. */
  function Indexed(xs: seq<string>): map<string, string> {
    if |xs| == 0 then map[]
    else Indexed(xs[..|xs| - 1])[Decimal(|xs| - 1) := xs[|xs| - 1]]
  }

  /** `{...xs}` holds each element under its index. */
  lemma {:induction false} IndexedEntries(xs: seq<string>)
    ensures forall i :: 0 <= i < |xs| ==> Decimal(i) in Indexed(xs) && Indexed(xs)[Decimal(i)] == xs[i]
  {
    if |xs| > 0 {
      var n := |xs| - 1;
      var init := xs[..n];
      IndexedEntries(init);
      DecimalFresh(n);
      forall i | 0 <= i < |xs| ensures Decimal(i) in Indexed(xs) && Indexed(xs)[Decimal(i)] == xs[i] {
        if i < n {
          assert init[i] == xs[i];
        }
      }
    }
  }

  /** `{...xs}` holds nothing but index keys. */
  lemma {:induction false} IndexedKeys(xs: seq<string>)
    ensures Indexed(xs).Keys == set i | 0 <= i < |xs| :: Decimal(i)
  {
    if |xs| > 0 {
      var n := |xs| - 1;
      var init := xs[..n];
      IndexedKeys(init);
      assert Indexed(xs).Keys == Indexed(init).Keys + {Decimal(n)};
      assert (set i | 0 <= i < |xs| :: Decimal(i)) == (set i | 0 <= i < n :: Decimal(i)) + {Decimal(n)};
    }
  }

  /** No smaller index is written as the same decimal key. */
  lemma DecimalFresh(n: nat)
    ensures forall i :: 0 <= i < n ==> Decimal(i) != Decimal(n)
  {
    forall i | 0 <= i < n ensures Decimal(i) != Decimal(n) {
      assert DigitsValue(Decimal(i)) == i;
    }
  }

  /** The entries object spread gives for a field: an object its own, an
      array or a string one per index, and a missing field none. */
  function Spread(v: Option<Value>): (r: map<string, string>)
    ensures v.None? ==> r == map[]
    ensures v.Some? && v.value.Obj? ==> r == v.value.fields
    ensures v.Some? && v.value.Strs? ==>
      && r.Keys == (set i | 0 <= i < |v.value.items| :: Decimal(i))
      && forall i :: 0 <= i < |v.value.items| ==> Decimal(i) in r && r[Decimal(i)] == v.value.items[i]
    ensures v.Some? && v.value.Str? ==>
      && r.Keys == (set i | 0 <= i < |v.value.text| :: Decimal(i))
      && forall i :: 0 <= i < |v.value.text| ==> Decimal(i) in r && r[Decimal(i)] == [v.value.text[i]]
  {
    match v
    case None => map[]
    case Some(Obj(fields)) => fields
    case Some(Strs(items)) =>
      IndexedEntries(items);
      IndexedKeys(items);
      Indexed(items)
    case Some(Str(text)) =>
      var chars := Map(text, (c: char) => [c]);
      IndexedEntries(chars);
      IndexedKeys(chars);
      Indexed(chars)
  }

  function Lookup(data: Profile, key: string): Option<Value> {
    if key in data then Some(data[key]) else None
  }

  /** `handleInputChange`: a name with a dot sets the sub-field named by the
      second piece of the object named by the first piece (built afresh from
      what was there); any other name sets that field to the text typed.
      Every other field is kept. */
  function ChangeInput(data: Profile, name: string, value: string): (r: Profile)
    ensures '.' !in name ==> r.Keys == data.Keys + {name} && r[name] == Str(value)
    ensures '.' !in name ==> forall k :: k in data && k != name ==> r[k] == data[k]
    ensures '.' in name ==>
      var pieces := Split(name, '.');
      var parent, child := pieces[0], pieces[1];
      var before := Spread(Lookup(data, parent));
      r.Keys == data.Keys + {parent} && r[parent].Obj? &&
      r[parent].fields.Keys == before.Keys + {child} && r[parent].fields[child] == value &&
      (forall k :: k in before && k != child ==> r[parent].fields[k] == before[k]) &&
      (forall k :: k in data && k != parent ==> r[k] == data[k])
  {
    if '.' in name then
      var pieces := Split(name, '.');
      var parent, child := pieces[0], pieces[1];
      data[parent := Obj(Spread(Lookup(data, parent))[child := value])]
    else
      data[name := Str(value)]
  }

  /** A name `parent.child` (no other dot) on a field holding an object sets
      exactly that sub-field; its siblings and every other field stay. */
  lemma DottedNameSetsOneSubfield(data: Profile, parent: string, child: string, value: string)
    requires '.' !in parent && '.' !in child
    requires parent in data && data[parent].Obj?
    ensures ChangeInput(data, parent + "." + child, value) ==
      data[parent := Obj(data[parent].fields[child := value])]
  {
    var name := parent + "." + child;
    assert name == parent + ['.'] + child;
    assert '.' in name by { assert name[|parent|] == '.'; }
    SplitAtSeparator(parent, child, '.');
    SplitWithoutSeparator(child, '.');
    assert Split(name, '.') == [parent, child];
  }

  /** `value.split(',').map(trim).filter(Boolean)`: the comma-separated
      pieces, trimmed, empty ones dropped. */
  function ParseList(value: string): (items: seq<string>)
    ensures forall i :: 0 <= i < |items| ==> items[i] != "" && Trimmed(items[i]) && ',' !in items[i]
  {
    var raw := Split(value, ',');
    var pieces := Map(raw, Trim);
    PiecesTrimmed(raw);
    var items := Filter(pieces, (x: string) => x != "");
    forall i | 0 <= i < |items| ensures items[i] != "" && Trimmed(items[i]) && ',' !in items[i] {
      assert items[i] in pieces;
    }
    items
  }

  /** Trimming pieces free of commas gives trimmed pieces free of commas. */
  lemma PiecesTrimmed(raw: seq<string>)
    requires forall i :: 0 <= i < |raw| ==> ',' !in raw[i]
    ensures forall x :: x in Map(raw, Trim) ==> Trimmed(x) && ',' !in x
  {
    var pieces := Map(raw, Trim);
    forall x | x in pieces ensures Trimmed(x) && ',' !in x {
      var j :| 0 <= j < |pieces| && pieces[j] == x;
      assert x == Trim(raw[j]);
    }
  }

  /** A list shown as `items.join(', ')`. */
  function ShowList(items: seq<string>): (r: string)
    ensures |items| == 0 ==> r == ""
    ensures |items| >= 1 ==> items[0] <= r
    ensures forall c :: c in r ==> c == ',' || c == ' ' || exists i :: 0 <= i < |items| && c in items[i]
  {
    Join(items, ", ")
  }

  /** Joining with ", " is joining with "," pieces that start with a space. */
  lemma {:induction false} JoinWithSpace(xs: seq<string>)
    requires |xs| >= 1
    ensures Join(Map(xs, (x: string) => " " + x), ",") == " " + Join(xs, ", ")
  {
    var spaced := Map(xs, (x: string) => " " + x);
    if |xs| > 1 {
      JoinWithSpace(xs[1..]);
      assert spaced[1..] == Map(xs[1..], (x: string) => " " + x);
    }
  }

  /** The pieces a shown list splits into at its commas: the first item,
      then each further item behind the space of ", ". */
  function ShownPieces(items: seq<string>): (parts: seq<string>)
    requires |items| >= 1
    ensures |parts| == |items| && parts[0] == items[0]
    ensures forall i :: 1 <= i < |items| ==> parts[i] == " " + items[i]
  {
    [items[0]] + Map(items[1..], (x: string) => " " + x)
  }

  lemma ShowListPieces(items: seq<string>)
    requires |items| >= 1
    ensures ShowList(items) == Join(ShownPieces(items), ",")
  {
    var parts := ShownPieces(items);
    if |items| > 1 {
      JoinWithSpace(items[1..]);
      assert parts[1..] == Map(items[1..], (x: string) => " " + x);
    }
  }

  lemma TrimShownPieces(items: seq<string>)
    requires |items| >= 1
    requires forall i :: 0 <= i < |items| ==> items[i] != "" && Trimmed(items[i])
    ensures Map(ShownPieces(items), Trim) == items
  {
    var parts := ShownPieces(items);
    forall i | 0 <= i < |items| ensures Trim(parts[i]) == items[i] {
      TrimShownPiece(items, i);
    }
    MapPointwise(parts, Trim, items);
  }

  /** The piece at `i` trims to the item at `i`. */
  lemma TrimShownPiece(items: seq<string>, i: int)
    requires 0 <= i < |items|
    requires items[i] != "" && Trimmed(items[i])
    ensures Trim(ShownPieces(items)[i]) == items[i]
  {
    TrimOfTrimmed(items[i]);
    if i > 0 {
      assert " " + items[i] == [' '] + items[i];
    }
  }

  /** Parsing the text a list is shown as gives the list back, when its
      items are non-empty, trimmed and free of commas. */
  lemma ParseShownList(items: seq<string>)
    requires forall i :: 0 <= i < |items| ==> items[i] != "" && Trimmed(items[i]) && ',' !in items[i]
    ensures ParseList(ShowList(items)) == items
  {
    if |items| == 0 {
      assert Split("", ',') == [""];
      assert Map([""], Trim) == [""];
    } else {
      ParseShownNonEmptyList(items);
    }
  }

  /** `ParseShownList` for a list of at least one item. */
  lemma ParseShownNonEmptyList(items: seq<string>)
    requires |items| >= 1
    requires forall i :: 0 <= i < |items| ==> items[i] != "" && Trimmed(items[i]) && ',' !in items[i]
    ensures ParseList(ShowList(items)) == items
  {
    var parts := ShownPieces(items);
    var text := ShowList(items);
    ShowListPieces(items);
    ShownPiecesCommaFree(items);
    SplitJoin(parts, ',');
    assert Split(text, ',') == parts;
    TrimShownPieces(items);
    ParseListOfPieces(text, items);
  }

  /** No piece of a shown list of comma-free items holds a comma. */
  lemma ShownPiecesCommaFree(items: seq<string>)
    requires |items| >= 1
    requires forall i :: 0 <= i < |items| ==> ',' !in items[i]
    ensures forall i :: 0 <= i < |ShownPieces(items)| ==> ',' !in ShownPieces(items)[i]
  {
  }

  /** When the trimmed pieces of `text` are non-empty, parsing keeps them all. */
  lemma ParseListOfPieces(text: string, items: seq<string>)
    requires Map(Split(text, ','), Trim) == items
    requires forall i :: 0 <= i < |items| ==> items[i] != ""
    ensures ParseList(text) == items
  {
    FilterAllPass(items, (x: string) => x != "");
  }

  /** Showing what was parsed and parsing it again changes nothing. */
  lemma ParseListStable(value: string)
    ensures ParseList(ShowList(ParseList(value))) == ParseList(value)
  {
    ParseShownList(ParseList(value));
  }

  /** The page's state: the saved data, the copy the form edits and the
      editing flag. */
  class PatientProfilePage {
    var isEditing: bool
    var patientData: Profile
    var editedData: Profile

    /** Outside editing, the form's copy is the saved data. */
    predicate Valid()
      reads this
    {
      !isEditing ==> editedData == patientData
    }

    constructor (user: Option<User>)
      ensures Valid() && !isEditing
      ensures patientData == InitialPatientData(user) && editedData == patientData
    {
      isEditing := false;
      patientData := InitialPatientData(user);
      editedData := patientData;
    }

    /** The value a field's input displays: the copy while editing, the saved
        data otherwise. */
    function Shown(field: string): (v: Option<Value>)
      reads this
      ensures Valid() ==> v == Lookup(editedData, field)
      ensures !isEditing ==> v == Lookup(patientData, field)
    {
      if isEditing then Lookup(editedData, field) else Lookup(patientData, field)
    }

    /** `handleInputChange`; the inputs are disabled outside editing. */
    method InputChange(name: string, value: string)
      requires Valid() && isEditing
      modifies this`editedData
      ensures Valid()
      ensures editedData == ChangeInput(old(editedData), name, value)
    {
      editedData := ChangeInput(editedData, name, value);
    }

    /** `handleMultipleInputChange`: the parsed list replaces `field` only. */
    method MultipleInputChange(field: string, value: string)
      requires Valid() && isEditing
      modifies this`editedData
      ensures Valid()
      ensures editedData == old(editedData)[field := Strs(ParseList(value))]
    {
      editedData := editedData[field := Strs(ParseList(value))];
    }

    /** The header button: "Modifier" starts editing from the saved data,
        "Annuler" drops the copy's changes and stops editing. */
    method ToggleEdit()
      requires Valid()
      modifies this`editedData, this`isEditing
      ensures Valid()
      ensures isEditing == !old(isEditing)
      ensures editedData == patientData
    {
      if isEditing {
        editedData := patientData;
      }
      isEditing := !isEditing;
    }

    /** The "Annuler" button under the form. */
    method Cancel()
      requires Valid()
      modifies this`editedData, this`isEditing
      ensures Valid() && !isEditing
      ensures editedData == patientData
    {
      editedData := patientData;
      isEditing := false;
    }

    /** "Enregistrer", once its delay is over: the copy becomes the saved
        data and editing stops. */
    method Submit()
      requires Valid()
      modifies this`patientData, this`isEditing
      ensures Valid() && !isEditing
      ensures patientData == old(editedData) && editedData == old(editedData)
    {
      patientData := editedData;
      isEditing := false;
    }
  }

  /** Editing a field and cancelling leaves what the page shows as it was. */
  method EditThenCancel(user: Option<User>, name: string, value: string) returns (before: Option<Value>, after: Option<Value>)
    ensures before == after == Lookup(InitialPatientData(user), name)
  {
    var page := new PatientProfilePage(user);
    before := page.Shown(name);
    page.ToggleEdit();
    page.InputChange(name, value);
    page.Cancel();
    after := page.Shown(name);
  }

  /** Editing a field and saving shows the new value afterwards. */
  method EditThenSave(user: Option<User>, field: string, value: string) returns (after: Option<Value>)
    requires '.' !in field
    ensures after == Some(Str(value))
  {
    var page := new PatientProfilePage(user);
    page.ToggleEdit();
    page.InputChange(field, value);
    page.Submit();
    after := page.Shown(field);
  }
}
