/** The medical-records page (src/pages/medical/MedicalRecords.tsx): the
    record list, its search / type / date-range filter, the expand toggle of
    each card and the import from the shared medical file (DMP). */
module MedicalRecords {
  import opened Wrappers
  import opened Seqs
  import opened Text

  /** A record card; `kind` is the record's `type`.  The laboratory values
      of the blood test are display-only and are not modelled. */
  datatype MedRecord = MedRecord(
    id: int, kind: string, title: string, doctor: string, facility: string,
    date: string, description: string, documents: seq<string>, expandable: bool)

  const MockRecords: seq<MedRecord> := [
    MedRecord(1, "Consultation", "Consultation Cardiologie", "Dr. Philippe Martin",
      "Centre Cardio Paris", "15 Oct 2025",
      "Examen cardiaque de routine. Tension art\U{E9}rielle: 120/80 mmHg, ECG normal.",
      ["ECG.pdf", "Recommandations.pdf"], true),
    MedRecord(2, "Analyse", "Analyse sanguine compl\U{E8}te", "Dr. Marie Dubois",
      "Laboratoire Central", "05 Oct 2025",
      "Bilan sanguin complet incluant glyc\U{E9}mie, cholest\U{E9}rol, fonction r\U{E9}nale et h\U{E9}patique.",
      ["ResultatsAnalyse.pdf"], true),
    MedRecord(3, "Imagerie", "Radiographie Thoracique", "Dr. Thomas Leroy",
      "H\U{F4}pital Saint-Antoine", "20 Sept 2025",
      "Radiographie thoracique de contr\U{F4}le. Pas d'anomalie d\U{E9}tect\U{E9}e.",
      ["RadiographieThorax.jpg", "CompteRendu.pdf"], true),
    MedRecord(4, "Prescription", "Renouvellement Traitement", "Dr. Philippe Martin",
      "Centre Cardio Paris", "15 Sept 2025",
      "Renouvellement du traitement pour hypertension. Lisinopril 10mg, 1 comprim\U{E9} par jour.",
      ["Ordonnance.pdf"], false),
    MedRecord(5, "Hospitalisation", "Appendicectomie", "Dr. Sarah Moreau",
      "Clinique Chirurgicale", "05 Ao\U{FB}t 2025",
      "Intervention chirurgicale pour appendicite aigu\U{EB}. S\U{E9}jour de 3 jours. Suites op\U{E9}ratoires simples.",
      ["CompteRenduChirurgical.pdf", "ConsignesSortie.pdf"], true)
  ]

  /** The record the simulated DMP import puts in front of the list. */
  const Vaccination := MedRecord(6, "Vaccination", "Vaccination COVID-19", "Dr. Claire Bernard",
    "Centre de Vaccination Paris", "10 Jan 2025",
    "Administration du vaccin COVID-19, dose de rappel.",
    ["CertificatVaccination.pdf"], false)

  /** The value of the type selector that selects every type. */
  const AllTypes := "Tous"

  /** The filter inputs: search text, selected type and the two date bounds
      ("" for an unset bound). */
  datatype Criteria = Criteria(searchTerm: string, selectedType: string, start: string, end: string)

  const NoCriteria := Criteria("", AllTypes, "", "")

  /** `new Date(text)` as a parameter: a timestamp, or None for an invalid
      date, with which every comparison is false. */
  type DateParser = string -> Option<int>

  /** An empty term matches all; otherwise the lower-cased term must occur in
      the lower-cased title, doctor or description. */
  predicate MatchesSearch(r: MedRecord, term: string)
    ensures MatchesSearch(r, term) <==>
      (term == "" ||
       (exists k :: OccursAt(Lower(r.title), Lower(term), k)) ||
       (exists k :: OccursAt(Lower(r.doctor), Lower(term), k)) ||
       (exists k :: OccursAt(Lower(r.description), Lower(term), k)))
  {
    IncludesAt(Lower(r.title), Lower(term));
    IncludesAt(Lower(r.doctor), Lower(term));
    IncludesAt(Lower(r.description), Lower(term));
    term == "" ||
    Includes(Lower(r.title), Lower(term)) ||
    Includes(Lower(r.doctor), Lower(term)) ||
    Includes(Lower(r.description), Lower(term))
  }

  /** "Tous" admits every record; any other value only the records of
      exactly that type. */
  predicate MatchesType(r: MedRecord, selected: string)
    ensures selected == AllTypes ==> MatchesType(r, selected)
    ensures selected != AllTypes ==> (MatchesType(r, selected) <==> r.kind == selected)
  {
    selected == AllTypes || r.kind == selected
  }

  /** The `split(' ')` element `i` of a date, which JavaScript reads as
      "undefined" past the end. */
  function DatePiece(date: string, i: nat): string {
    var pieces := Split(date, ' ');
    if i < |pieces| then pieces[i] else "undefined"
  }

  /** The text handed to `new Date` for a record: its first three
      space-separated pieces joined by single spaces. */
  function RecordDateText(date: string): (text: string)
    ensures ' ' !in date ==> text == date + " undefined undefined"
  {
    SpacelessDatePieces(date);
    DatePiece(date, 0) + " " + DatePiece(date, 1) + " " + DatePiece(date, 2)
  }

  /** A date without a space is one piece; the two after it are missing. */
  lemma SpacelessDatePieces(date: string)
    ensures ' ' !in date ==>
      DatePiece(date, 0) == date && DatePiece(date, 1) == "undefined" && DatePiece(date, 2) == "undefined"
  {
    if ' ' !in date {
      SplitWithoutSeparator(date, ' ');
    }
  }

  /** A set bound is met only when both dates are valid and compare the
      right way; an empty bound is always met. */
  predicate MatchesDateRange(r: MedRecord, start: string, end: string, parse: DateParser)
    ensures start == "" && end == "" ==> MatchesDateRange(r, start, end, parse)
    ensures MatchesDateRange(r, start, end, parse) && start != "" ==>
      parse(start).Some? && parse(RecordDateText(r.date)).Some?
    ensures MatchesDateRange(r, start, end, parse) && end != "" ==>
      parse(end).Some? && parse(RecordDateText(r.date)).Some?
  {
    var day := parse(RecordDateText(r.date));
    (start == "" || (day.Some? && parse(start).Some? && day.value >= parse(start).value)) &&
    (end == "" || (day.Some? && parse(end).Some? && day.value <= parse(end).value))
  }

  /** A record is listed when it meets all three criteria; the initial
      criteria list every record. */
  predicate Shown(r: MedRecord, c: Criteria, parse: DateParser)
    ensures c == NoCriteria ==> Shown(r, c, parse)
    ensures Shown(r, c, parse) ==> MatchesSearch(r, c.searchTerm) && MatchesType(r, c.selectedType)
  {
    MatchesSearch(r, c.searchTerm) && MatchesType(r, c.selectedType) &&
    MatchesDateRange(r, c.start, c.end, parse)
  }

  /** `filteredRecords`: the records meeting all three criteria, in their
      order in the list, a record listed twice shown twice. */
  function FilteredRecords(records: seq<MedRecord>, c: Criteria, parse: DateParser): (shown: seq<MedRecord>)
    ensures forall r :: r in shown <==> r in records && Shown(r, c, parse)
    ensures IsSubsequence(shown, records)
    ensures forall r :: multiset(shown)[r] == if Shown(r, c, parse) then multiset(records)[r] else 0
  {
    FilterIsSubsequence(records, (r: MedRecord) => Shown(r, c, parse));
    Filter(records, (r: MedRecord) => Shown(r, c, parse))
  }

  /** For a date of exactly three space-separated pieces, the text parsed is
      the date itself. */
  lemma {:induction false} RecordDateTextOfThreePieces(a: string, b: string, c: string)
    requires ' ' !in a && ' ' !in b && ' ' !in c
    ensures RecordDateText(a + " " + b + " " + c) == a + " " + b + " " + c
  {
    SplitAtSeparator(a, b + " " + c, ' ');
    assert a + " " + b + " " + c == a + [' '] + (b + " " + c);
    SplitAtSeparator(b, c, ' ');
    assert b + " " + c == b + [' '] + c;
    SplitWithoutSeparator(c, ' ');
    assert Split(a + " " + b + " " + c, ' ') == [a, b, c];
  }

  /** With no search text, type "Tous" and no date bound, every record is
      shown, in order. */
  lemma NoCriteriaShowsAll(records: seq<MedRecord>, parse: DateParser)
    ensures FilteredRecords(records, NoCriteria, parse) == records
  {
    FilterAllPass(records, (r: MedRecord) => Shown(r, NoCriteria, parse));
  }

  /** Empty date bounds never hide a record, whatever the dates parse to. */
  lemma EmptyBoundsAlwaysMet(r: MedRecord, parse: DateParser)
    ensures MatchesDateRange(r, "", "", parse)
  {
  }

  /** A bound that does not parse hides every record. */
  lemma InvalidBoundHidesAll(records: seq<MedRecord>, c: Criteria, parse: DateParser)
    requires (c.start != "" && parse(c.start).None?) || (c.end != "" && parse(c.end).None?)
    ensures FilteredRecords(records, c, parse) == []
  {
  }

  /** A type other than "Tous" shows only the records of that type, and every
      shown record matches the search text. */
  lemma ShownRecordsMatch(records: seq<MedRecord>, c: Criteria, parse: DateParser)
    ensures c.selectedType != AllTypes ==>
      forall r :: r in FilteredRecords(records, c, parse) ==> r.kind == c.selectedType
    ensures forall r :: r in FilteredRecords(records, c, parse) ==> MatchesSearch(r, c.searchTerm)
  {
  }

  /** The search does not depend on the case of the term. */
  lemma SearchIgnoresCase(r: MedRecord, term: string)
    ensures MatchesSearch(r, Lower(term)) <==> MatchesSearch(r, term)
  {
    LowerIdempotent(term);
    assert term == "" <==> Lower(term) == "";
  }

  /** The page's state. */
  class MedicalRecordsPage {
    var searchTerm: string
    var selectedType: string
    var dateStart: string
    var dateEnd: string
    var expandedRecords: seq<int>
    var records: seq<MedRecord>

    /** The initial state of the page's `useState` hooks. */
    constructor ()
      ensures searchTerm == "" && selectedType == AllTypes && dateStart == "" && dateEnd == ""
      ensures expandedRecords == [] && records == MockRecords
    {
      searchTerm := "";
      selectedType := AllTypes;
      dateStart := "";
      dateEnd := "";
      expandedRecords := [];
      records := MockRecords;
    }

    /** The filter inputs as they stand. */
    function Current(): Criteria
      reads this
    {
      Criteria(searchTerm, selectedType, dateStart, dateEnd)
    }

    /** The list rendered. */
    function Visible(parse: DateParser): seq<MedRecord>
      reads this
    {
      FilteredRecords(records, Current(), parse)
    }

    /** A card shows its details when it is expanded or cannot be expanded. */
    predicate DetailsShown(r: MedRecord)
      reads this
      ensures !r.expandable ==> DetailsShown(r)
      ensures r.expandable ==> (DetailsShown(r) <==> r.id in expandedRecords)
    {
      r.id in expandedRecords || !r.expandable
    }

    /** The search box. */
    method SetSearchTerm(term: string)
      modifies this`searchTerm
      ensures searchTerm == term
    {
      searchTerm := term;
    }

    /** The type selector. */
    method SetSelectedType(kind: string)
      modifies this`selectedType
      ensures selectedType == kind
    {
      selectedType := kind;
    }

    /** The "from" date input; the "to" bound is kept. */
    method SetDateStart(start: string)
      modifies this`dateStart
      ensures dateStart == start && dateEnd == old(dateEnd)
    {
      dateStart := start;
    }

    /** The "to" date input; the "from" bound is kept. */
    method SetDateEnd(end: string)
      modifies this`dateEnd
      ensures dateEnd == end && dateStart == old(dateStart)
    {
      dateEnd := end;
    }

    /** `toggleExpand`: the same add / remove toggle as the appointment cards. */
    method ToggleExpand(id: int)
      modifies this`expandedRecords
      ensures expandedRecords == Toggle(old(expandedRecords), id)
      ensures id in expandedRecords <==> id !in old(expandedRecords)
    {
      if id in expandedRecords {
        expandedRecords := Filter(expandedRecords, (x: int) => x != id);
      } else {
        expandedRecords := expandedRecords + [id];
      }
    }

    /** A click on a card header toggles it only when it is expandable; the
        details of a card that cannot be expanded stay shown. */
    method ClickRecord(r: MedRecord)
      modifies this`expandedRecords
      ensures r.expandable ==> expandedRecords == Toggle(old(expandedRecords), r.id)
      ensures !r.expandable ==> expandedRecords == old(expandedRecords)
      ensures r.expandable ==> (DetailsShown(r) <==> r.id !in old(expandedRecords))
      ensures !r.expandable ==> DetailsShown(r)
    {
      if r.expandable {
        ToggleExpand(r.id);
      }
    }

    /** `handleRequestDmp`, once its delay is over: the vaccination record in
        front of the records, which keep their order. */
    method RequestDmp()
      modifies this`records
      ensures records == [Vaccination] + old(records)
      ensures records[0] == Vaccination && records[1..] == old(records)
    {
      records := [Vaccination] + records;
    }
  }

  /** The import does not look at what is already there: importing twice
      lists the vaccination record twice, with the same id. */
  method ImportTwice() returns (records: seq<MedRecord>)
    ensures |records| == |MockRecords| + 2
    ensures records[0] == records[1] == Vaccination
    ensures records[2..] == MockRecords
  {
    var page := new MedicalRecordsPage();
    page.RequestDmp();
    page.RequestDmp();
    records := page.records;
  }

  /** With the initial filters every record of the list is shown, the
      imported one included. */
  method ImportedRecordShown(parse: DateParser) returns (visible: seq<MedRecord>)
    ensures visible == [Vaccination] + MockRecords
  {
    var page := new MedicalRecordsPage();
    page.RequestDmp();
    visible := page.Visible(parse);
    NoCriteriaShowsAll(page.records, parse);
  }
}
