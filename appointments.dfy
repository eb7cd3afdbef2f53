/** The appointments page (src/pages/appointments/Appointments.tsx): the
    expand/collapse list of appointment cards and the four-step booking
    wizard with its slot lookups. */
module Appointments {
  import opened Wrappers
  import opened Seqs

  /** An entry of `availableSlots`: a doctor's free times on one date. */
  datatype Slot = Slot(doctor: string, specialty: string, date: string, times: seq<string>)

  const AvailableSlots: seq<Slot> := [
    Slot("Dr. Martin", "Cardiologie", "2025-11-25", ["09:00", "11:30", "14:00", "16:30"]),
    Slot("Dr. Martin", "Cardiologie", "2025-11-26", ["10:00", "15:30"]),
    Slot("Dr. Dubois", "Dermatologie", "2025-11-24", ["09:30", "11:00", "14:30"]),
    Slot("Dr. Dubois", "Dermatologie", "2025-11-27", ["10:30", "13:00", "15:00"]),
    Slot("Dr. Lef\U{E8}vre", "M\U{E9}decine g\U{E9}n\U{E9}rale", "2025-11-20",
         ["08:30", "09:45", "11:00", "14:15", "15:30", "16:45"]),
    Slot("Dr. Lef\U{E8}vre", "M\U{E9}decine g\U{E9}n\U{E9}rale", "2025-11-21",
         ["08:30", "09:45", "11:00", "14:15", "15:30"])
  ]

  /** The doctor named by each slot, slot by slot. */
  function DoctorColumn(slots: seq<Slot>): (names: seq<string>)
    ensures |names| == |slots|
    ensures forall i :: 0 <= i < |slots| ==> names[i] == slots[i].doctor
  {
    Map(slots, (s: Slot) => s.doctor)
  }

  /** Step 1: every doctor with a slot, once each, in the order of their
      first slot. */
  function DoctorChoices(slots: seq<Slot>): (doctors: seq<string>)
    ensures NoDup(doctors)
    ensures forall d :: d in doctors <==> exists s :: s in slots && s.doctor == d
    ensures forall d :: d in doctors ==> d in DoctorColumn(slots)
    ensures forall i, j :: 0 <= i < j < |doctors| ==>
              FirstIndex(DoctorColumn(slots), doctors[i]) < FirstIndex(DoctorColumn(slots), doctors[j])
  {
    var names := DoctorColumn(slots);
    assert forall d :: (exists s :: s in slots && s.doctor == d) ==> d in names by {
      forall d | exists s :: s in slots && s.doctor == d ensures d in names {
        var s :| s in slots && s.doctor == d;
        var i :| 0 <= i < |slots| && slots[i] == s;
        assert names[i] == d;
      }
    }
    Distinct(names)
  }

  /** Step 2, dates: the slots of the chosen doctor, in order, each as often
      as it occurs in the list. */
  function DoctorSlots(slots: seq<Slot>, doctor: string): (r: seq<Slot>)
    ensures forall s :: s in r <==> s in slots && s.doctor == doctor
    ensures forall s :: multiset(r)[s] == if s.doctor == doctor then multiset(slots)[s] else 0
    ensures IsSubsequence(r, slots)
  {
    FilterIsSubsequence(slots, (s: Slot) => s.doctor == doctor);
    Filter(slots, (s: Slot) => s.doctor == doctor)
  }

  /** Step 2, times: those of the first slot of the chosen doctor on the
      chosen date; nothing is listed when there is none. */
  function TimeChoices(slots: seq<Slot>, doctor: string, date: string): (times: Option<seq<string>>)
    ensures times.None? <==> forall s :: s in slots ==> !(s.doctor == doctor && s.date == date)
    ensures times.Some? ==>
      exists i :: 0 <= i < |slots| && slots[i].doctor == doctor && slots[i].date == date &&
        slots[i].times == times.value &&
        forall j :: 0 <= j < i ==> !(slots[j].doctor == doctor && slots[j].date == date)
  {
    var onDate := (s: Slot) => s.date == date;
    var mine := DoctorSlots(slots, doctor);
    FindAfterFilter(slots, (s: Slot) => s.doctor == doctor, onDate);
    match Find(mine, onDate)
    case None => None
    case Some(s) => Some(s.times)
  }

  /** The doctors the wizard offers, in the order of `availableSlots`. */
  lemma OfferedDoctors()
    ensures DoctorChoices(AvailableSlots) == ["Dr. Martin", "Dr. Dubois", "Dr. Lef\U{E8}vre"]
  {
    var names := DoctorColumn(AvailableSlots);
    assert names == ["Dr. Martin", "Dr. Martin", "Dr. Dubois", "Dr. Dubois", "Dr. Lef\U{E8}vre", "Dr. Lef\U{E8}vre"];
    DoctorNamesDistinct();
  }

  /** Removing the repeats from the doctor column of `availableSlots`. */
  lemma DoctorNamesDistinct()
    ensures DistinctFrom(["Dr. Martin", "Dr. Martin", "Dr. Dubois", "Dr. Dubois", "Dr. Lef\U{E8}vre", "Dr. Lef\U{E8}vre"], {})
         == ["Dr. Martin", "Dr. Dubois", "Dr. Lef\U{E8}vre"]
  {
    var m, d, l := "Dr. Martin", "Dr. Dubois", "Dr. Lef\U{E8}vre";
    assert m[4] != d[4] && |l| != |m| && |l| != |d|;
    var xs := [m, d, l];
    assert Doubled([l]) == [l, l] by { assert [l][1..] == []; }
    assert Doubled([d, l]) == [d, d, l, l] by { assert [d, l][1..] == [l]; }
    assert Doubled(xs) == [m, m, d, d, l, l] by { assert xs[1..] == [d, l]; }
    DistinctFromDoubled(xs, {});
  }

  /** Dr. Dubois has no slot on 2025-11-25 (that date is Dr. Martin's). */
  lemma NoDuboisSlotOn1125()
    ensures TimeChoices(AvailableSlots, "Dr. Dubois", "2025-11-25").None?
  {
    var d, t := "Dr. Dubois", "2025-11-25";
    assert "Dr. Martin"[4] != d[4] && |"Dr. Lef\U{E8}vre"| != |d|;
    assert "2025-11-24"[9] != t[9] && "2025-11-27"[9] != t[9];
    forall i | 0 <= i < |AvailableSlots| ensures !(AvailableSlots[i].doctor == d && AvailableSlots[i].date == t) {
      if i == 2 {
        assert AvailableSlots[i].date == "2025-11-24";
      } else if i == 3 {
        assert AvailableSlots[i].date == "2025-11-27";
      } else if i < 2 {
        assert AvailableSlots[i].doctor == "Dr. Martin";
      } else {
        assert AvailableSlots[i].doctor == "Dr. Lef\U{E8}vre";
      }
    }
  }

  class AppointmentsPage {
    var expandedIds: seq<int>
    var isBookingOpen: bool
    var selectedDoctor: string
    var selectedDate: string
    var selectedTime: string
    var appointmentType: string
    var appointmentNotes: string
    var appointmentMode: string
    var bookingStep: int

    /** The wizard is always on one of its four steps. */
    predicate Valid()
      reads this
    {
      1 <= bookingStep <= 4
    }

    /** The initial state of the page's `useState` hooks. */
    constructor ()
      ensures Valid()
      ensures expandedIds == [] && !isBookingOpen && bookingStep == 1
      ensures selectedDoctor == "" && selectedDate == "" && selectedTime == ""
      ensures appointmentType == "Consultation" && appointmentNotes == "" && appointmentMode == "en personne"
    {
      expandedIds := [];
      isBookingOpen := false;
      selectedDoctor := "";
      selectedDate := "";
      selectedTime := "";
      appointmentType := "Consultation";
      appointmentNotes := "";
      appointmentMode := "en personne";
      bookingStep := 1;
    }

    /** Clicking a card opens or closes its details. */
    method ToggleExpand(id: int)
      modifies this`expandedIds
      ensures expandedIds == Toggle(old(expandedIds), id)
      ensures id in expandedIds <==> id !in old(expandedIds)
    {
      if id in expandedIds {
        expandedIds := Filter(expandedIds, (x: int) => x != id);
      } else {
        expandedIds := expandedIds + [id];
      }
    }

    /** "Nouveau rendez-vous": the wizard opens at step 1 with every choice reset. */
    method StartBooking()
      modifies this
      ensures Valid()
      ensures isBookingOpen && bookingStep == 1
      ensures selectedDoctor == "" && selectedDate == "" && selectedTime == ""
      ensures appointmentType == "Consultation" && appointmentNotes == "" && appointmentMode == "en personne"
      ensures expandedIds == old(expandedIds)
    {
      isBookingOpen := true;
      bookingStep := 1;
      selectedDoctor := "";
      selectedDate := "";
      selectedTime := "";
      appointmentType := "Consultation";
      appointmentNotes := "";
      appointmentMode := "en personne";
    }

    /** Closing the wizard hides it and keeps every choice. */
    method CloseBooking()
      modifies this`isBookingOpen
      ensures !isBookingOpen
    {
      isBookingOpen := false;
    }

    /** The step 1 click on a doctor card. */
    method SelectDoctor(doctor: string)
      modifies this`selectedDoctor
      ensures selectedDoctor == doctor
    {
      selectedDoctor := doctor;
    }

    /** The step 2 click on a date. */
    method SelectDate(date: string)
      modifies this`selectedDate
      ensures selectedDate == date
    {
      selectedDate := date;
    }

    /** The step 2 click on a time. */
    method SelectTime(time: string)
      modifies this`selectedTime
      ensures selectedTime == time
    {
      selectedTime := time;
    }

    /** "Suivant", offered below step 4 only: at step 1 without a doctor, or
        at step 2 without both a date and a time, the step stays and an error
        is shown; otherwise the wizard moves one step on. */
    method NextStep() returns (error: Option<string>)
      requires Valid() && bookingStep < 4
      modifies this`bookingStep
      ensures Valid()
      ensures old(bookingStep) == 1 && selectedDoctor == "" ==>
        error == Some("Veuillez s\U{E9}lectionner un m\U{E9}decin") && bookingStep == old(bookingStep)
      ensures old(bookingStep) == 2 && (selectedDate == "" || selectedTime == "") ==>
        error == Some("Veuillez s\U{E9}lectionner une date et un horaire") && bookingStep == old(bookingStep)
      ensures error.None? <==> !(old(bookingStep) == 1 && selectedDoctor == "") &&
                               !(old(bookingStep) == 2 && (selectedDate == "" || selectedTime == ""))
      ensures error.None? ==> bookingStep == old(bookingStep) + 1
    {
      if bookingStep == 1 && selectedDoctor == "" {
        return Some("Veuillez s\U{E9}lectionner un m\U{E9}decin");
      }
      if bookingStep == 2 && (selectedDate == "" || selectedTime == "") {
        return Some("Veuillez s\U{E9}lectionner une date et un horaire");
      }
      bookingStep := bookingStep + 1;
      error := None;
    }

    /** "Précédent", offered above step 1 only. */
    method PrevStep()
      requires Valid() && bookingStep > 1
      modifies this`bookingStep
      ensures Valid() && bookingStep == old(bookingStep) - 1
    {
      bookingStep := bookingStep - 1;
    }

    /** "Confirmer le rendez-vous" at step 4: the wizard closes; nothing is
        stored. */
    method ConfirmBooking()
      modifies this`isBookingOpen
      ensures !isBookingOpen
    {
      isBookingOpen := false;
    }
  }

  /** The wizard cannot pass step 1 without a doctor nor step 2 without a
      date and a time, but it does not check that the date and time still
      belong to the doctor: changing the doctor after choosing a date keeps
      the old date and time, and step 2 lets them through. */
  method StaleChoicesPass() returns (step: int, doctor: string, date: string, time: string)
    ensures step == 3 && doctor == "Dr. Dubois" && date == "2025-11-25" && time == "09:00"
    ensures TimeChoices(AvailableSlots, doctor, date).None?
  {
    var page := new AppointmentsPage();
    page.StartBooking();
    page.SelectDoctor("Dr. Martin");
    var _ := page.NextStep();
    page.SelectDate("2025-11-25");
    page.SelectTime("09:00");
    page.PrevStep();
    page.SelectDoctor("Dr. Dubois");
    var _ := page.NextStep();
    var e := page.NextStep();
    step, doctor, date, time := page.bookingStep, page.selectedDoctor, page.selectedDate, page.selectedTime;
    assert doctor == "Dr. Dubois" && date == "2025-11-25";
    NoDuboisSlotOn1125();
  }
}
