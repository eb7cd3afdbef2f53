/** The dashboard variant chosen by role (src/pages/dashboard/Dashboard.tsx). */
module Dashboard {
  import opened Wrappers
  import opened Identity

  datatype Variant = PatientDashboard | DoctorDashboard | AdminDashboard

  /** Doctors and administrators get their own dashboard; a patient, and also
      a missing user, get the patient dashboard. */
  function DashboardFor(user: Option<User>): (v: Variant)
    ensures v == DoctorDashboard <==> user.Some? && user.value.role == Doctor
    ensures v == AdminDashboard <==> user.Some? && user.value.role == Admin
    ensures v == PatientDashboard <==> user.None? || user.value.role == Patient
  {
    match user
    case Some(User(_, _, _, Doctor)) => DoctorDashboard
    case Some(User(_, _, _, Admin)) => AdminDashboard
    case _ => PatientDashboard
  }
}
