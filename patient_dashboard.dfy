/**
 * The patient's page of src/pages/PatientDashboard.tsx: the recommended doctors
 * reported by the chat, the doctor whose booking form is open, and the list of
 * booked appointments with its pending count. Generated ids and creation times
 * are parameters.
 */
module PatientDashboard {
  import opened Wrappers
  import opened Types
  import opened Booking

  /** Booking a pending request raises the pending count by one and leaves the other counts. */
  lemma BookingCounts(appointments: seq<Appointment>, request: AppointmentRequest, id: string, createdAt: string, s: Status)
    requires request.status == Pending
    ensures CountStatus(appointments + [Stamp(request, id, createdAt)], Pending) == CountStatus(appointments, Pending) + 1
    ensures s != Pending ==> CountStatus(appointments + [Stamp(request, id, createdAt)], s) == CountStatus(appointments, s)
  {
    CountStatusAppend(appointments, Stamp(request, id, createdAt), Pending);
    CountStatusAppend(appointments, Stamp(request, id, createdAt), s);
  }

  /** Every request the booking form builds is pending, so each booking adds one pending appointment. */
  lemma FormBookingAddsPending(appointments: seq<Appointment>, user: User, doctor: Doctor, date: string,
                               time: string, symptomText: string, notes: string, id: string, createdAt: string)
    ensures var a := Stamp(BuildRequest(user, doctor, date, time, symptomText, notes), id, createdAt);
      && CountStatus(appointments + [a], Pending) == CountStatus(appointments, Pending) + 1
      && a.doctorId == doctor.id && a.patientId == user.id && a.status == Pending
  {
    BookingCounts(appointments, BuildRequest(user, doctor, date, time, symptomText, notes), id, createdAt, Pending);
  }

  class PatientBoard {
    var recommendedDoctors: seq<Doctor>
    var selectedDoctor: Option<Doctor>
    var appointments: seq<Appointment>

    /** The page opens with no recommendations, no open form and no appointments. */
    constructor()
      ensures recommendedDoctors == [] && selectedDoctor == None && appointments == []
    {
      recommendedDoctors := [];
      selectedDoctor := None;
      appointments := [];
    }

    function PendingCount(): (n: nat)
      reads this
      ensures n <= |appointments|
    {
      CountStatus(appointments, Pending)
    }

    /** The chat's recommendation replaces the list wholesale. */
    method HandleDoctorRecommendation(doctors: seq<Doctor>)
      modifies this
      ensures recommendedDoctors == doctors
      ensures selectedDoctor == old(selectedDoctor) && appointments == old(appointments)
    {
      recommendedDoctors := doctors;
    }

    /** Choosing a doctor opens the booking form for that doctor. */
    method HandleBookAppointment(doctor: Doctor)
      modifies this
      ensures selectedDoctor == Some(doctor)
      ensures recommendedDoctors == old(recommendedDoctors) && appointments == old(appointments)
    {
      selectedDoctor := Some(doctor);
    }

    /** Closing the form clears the chosen doctor. */
    method CloseBooking()
      modifies this
      ensures selectedDoctor == None
      ensures recommendedDoctors == old(recommendedDoctors) && appointments == old(appointments)
    {
      selectedDoctor := None;
    }

    /** A booked request is appended at the end; earlier appointments stay as they were. */
    method HandleAppointmentBook(request: AppointmentRequest, id: string, createdAt: string)
      modifies this
      ensures appointments == old(appointments) + [Stamp(request, id, createdAt)]
      ensures recommendedDoctors == old(recommendedDoctors) && selectedDoctor == old(selectedDoctor)
    {
      appointments := appointments + [Stamp(request, id, createdAt)];
    }

    /**
     * The booking form's submit on this page: the request goes to
     * `HandleAppointmentBook` first, then the form is closed.
     */
    method SubmitBooking(form: BookingForm, id: string, createdAt: string)
      requires selectedDoctor == Some(form.doctor)
      requires CanSubmit(form.selectedDate, form.selectedTime, form.symptomText)
      modifies this
      ensures appointments == old(appointments) + [Stamp(BuildRequest(form.user, form.doctor, form.selectedDate,
                                                                       form.selectedTime, form.symptomText, form.notes),
                                                          id, createdAt)]
      ensures PendingCount() == old(PendingCount()) + 1
      ensures selectedDoctor == None && recommendedDoctors == old(recommendedDoctors)
    {
      var request := form.Submit();
      BookingCounts(appointments, request, id, createdAt, Pending);
      HandleAppointmentBook(request, id, createdAt);
      CloseBooking();
    }
  }
}
