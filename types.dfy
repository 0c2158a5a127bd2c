/**
 * The records shared by the chat, booking, dashboard and sign-in code
 * (the interfaces of src/types/index.ts). Timestamps and generated ids are
 * plain strings supplied by the caller; floating-point ratings and avatar URLs
 * are not represented.
 */
module Types {
  import opened Wrappers

  datatype Role = PatientRole | DoctorRole | AdminRole

  /** A signed-in account. */
  datatype User = User(
    id: string,
    email: string,
    name: string,
    role: Role,
    phone: Option<string>,
    specialization: Option<string>,
    experience: Option<nat>,
    createdAt: string)

  /** A user record before an id and creation time are attached (`Omit<User, 'id' | 'created_at'>`). */
  datatype UserData = UserData(
    email: string,
    name: string,
    role: Role,
    phone: Option<string>,
    specialization: Option<string>,
    experience: Option<nat>)

  datatype Sender = UserSender | BotSender

  /** One line of the chat transcript. */
  datatype ChatMessage = ChatMessage(message: string, sender: Sender)

  /** One entry of the intent catalog: trigger patterns, canned replies, optional follow-up questions. */
  datatype ChatIntent = ChatIntent(
    tag: string,
    patterns: seq<string>,
    responses: seq<string>,
    followUp: Option<seq<string>>)

  /** A doctor as listed in the registry and as recommended by the chat. */
  datatype Doctor = Doctor(
    id: string,
    name: string,
    specialization: string,
    experience: nat,
    availability: seq<string>,
    matchScore: int)

  datatype Status = Pending | Confirmed | Cancelled | Completed

  /** A booked appointment. */
  datatype Appointment = Appointment(
    id: string,
    patientId: string,
    doctorId: string,
    patientName: string,
    doctorName: string,
    date: string,
    time: string,
    symptoms: seq<string>,
    status: Status,
    notes: Option<string>,
    createdAt: string)

  /** What the booking form hands over: an appointment without id and creation time. */
  datatype AppointmentRequest = AppointmentRequest(
    patientId: string,
    doctorId: string,
    patientName: string,
    doctorName: string,
    date: string,
    time: string,
    symptoms: seq<string>,
    status: Status,
    notes: Option<string>)

  /** Spread a request into a full appointment with the given id and creation time. */
  function Stamp(request: AppointmentRequest, id: string, createdAt: string): (a: Appointment)
  {
    Appointment(id, request.patientId, request.doctorId, request.patientName, request.doctorName,
                request.date, request.time, request.symptoms, request.status, request.notes, createdAt)
  }

  /** The request an appointment was made from. */
  function RequestOf(a: Appointment): (r: AppointmentRequest)
  {
    AppointmentRequest(a.patientId, a.doctorId, a.patientName, a.doctorName,
                       a.date, a.time, a.symptoms, a.status, a.notes)
  }

  /** Stamping keeps every submitted field: stripping id and creation time gives the request back. */
  lemma StampKeepsRequest(request: AppointmentRequest, id: string, createdAt: string)
    ensures RequestOf(Stamp(request, id, createdAt)) == request
    ensures Stamp(request, id, createdAt).id == id && Stamp(request, id, createdAt).createdAt == createdAt
  {
  }

  /** Spread user data into a full user with the given id and creation time. */
  function UserOf(data: UserData, id: string, createdAt: string): (u: User)
  {
    User(id, data.email, data.name, data.role, data.phone, data.specialization, data.experience, createdAt)
  }

  /** The data a user record was made from. */
  function DataOf(u: User): (d: UserData)
  {
    UserData(u.email, u.name, u.role, u.phone, u.specialization, u.experience)
  }

  lemma UserOfKeepsData(data: UserData, id: string, createdAt: string)
    ensures DataOf(UserOf(data, id, createdAt)) == data
    ensures UserOf(data, id, createdAt).id == id && UserOf(data, id, createdAt).createdAt == createdAt
  {
  }

  /** Number of appointments with the given status (`appointments.filter(a => a.status === s).length`). */
  function CountStatus(appointments: seq<Appointment>, s: Status): (n: nat)
    ensures n <= |appointments|
  {
    if appointments == [] then 0
    else (if appointments[0].status == s then 1 else 0) + CountStatus(appointments[1..], s)
  }

  /** Counts for two different statuses never add up to more than the list. */
  lemma {:induction false} CountTwoStatuses(appointments: seq<Appointment>, s: Status, t: Status)
    requires s != t
    ensures CountStatus(appointments, s) + CountStatus(appointments, t) <= |appointments|
  {
    if appointments != [] {
      CountTwoStatuses(appointments[1..], s, t);
    }
  }

  /** Appending one appointment adds one to the count of its own status and leaves the others. */
  lemma {:induction false} CountStatusAppend(appointments: seq<Appointment>, a: Appointment, s: Status)
    ensures CountStatus(appointments + [a], s) == CountStatus(appointments, s) + (if a.status == s then 1 else 0)
  {
    if appointments != [] {
      assert (appointments + [a])[1..] == appointments[1..] + [a];
      CountStatusAppend(appointments[1..], a, s);
    }
  }
}
