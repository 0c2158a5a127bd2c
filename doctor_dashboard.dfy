/**
 * The appointment list of src/pages/DoctorDashboard.tsx: the status change by
 * id, the pending and confirmed counts, and the Accept/Decline buttons that are
 * offered on pending entries only.
 */
module DoctorDashboard {
  import opened Wrappers
  import opened Types

  /** Two appointments agree on every field except possibly the status. */
  predicate SameExceptStatus(a: Appointment, b: Appointment) {
    a.(status := b.status) == b
  }

  /** No two appointments share an id. */
  predicate IdsDistinct(appointments: seq<Appointment>) {
    forall i, j :: 0 <= i < j < |appointments| ==> appointments[i].id != appointments[j].id
  }

  /** `appointments.map(apt => apt.id === id ? { ...apt, status } : apt)`. */
  function StatusChanged(appointments: seq<Appointment>, id: string, status: Status): (r: seq<Appointment>)
    ensures |r| == |appointments|
    ensures forall k :: 0 <= k < |r| ==> SameExceptStatus(appointments[k], r[k])
    ensures forall k :: 0 <= k < |r| && appointments[k].id == id ==> r[k].status == status
    ensures forall k :: 0 <= k < |r| && appointments[k].id != id ==> r[k] == appointments[k]
  {
    seq(|appointments|, k requires 0 <= k < |appointments| =>
      if appointments[k].id == id then appointments[k].(status := status) else appointments[k])
  }

  /** An id that no appointment carries leaves the list as it was. */
  lemma UnknownIdUnchanged(appointments: seq<Appointment>, id: string, status: Status)
    requires forall k :: 0 <= k < |appointments| ==> appointments[k].id != id
    ensures StatusChanged(appointments, id, status) == appointments
  {
  }

  /** Setting the same status twice is the same as setting it once. */
  lemma StatusChangedIdempotent(appointments: seq<Appointment>, id: string, status: Status)
    ensures StatusChanged(StatusChanged(appointments, id, status), id, status)
            == StatusChanged(appointments, id, status)
  {
  }

  /** The change keeps ids, hence also distinct ids. */
  lemma StatusChangedKeepsIds(appointments: seq<Appointment>, id: string, status: Status)
    requires IdsDistinct(appointments)
    ensures IdsDistinct(StatusChanged(appointments, id, status))
  {
  }

  /** Dropping the first entry commutes with the change. */
  lemma StatusChangedTail(appointments: seq<Appointment>, id: string, status: Status)
    requires |appointments| > 0
    ensures StatusChanged(appointments, id, status)[1..] == StatusChanged(appointments[1..], id, status)
  {
  }

  /**
   * Accepting or declining the pending entry at `k`, whose id no other entry
   * shares, moves exactly one appointment from the pending count to the count
   * of the new status; the count of any third status stays.
   */
  lemma {:induction false} ChangeMovesOne(appointments: seq<Appointment>, k: nat, status: Status)
    requires k < |appointments| && IdsDistinct(appointments)
    requires appointments[k].status == Pending && status != Pending
    ensures var r := StatusChanged(appointments, appointments[k].id, status);
      && CountStatus(r, Pending) + 1 == CountStatus(appointments, Pending)
      && CountStatus(r, status) == CountStatus(appointments, status) + 1
      && forall t :: t != Pending && t != status ==> CountStatus(r, t) == CountStatus(appointments, t)
  {
    var id := appointments[k].id;
    var r := StatusChanged(appointments, id, status);
    StatusChangedTail(appointments, id, status);
    if k == 0 {
      assert forall j :: 0 <= j < |appointments[1..]| ==> appointments[1..][j].id != id by {
        forall j | 0 <= j < |appointments[1..]| ensures appointments[1..][j].id != id {
          assert appointments[1..][j] == appointments[j + 1];
        }
      }
      UnknownIdUnchanged(appointments[1..], id, status);
    } else {
      var tail := appointments[1..];
      assert tail[k - 1] == appointments[k];
      assert IdsDistinct(tail) by {
        forall i, j | 0 <= i < j < |tail| ensures tail[i].id != tail[j].id {
          assert tail[i] == appointments[i + 1] && tail[j] == appointments[j + 1];
        }
      }
      ChangeMovesOne(tail, k - 1, status);
      assert r[0] == appointments[0];
    }
  }

  /**
   * Through Accept and Decline, which are offered on pending entries only, the
   * one status that changes goes from pending to confirmed or cancelled; every
   * other entry keeps its status.
   */
  lemma ButtonTransitions(appointments: seq<Appointment>, k: nat, status: Status)
    requires k < |appointments| && IdsDistinct(appointments)
    requires appointments[k].status == Pending && (status == Confirmed || status == Cancelled)
    ensures var r := StatusChanged(appointments, appointments[k].id, status);
      && r[k].status == status
      && forall j :: 0 <= j < |r| && j != k ==> r[j] == appointments[j]
  {
  }

  /** Pending and confirmed appointments together never outnumber the list. */
  lemma PendingPlusConfirmed(appointments: seq<Appointment>)
    ensures CountStatus(appointments, Pending) + CountStatus(appointments, Confirmed) <= |appointments|
  {
    CountTwoStatuses(appointments, Pending, Confirmed);
  }

  /**
   * The two demo appointments; they belong to the signed-in doctor, or to the
   * demo doctor when nobody is signed in. As with JavaScript's `||`, an empty
   * id or an empty name also falls back to the demo doctor's.
   */
  function DemoAppointments(user: Option<User>): (r: seq<Appointment>)
    ensures |r| == 2 && IdsDistinct(r)
    ensures r[0].status == Pending && r[1].status == Confirmed
    ensures forall k :: 0 <= k < 2 ==> r[k].doctorId != "" && r[k].doctorName != ""
    ensures forall k :: 0 <= k < 2 ==>
              && (user.Some? && user.value.id != "" ==> r[k].doctorId == user.value.id)
              && (user.Some? && user.value.name != "" ==> r[k].doctorName == user.value.name)
              && (user.None? || user.value.id == "" ==> r[k].doctorId == "2")
              && (user.None? || user.value.name == "" ==> r[k].doctorName == "Dr. Sarah Johnson")
  {
    var doctorId := if user.Some? && user.value.id != "" then user.value.id else "2";
    var doctorName := if user.Some? && user.value.name != "" then user.value.name else "Dr. Sarah Johnson";
    [ Appointment("1", "1", doctorId, "John Smith", doctorName, "2024-01-15", "10:00",
                  ["headache", "fever"], Pending,
                  Some("Patient experiencing headache and fever for 2 days"), "2024-01-10T00:00:00Z"),
      Appointment("2", "3", doctorId, "Mary Johnson", doctorName, "2024-01-15", "14:30",
                  ["back_pain"], Confirmed,
                  Some("Lower back pain after gym workout"), "2024-01-11T00:00:00Z") ]
  }

  /** The doctor's dashboard state: the appointment list. */
  class DoctorBoard {
    var appointments: seq<Appointment>

    /** The ids stay pairwise distinct: the demo list starts so and no entry is ever added. */
    predicate Valid()
      reads this
    {
      IdsDistinct(appointments)
    }

    constructor(user: Option<User>)
      ensures appointments == DemoAppointments(user)
      ensures Valid()
    {
      appointments := DemoAppointments(user);
    }

    function PendingCount(): (n: nat)
      reads this
      ensures n <= |appointments|
    {
      CountStatus(appointments, Pending)
    }

    function ConfirmedCount(): (n: nat)
      reads this
      ensures n <= |appointments|
    {
      CountStatus(appointments, Confirmed)
    }

    /** Replace the list by the one with the given id's status changed. */
    method HandleStatusChange(id: string, status: Status)
      requires Valid()
      requires status == Confirmed || status == Cancelled
      modifies this
      ensures Valid()
      ensures appointments == StatusChanged(old(appointments), id, status)
    {
      StatusChangedKeepsIds(appointments, id, status);
      appointments := StatusChanged(appointments, id, status);
    }

    /**
     * The Accept button of the pending entry at `k`: that entry becomes
     * confirmed, every other entry stays as it was, and one appointment moves
     * from the pending count to the confirmed count.
     */
    method Accept(k: nat)
      requires Valid()
      requires k < |appointments| && appointments[k].status == Pending
      modifies this
      ensures Valid()
      ensures appointments == StatusChanged(old(appointments), old(appointments[k].id), Confirmed)
      ensures |appointments| == |old(appointments)| && appointments[k].status == Confirmed
      ensures forall j :: 0 <= j < |appointments| && j != k ==> appointments[j] == old(appointments[j])
      ensures PendingCount() + 1 == old(PendingCount()) && ConfirmedCount() == old(ConfirmedCount()) + 1
    {
      ButtonTransitions(appointments, k, Confirmed);
      ChangeMovesOne(appointments, k, Confirmed);
      HandleStatusChange(appointments[k].id, Confirmed);
    }

    /**
     * The Decline button of the pending entry at `k`: that entry becomes
     * cancelled, every other entry stays as it was, the pending count drops by
     * one and the confirmed count stays.
     */
    method Decline(k: nat)
      requires Valid()
      requires k < |appointments| && appointments[k].status == Pending
      modifies this
      ensures Valid()
      ensures appointments == StatusChanged(old(appointments), old(appointments[k].id), Cancelled)
      ensures |appointments| == |old(appointments)| && appointments[k].status == Cancelled
      ensures forall j :: 0 <= j < |appointments| && j != k ==> appointments[j] == old(appointments[j])
      ensures PendingCount() + 1 == old(PendingCount()) && ConfirmedCount() == old(ConfirmedCount())
    {
      ButtonTransitions(appointments, k, Cancelled);
      ChangeMovesOne(appointments, k, Cancelled);
      HandleStatusChange(appointments[k].id, Cancelled);
    }
  }
}
