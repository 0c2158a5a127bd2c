/** The doctor registry of src/data/doctors.ts, in declaration order. */
module Doctors {
  import opened Types

  const GeneralMedicine := "General Medicine"

  const Registry: seq<Doctor> := [
    Doctor("1", "Dr. Sarah Johnson", "General Medicine", 8, ["Monday", "Tuesday", "Wednesday", "Friday"], 95),
    Doctor("2", "Dr. Michael Chen", "Cardiology", 12, ["Tuesday", "Thursday", "Friday"], 88),
    Doctor("3", "Dr. Emily Rodriguez", "Neurology", 10, ["Monday", "Wednesday", "Thursday"], 92),
    Doctor("4", "Dr. James Wilson", "Orthopedics", 15, ["Monday", "Tuesday", "Friday"], 85),
    Doctor("5", "Dr. Lisa Thompson", "Gastroenterology", 9, ["Wednesday", "Thursday", "Friday"], 89)
  ]

  /** The English weekday names as `toLocaleDateString('en-US', { weekday: 'long' })` writes them; index 0 is Sunday. */
  const WeekdayNames: seq<string> := ["Sunday", "Monday", "Tuesday", "Wednesday", "Thursday", "Friday", "Saturday"]

  lemma WeekdayNamesDistinct()
    ensures |WeekdayNames| == 7
    ensures forall i, j :: 0 <= i < j < 7 ==> WeekdayNames[i] != WeekdayNames[j]
  {
  }

  /** Five doctors with ids "1" to "5" in order, hence pairwise distinct. */
  lemma RegistryIds()
    ensures |Registry| == 5
    ensures Registry[0].id == "1" && Registry[1].id == "2" && Registry[2].id == "3"
         && Registry[3].id == "4" && Registry[4].id == "5"
    ensures forall i, j :: 0 <= i < j < |Registry| ==> Registry[i].id != Registry[j].id
  {
  }

  /** Match scores lie in 0..100 and are pairwise distinct, so ranking by score has no ties. */
  lemma RegistryScores()
    ensures forall i :: 0 <= i < |Registry| ==> 0 <= Registry[i].matchScore <= 100
    ensures forall i, j :: 0 <= i < j < |Registry| ==> Registry[i].matchScore != Registry[j].matchScore
  {
  }

  /** Exactly one doctor, the first, practises General Medicine. */
  lemma OneGeneralPractitioner()
    ensures Registry[0].specialization == GeneralMedicine
    ensures forall i :: 1 <= i < |Registry| ==> Registry[i].specialization != GeneralMedicine
  {
  }

  /** Every doctor is available on at least one day, and every listed day is a weekday name. */
  lemma RegistryAvailability()
    ensures forall i :: 0 <= i < |Registry| ==> |Registry[i].availability| > 0
    ensures forall i, k :: 0 <= i < |Registry| && 0 <= k < |Registry[i].availability|
              ==> Registry[i].availability[k] in WeekdayNames
  {
  }
}
