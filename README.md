# Healthcare assistant demo: a verified model of its decision logic

This project is a Dafny model of the logic inside a React healthcare demo. The
model covers:

- the chat assistant, which classifies what the patient types against a fixed
  catalog of intents, accumulates symptom tags and recommends doctors from a
  fixed registry;
- the booking form, with its time slots, the next seven days filtered by the
  doctor's weekdays, the submit guard and the appointment record it builds;
- the two dashboards: the doctor's accept/decline of pending appointments and
  the patient's list of booked appointments;
- the mock sign-in with its three demo accounts.

One module follows each source file, except that the chat component is split
into its pattern matching, its classifier, its recommender and its session:

| module | source |
|---|---|
| `Intents` | `src/data/intents.ts` |
| `Doctors` | `src/data/doctors.ts` |
| `Matching`, `Classifier`, `Recommender`, `ChatBot` | `src/components/ChatBot.tsx` |
| `Booking` | `src/components/AppointmentBooking.tsx` |
| `DoctorDashboard` | `src/pages/DoctorDashboard.tsx` |
| `PatientDashboard` | `src/pages/PatientDashboard.tsx` |
| `Auth` | `src/context/AuthContext.tsx` |
| `Types` | `src/types/index.ts` |

Three helper modules support them:

- `Text`: the JavaScript string operations the code relies on, namely
  `toLowerCase`, `includes`, `trim`, `split` and `join`.
- `Seqs`: facts about duplicate-free sequences and set sizes.
- `Wrappers`: the `Option` type.

The pure parts are functions with lemmas:

- the intent classifier, a recursive first-match search;
- the doctor recommender: filter, then a stable sort by descending score
  (written as an insertion sort), then take three;
- the status change, the symptom parsing and the account lookup.

The React components whose state the handlers update are classes:

- `ChatSession`, `BookingForm`, `DoctorBoard`, `PatientBoard`, `AuthState`;
- each has `seq`/`Option` fields and methods that reassign them.

`getNextWeekDates` keeps its loop. It is proved against a recursive function
that describes what the loop has kept so far.

Some values are parameters instead:

- Today's weekday (0 = Sunday) is a parameter, and calendar dates are
  represented by their offset from today.
- The random reply index is a parameter, bounded by the number of replies.
- Generated ids and creation timestamps of appointments and users are
  parameters. Chat messages carry no id and no timestamp (see "Left out").

Constant catalogs are spelled out literally. So besides the general laws, the
model proves concrete scenarios:

- "I have a headache" is classified as `headache`;
- "My chest hurts" is classified as `chest_pain`;
- "think" is classified as a greeting, because it contains "hi";
- `[headache]` recommends Dr. Johnson, then Dr. Rodriguez.

## Model

Some definitions carry no contract of their own. They are the specifications
that the members in the table are stated in:

- `Text.Contains` is `includes` (ChatBot.tsx:38). `Text.AbsentCharRulesOut`,
  `Text.ContainsInfix` and `Text.ContainsAfter` state when it holds.
- `Text.Trim` is `trim` (ChatBot.tsx:79, AppointmentBooking.tsx:59).
  `Text.TrimSpec`, `Text.TrimEmptyIffBlank` and `Text.TrimOfTrimmed` state it.
- `Text.Join` is `join` (ChatBot.tsx:120). `Text.SplitJoin`, `Text.JoinSplit`
  and `Text.JoinContains` state it.
- `Types.Stamp` is the spread of a request into an appointment
  (PatientDashboard.tsx:25-29). `Types.StampKeepsRequest` states it.
- `Types.UserOf` is the spread of the registration data into a user
  (AuthContext.tsx:83-87). `Types.UserOfKeepsData` states it.
- `Booking.CanSubmit` is the disabled Book button plus the `required` symptoms
  field (AppointmentBooking.tsx:156, 177). It is the precondition of
  `Booking.BookingForm.Submit`.
- `Recommender.QualifiesVia` is the test of one symptom (ChatBot.tsx:70-71).
  The lookup `specialtyMap[symptom]` also finds the names every object literal
  inherits from `Object.prototype` (`constructor`, `toString`, ...), which
  `Recommender.InheritedKeys` lists. Such a name counts as mapped, to no
  specialty. `Recommender.QualifiesIff` and `Recommender.InheritedKeyFilter`
  state it.
- `Recommender.NoneLeftOutHigher` says that no copy of a doctor that a prefix
  leaves out scores higher than a doctor it keeps.
- `Recommender.RankedHead` bundles what `Recommender.TopOfRanking` and
  `Recommender.GetDoctorRecommendations` promise about the ranked doctors.

| member | source | states |
|---|---|---|
| `Intents.CatalogTagsDistinct` | src/data/intents.ts:3-94 | the catalog has ten intents and no two share a tag |
| `Intents.CatalogResponsesNonEmpty` | src/data/intents.ts:3-94 | every intent has two or three replies, so the random reply index of ChatBot.tsx always exists |
| `Intents.CatalogPatternsNonEmpty` | src/data/intents.ts:3-94 | no pattern is the empty string, so no intent matches every message |
| `Intents.CatalogFollowUps` | src/data/intents.ts:3-94 | greeting is first and has no follow-up questions; every other intent has three; no intent is tagged greeting or default except the first |
| `Doctors.WeekdayNamesDistinct` | src/components/AppointmentBooking.tsx:34 | the seven English weekday names used to match availability are pairwise distinct |
| `Doctors.RegistryIds` | src/data/doctors.ts:3-54 | five doctors with ids "1" to "5", pairwise distinct |
| `Doctors.RegistryScores` | src/data/doctors.ts:3-54 | match scores lie in 0..100 and are pairwise distinct, so the ranking has no ties |
| `Doctors.OneGeneralPractitioner` | src/data/doctors.ts:3-54 | exactly one doctor, the first, practises General Medicine |
| `Doctors.RegistryAvailability` | src/data/doctors.ts:3-54 | every doctor lists at least one day, and every listed day is a weekday name |
| `Matching.AnyPatternMatches` | src/components/ChatBot.tsx:37-41 | the inner scan answers true exactly when some pattern, lowercased, occurs in the lowercased message |
| `Classifier.FirstMatchingIntent` | src/components/ChatBot.tsx:36-42 | the outer scan returns the index of the first intent with a matching pattern, or the catalog length when none matches |
| `Classifier.FindBestResponse` | src/components/ChatBot.tsx:33-53 | the result is the fallback intent exactly when no catalog intent matches; otherwise it is the first matching intent in catalog order; it always has a reply |
| `Classifier.DefaultIntentShape` | src/components/ChatBot.tsx:44-52 | the fallback intent is tagged default, has no patterns, no follow-up and exactly three replies |
| `Classifier.ClassifiedAs` | src/components/ChatBot.tsx:36-40 | whenever intent i is the first matching one, the classifier returns intent i |
| `Classifier.HiIsGreeting` | src/components/ChatBot.tsx:36-40 | any message containing "hi" in any letter case is classified as greeting, because greeting is scanned first |
| `Classifier.ThinkIsGreeting` | src/components/ChatBot.tsx:36-40 | the message "think" is classified as greeting |
| `Matching.PatternMissesAt` | src/components/ChatBot.tsx:38 | a pattern cannot occur in a message if its lowercased character at some index is missing from the message at and after that index |
| `Matching.PatternLacksChar` | src/components/ChatBot.tsx:38 | a pattern cannot occur in a message that lacks one of its lowercased characters altogether |
| `Matching.GreetingPatternsMissHeadache` | src/data/intents.ts:6 | no greeting pattern occurs in "i have a headache" |
| `Matching.GreetingPatternsMissChestPain` | src/data/intents.ts:6 | no greeting pattern occurs in "my chest hurts" |
| `Matching.HeadachePatternsMissChestPain` | src/data/intents.ts:15 | no headache pattern occurs in "my chest hurts" |
| `Matching.FeverPatternsMissChestPain` | src/data/intents.ts:24 | no fever pattern occurs in "my chest hurts" |
| `Matching.CoughPatternsMissChestPain` | src/data/intents.ts:33 | no cough pattern occurs in "my chest hurts" |
| `Matching.StomachPainPatternsMissChestPain` | src/data/intents.ts:42 | no stomach-pain pattern occurs in "my chest hurts" |
| `Classifier.EarlyCatalogPatterns` | src/data/intents.ts:6-42 | the pattern lists of the first five intents, greeting to stomach_pain, as written |
| `Classifier.HeadacheExample` | src/data/intents.ts:15 | "I have a headache" is classified as headache |
| `Classifier.EarlierIntentsMissChestPain` | src/data/intents.ts:4-46 | no pattern of the five intents before chest_pain occurs in "my chest hurts" |
| `Classifier.ChestPainExample` | src/data/intents.ts:51 | "My chest hurts" is classified as chest_pain |
| `ChatBot.CatalogTagsMapped` | src/components/ChatBot.tsx:56-66 | every catalog tag other than greeting is a key of the specialty map, so the unmapped branch never fires for tags the chat produces |
| `Recommender.QualifiesIff` | src/components/ChatBot.tsx:69-72 | a doctor qualifies exactly when, for some symptom, the doctor practises General Medicine, or the symptom maps to the doctor's specialty, or the symptom is neither a key of the map nor a name inherited from `Object.prototype` |
| `Recommender.FilterQualified` | src/components/ChatBot.tsx:68-72 | a doctor is kept exactly when it is in the registry and qualifies; the filter is no longer than the registry |
| `Recommender.FilterQualifiedCounts` | src/components/ChatBot.tsx:68-72 | the filter holds every qualifying doctor exactly as often as the registry does, and no other doctor |
| `Recommender.FilterQualifiedOrder` | src/components/ChatBot.tsx:68-72 | the filter is the registry with entries dropped, the rest in registry order |
| `Recommender.Insert` | src/components/ChatBot.tsx:73 | inserting a doctor adds exactly that doctor to the ranking |
| `Recommender.InsertDescending` | src/components/ChatBot.tsx:73 | inserting into a ranking in descending score order keeps it descending |
| `Recommender.DescendingCons` | src/components/ChatBot.tsx:73 | a doctor scoring at least as high as every doctor of a descending list can go in front of it |
| `Recommender.InsertWithScore` | src/components/ChatBot.tsx:73 | inserting a doctor puts it in front of the doctors with its own score and leaves the order among any other score alone |
| `Recommender.SortByScore` | src/components/ChatBot.tsx:73 | the sorted list is a permutation of the input in non-increasing match score |
| `Recommender.SortByScoreStable` | src/components/ChatBot.tsx:73 | doctors with equal scores keep their input order, as JavaScript's stable sort does |
| `Recommender.WithScoreAppend` | src/components/ChatBot.tsx:73 | the doctors of one score in a concatenation are those of the first part followed by those of the second |
| `Recommender.WithScorePrefix` | src/components/ChatBot.tsx:73-74 | the doctors of one score among the first m are a prefix of the doctors of that score in the whole list |
| `Recommender.DescendingPrefix` | src/components/ChatBot.tsx:73 | the first m doctors of a descending list are descending |
| `Recommender.LeftOutScoresLower` | src/components/ChatBot.tsx:73 | a doctor of a descending list outside its first m scores no higher than any of them |
| `Recommender.DescendingPrefixLeftOut` | src/components/ChatBot.tsx:73-74 | a doctor that the first m of a descending list hold fewer times than the whole list scores no higher than any of those m |
| `Recommender.RankedPrefix` | src/components/ChatBot.tsx:73-74 | the first m ranked doctors come from the input and are descending |
| `Recommender.RankedPrefixLeftOut` | src/components/ChatBot.tsx:73-74 | a doctor that the first m ranked doctors hold fewer times than the input scores no higher than any of them, so no left-out copy outscores them |
| `Recommender.RankedPrefixWithin` | src/components/ChatBot.tsx:73-74 | the first m ranked doctors hold no doctor more often than the input |
| `Recommender.RankedPrefixStable` | src/components/ChatBot.tsx:73-74 | among the first m ranked doctors, those of any one score are a prefix of the input's doctors of that score, in input order |
| `Recommender.AnyQualifiedIff` | src/components/ChatBot.tsx:75 | some doctor qualifies exactly when the filter keeps at least one, which is the test that picks the ranking over the fallback |
| `Recommender.TopOfRanking` | src/components/ChatBot.tsx:68-74 | the first m of the ranking of the qualifying doctors are qualifying registry doctors in descending score, none kept more often than the filter keeps it, equal scores in registry order, and no left-out copy of a qualifying doctor outscores any of them |
| `Recommender.GetDoctorRecommendations` | src/components/ChatBot.tsx:55-76 | at most three registry doctors. When some doctor qualifies, the result has min(3, number qualifying) doctors, all qualifying, in descending score, each no more often than the filter keeps it, equal scores in registry order, and none outscored by a left-out copy of a qualifying doctor. Otherwise it is the first three registry doctors |
| `Recommender.DistinctOnce` | src/data/doctors.ts:3-54 | a list without repeats holds each doctor at most once |
| `Recommender.OnceDistinct` | src/components/ChatBot.tsx:68-76 | a list holding each doctor at most once has no repeats |
| `Recommender.RecommendationsDistinct` | src/components/ChatBot.tsx:55-76 | a registry without repeats yields a recommendation without repeats |
| `Recommender.RegistryRecommendationsDistinct` | src/components/ChatBot.tsx:55-76 | no recommendation from the registry names a doctor twice |
| `Recommender.NonEmptySymptomsQualify` | src/components/ChatBot.tsx:71 | some registry doctor qualifies exactly when the symptom list is non-empty, so the fallback serves only the empty list |
| `Recommender.NoSymptomsFallback` | src/components/ChatBot.tsx:75 | no symptoms yields the first three registry doctors |
| `Recommender.HeadacheFilter` | src/data/doctors.ts:4-33 | for headache only Johnson and Rodriguez qualify |
| `Recommender.HeadacheRecommendation` | src/components/ChatBot.tsx:68-73 | headache recommends Johnson (95) then Rodriguez (92) |
| `Recommender.ChestPainFilter` | src/data/doctors.ts:4-23 | for chest_pain only Johnson and Chen qualify |
| `Recommender.ChestPainRecommendation` | src/components/ChatBot.tsx:68-73 | chest_pain recommends Johnson (95) then Chen (88) |
| `Recommender.InheritedKeyFilter` | src/components/ChatBot.tsx:56-71 | for "constructor", whose lookup finds an inherited member, only Johnson (General Medicine) qualifies |
| `Recommender.InheritedKeyRecommendation` | src/components/ChatBot.tsx:55-76 | "constructor" recommends Johnson alone |
| `ChatBot.TrackSymptom` | src/components/ChatBot.tsx:98-104 | the old list stays a prefix. A tag is in the result exactly when it was in the list, or it is the new tag and not greeting/default. The list changes exactly when the new tag is a symptom not yet recorded. At most one entry is added and no duplicate is introduced |
| `ChatBot.TrackSymptomIdempotent` | src/components/ChatBot.tsx:100 | recording the same tag twice is the same as recording it once |
| `ChatBot.ClassifiedTagKnown` | src/components/ChatBot.tsx:33-53 | the classifier yields only catalog tags besides greeting and default |
| `ChatBot.TrackClassifiedKeepsTracked` | src/components/ChatBot.tsx:94-104 | recording a classified tag keeps the list duplicate-free, free of greeting/default, and within the catalog tags |
| `ChatBot.TrackedAtMostNine` | src/components/ChatBot.tsx:98-104 | a tracked symptom list never has more than nine entries |
| `ChatBot.FollowUpMessages` | src/components/ChatBot.tsx:114-125 | one bot message when the intent has follow-up questions, none otherwise. Its text is the questions joined by single spaces, so every question occurs in it |
| `ChatBot.ChatSession.constructor` | src/components/ChatBot.tsx:12-22 | a new chat holds only the welcome message and no symptoms |
| `ChatBot.ChatSession.SendMessage` | src/components/ChatBot.tsx:78-147 | a blank input changes nothing. Otherwise the symptom tag is recorded, and the transcript grows by the user message, the chosen reply, the optional follow-up, and the recommendation message exactly when the new symptom list is non-empty. The doctors reported are the recommendation for that list. The symptom list stays well formed |
| `Booking.TimeSlotsHalfHourly` | src/components/AppointmentBooking.tsx:23-26 | twelve "HH:MM" slots: half-hourly 09:00 to 11:30, then 14:00 to 16:30 |
| `Booking.TimeSlotsIncreasing` | src/components/AppointmentBooking.tsx:23-26 | the slots are strictly increasing in time |
| `Booking.DayNamesDistinct` | src/components/AppointmentBooking.tsx:31-34 | the days one to seven days ahead have seven different weekday names |
| `Booking.EveryNameWithinWeek` | src/components/AppointmentBooking.tsx:31-34 | every weekday name is the name of one of the next seven days |
| `Booking.KeptDatesOrdered` | src/components/AppointmentBooking.tsx:31-45 | the dates kept so far are among the offsets looked at, in increasing order, each named by its weekday |
| `Booking.KeptDatesOffsets` | src/components/AppointmentBooking.tsx:34-35 | an offset looked at is kept exactly when the doctor lists its weekday |
| `Booking.KeptDatesCount` | src/components/AppointmentBooking.tsx:29-46 | as many dates are kept as distinct listed weekday names met |
| `Booking.GetNextWeekDates` | src/components/AppointmentBooking.tsx:28-47 | offsets 1 to 7 only (never today), in chronological order, each kept exactly when its weekday is listed. There are as many dates as distinct valid weekday names in the availability, at most seven, and none exactly when there are none |
| `Booking.JohnsonFourDays` | src/data/doctors.ts:10 | Dr. Johnson is offered on four of the next seven days, whatever today is |
| `Booking.ParseSymptoms` | src/components/AppointmentBooking.tsx:59 | the entry count is the comma count plus one. Each entry is the trimmed text of its comma-free piece, so no entry has surrounding whitespace or a comma. The untrimmed pieces joined by commas give back the text |
| `Booking.ParseSymptomsSingle` | src/components/AppointmentBooking.tsx:59 | text without a comma gives the one entry of the trimmed text |
| `Booking.ParseJoinedSymptoms` | src/components/AppointmentBooking.tsx:59 | trimmed comma-free entries joined by commas parse back to themselves |
| `Booking.BuildRequest` | src/components/AppointmentBooking.tsx:52-62 | the record copies the user's id and name, the doctor's id and name, the chosen date, time and notes, holds the parsed symptoms, and is always pending |
| `Booking.BookingForm.constructor` | src/components/AppointmentBooking.tsx:18-21 | the form opens with every field empty |
| `Booking.BookingForm.SelectDate` | src/components/AppointmentBooking.tsx:106 | a date button sets the chosen date and nothing else |
| `Booking.BookingForm.SelectTime` | src/components/AppointmentBooking.tsx:120-131 | a slot button, shown once a date is chosen, sets the chosen time and nothing else |
| `Booking.BookingForm.SetSymptoms` | src/components/AppointmentBooking.tsx:153 | typing sets the symptom text and nothing else |
| `Booking.BookingForm.SetNotes` | src/components/AppointmentBooking.tsx:167 | typing sets the notes and nothing else |
| `Booking.BookingForm.Submit` | src/components/AppointmentBooking.tsx:49-62 | when a date and time are chosen and the required symptoms field is filled, submit builds the pending request from the current fields, with one entry per comma plus one |
| `DoctorDashboard.StatusChanged` | src/pages/DoctorDashboard.tsx:40-44 | same length and order; every entry keeps all fields but status; entries with the id get the new status; all others are unchanged |
| `DoctorDashboard.UnknownIdUnchanged` | src/pages/DoctorDashboard.tsx:41-43 | an id no entry carries leaves the list unchanged |
| `DoctorDashboard.StatusChangedIdempotent` | src/pages/DoctorDashboard.tsx:42 | applying the same change twice equals applying it once |
| `DoctorDashboard.StatusChangedKeepsIds` | src/pages/DoctorDashboard.tsx:42 | distinct ids stay distinct |
| `DoctorDashboard.ChangeMovesOne` | src/pages/DoctorDashboard.tsx:40-44 | changing the pending entry with a unique id lowers the pending count by one, raises the new status's count by one, and leaves the count of any third status |
| `DoctorDashboard.ButtonTransitions` | src/pages/DoctorDashboard.tsx:171-187 | with unique ids, Accept/Decline on a pending entry moves only that entry, from pending to confirmed or cancelled |
| `DoctorDashboard.PendingPlusConfirmed` | src/pages/DoctorDashboard.tsx:61-62 | pending plus confirmed never exceeds the total |
| `DoctorDashboard.DemoAppointments` | src/pages/DoctorDashboard.tsx:9-36 | two demo appointments with distinct ids, the first pending and the second confirmed. Both carry the signed-in user's id and name; when nobody is signed in, or that id or name is empty, they carry "2" and "Dr. Sarah Johnson" instead |
| `DoctorDashboard.DoctorBoard.constructor` | src/pages/DoctorDashboard.tsx:9-36 | the board starts with the demo appointments, whose ids are distinct |
| `DoctorDashboard.DoctorBoard.PendingCount` | src/pages/DoctorDashboard.tsx:61 | the pending count is at most the list length |
| `DoctorDashboard.DoctorBoard.ConfirmedCount` | src/pages/DoctorDashboard.tsx:62 | the confirmed count is at most the list length |
| `DoctorDashboard.DoctorBoard.HandleStatusChange` | src/pages/DoctorDashboard.tsx:40-44 | the list is replaced by the changed list, for confirmed or cancelled only; ids stay distinct |
| `DoctorDashboard.DoctorBoard.Accept` | src/pages/DoctorDashboard.tsx:171-179 | on a pending entry, that entry becomes confirmed and every other entry stays as it was. The pending count drops by one and the confirmed count rises by one. Ids stay distinct |
| `DoctorDashboard.DoctorBoard.Decline` | src/pages/DoctorDashboard.tsx:180-186 | on a pending entry, that entry becomes cancelled and every other entry stays as it was. The pending count drops by one and the confirmed count stays. Ids stay distinct |
| `PatientDashboard.BookingCounts` | src/pages/PatientDashboard.tsx:24-31 | appending a pending booking adds one to the pending count and leaves every other count |
| `PatientDashboard.FormBookingAddsPending` | src/components/AppointmentBooking.tsx:52-64 | every booking made through the form adds one pending appointment for that doctor and patient |
| `PatientDashboard.PatientBoard.constructor` | src/pages/PatientDashboard.tsx:12-14 | no recommendations, no open form, no appointments |
| `PatientDashboard.PatientBoard.PendingCount` | src/pages/PatientDashboard.tsx:85 | the pending count is at most the number of appointments |
| `PatientDashboard.PatientBoard.HandleDoctorRecommendation` | src/pages/PatientDashboard.tsx:16-18 | the recommended list is replaced wholesale; nothing else changes |
| `PatientDashboard.PatientBoard.HandleBookAppointment` | src/pages/PatientDashboard.tsx:20-22 | the chosen doctor is set; nothing else changes |
| `PatientDashboard.PatientBoard.CloseBooking` | src/pages/PatientDashboard.tsx:157 | the chosen doctor is cleared; nothing else changes |
| `PatientDashboard.PatientBoard.HandleAppointmentBook` | src/pages/PatientDashboard.tsx:24-31 | exactly one appointment, the request plus the given id and time, is appended at the end; earlier entries and other fields are unchanged |
| `PatientDashboard.PatientBoard.SubmitBooking` | src/components/AppointmentBooking.tsx:64-65 | a submitted form first appends its pending request, which raises the pending count by one, then closes the form |
| `Types.StampKeepsRequest` | src/pages/PatientDashboard.tsx:25-29 | the stored appointment carries every submitted field plus the given id and creation time |
| `Types.UserOfKeepsData` | src/context/AuthContext.tsx:83-87 | a registered user carries every given field plus the given id and creation time |
| `Types.CountStatus` | src/pages/PatientDashboard.tsx:85 | a status count never exceeds the list length |
| `Types.CountTwoStatuses` | src/pages/DoctorDashboard.tsx:61-62 | counts of two different statuses add up to at most the list length |
| `Types.CountStatusAppend` | src/pages/PatientDashboard.tsx:30 | appending an appointment adds one to the count of its own status only |
| `Auth.FindUser` | src/context/AuthContext.tsx:67 | finds an account exactly when one has the email; it is the first such account |
| `Auth.MockEmailsDistinct` | src/context/AuthContext.tsx:23-50 | three demo accounts with pairwise distinct emails |
| `Auth.FindMockUser` | src/context/AuthContext.tsx:23-50 | looking up a demo account's email finds that very account |
| `Auth.AuthState.constructor` | src/context/AuthContext.tsx:53 | nobody is signed in at first |
| `Auth.AuthState.Login` | src/context/AuthContext.tsx:65-74 | succeeds exactly when a demo account has the email and the password is demo123. On success that account is signed in; on failure the user is unchanged |
| `Auth.AuthState.Logout` | src/context/AuthContext.tsx:76-79 | signs out from any state |
| `Auth.AuthState.Register` | src/context/AuthContext.tsx:81-91 | always succeeds and signs in the given data with the given id and creation time |
| `Text.ToLowerChar` | src/components/ChatBot.tsx:34 | upper-case ASCII letters map to lower case; every other character is kept |
| `Text.ToLower` | src/components/ChatBot.tsx:34 | the lowercased string has the same length, no upper-case letter, each upper-case ASCII letter moved to its lower-case letter and every other character kept |
| `Text.ToLowerIdempotent` | src/components/ChatBot.tsx:34 | a lowercased string has no upper-case letter, and lowercasing again changes nothing |
| `Text.AbsentCharRulesOut` | src/components/ChatBot.tsx:38 | a string cannot contain a pattern if one of the pattern's characters is missing from the string at and after its index |
| `Text.ContainsInfix` | src/components/ChatBot.tsx:38 | a string contains whatever stands in its middle |
| `Text.ContainsAfter` | src/components/ChatBot.tsx:38 | putting text in front of a string keeps every occurrence in it |
| `Text.TrimSpec` | src/components/ChatBot.tsx:79 | trimming removes exactly the leading and trailing whitespace |
| `Text.TrimEmptyIffBlank` | src/components/ChatBot.tsx:79 | a text trims to empty exactly when it is all whitespace |
| `Text.TrimOfTrimmed` | src/components/AppointmentBooking.tsx:59 | trimming a trimmed text changes nothing |
| `Text.Split` | src/components/AppointmentBooking.tsx:59 | splitting always yields at least one piece |
| `Text.SplitCount` | src/components/AppointmentBooking.tsx:59 | splitting yields one more piece than there are separators |
| `Text.SplitPiecesFree` | src/components/AppointmentBooking.tsx:59 | no piece of a split contains the separator |
| `Text.SplitJoin` | src/components/AppointmentBooking.tsx:59 | joining the pieces with the separator gives the input back |
| `Text.JoinSplit` | src/components/AppointmentBooking.tsx:59 | separator-free pieces joined and split again come back unchanged |
| `Text.JoinContains` | src/components/ChatBot.tsx:120 | every piece occurs in the joined text |
| `Text.SplitNoSep` | src/components/AppointmentBooking.tsx:59 | a text without the separator splits into itself alone |

## Left out

- Rendering is not modelled: markup, styling, status colours, the match-score badges, the admin dashboard, the layout and the recommendation cards.
- The "View Details" panel of the doctor dashboard and its `selectedAppointment` copy are not modelled.
- The doctor dashboard's "today" filter of the demo list is not modelled.
- Timers are not modelled: the 1 to 2 second reply delay, the follow-up and recommendation delays, `isTyping` and scrolling. A chat turn is one atomic step that appends its messages in order. So the model does not capture two turns interleaving before their timers fire.
- `ChatBot.ChatSession.SendMessage` appends the messages in one step. The source appends them one at a time, some after timers, so other turns could interleave.
- The random reply is a parameter `pick`, required to be below the number of replies. `Math.floor(Math.random() * n)` always lies in that range.
- The clock and the locale are not modelled. `new Date()`, `toLocaleDateString`, `toISOString` and the `Date.now()` ids are left out. Dates are represented by their offset from today, and today's weekday is a parameter. Ids and timestamps are parameters, and no id uniqueness is claimed.
- `localStorage` persistence of the signed-in user is not modelled, nor its restore on start-up or `isLoading`.
- The `useAuth` provider check is not modelled.
- Text handling is ASCII only. Lowercasing covers ASCII letters only, and trimming removes ASCII whitespace only (space, tab, line feed, carriage return, vertical tab, form feed). JavaScript's `toLowerCase` and `trim` also handle the rest of Unicode.
- The doctor's `rating` (floating point) and the `avatar` URLs are not represented.
- The `completed` status exists but is never produced, so no transition into it is modelled.
- The `Symptom` interface is unused and not represented. So are the `context_set` field of an intent and the `phone`/`avatar` display uses.
- `DoctorDashboard.ButtonTransitions` holds only when appointment ids are distinct. The board keeps its ids distinct (`DoctorDashboard.DoctorBoard.Valid`), so its Accept and Decline always satisfy this. For a list with repeated ids, one click changes every entry with that id, whatever its status; `DoctorDashboard.StatusChanged` states that general behaviour.
- Chat messages are modelled as text and sender only. The `id` made from `Date.now()` and the `timestamp` of each message (ChatBot.tsx:80-85, 105-110, 117-122) are left out, because nothing in the chat reads them.
- The booking form assumes a signed-in user: `Booking.BookingForm` holds a plain `User`. The source dereferences `user!` (AppointmentBooking.tsx:53, 55), which throws when nobody is signed in. That failure is not modelled.
- `Booking.BookingForm.SelectDate`: the chosen date is any string. The model does not tie it to a date offered by `Booking.GetNextWeekDates`, because ISO dates are not modelled.
