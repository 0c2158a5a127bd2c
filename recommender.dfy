/**
 * The doctor recommender of src/components/ChatBot.tsx
 * (getDoctorRecommendations): the eligible doctors of the registry ranked by
 * descending match score, at most three of them.
 */
module Recommender {
  import opened Types
  import opened Doctors

  /** The fixed symptom-tag to specialty table. */
  const SpecialtyMap: map<string, string> := map[
    "headache" := "Neurology",
    "chest_pain" := "Cardiology",
    "back_pain" := "Orthopedics",
    "stomach_pain" := "Gastroenterology",
    "fever" := GeneralMedicine,
    "cough" := GeneralMedicine,
    "sore_throat" := GeneralMedicine,
    "nausea" := "Gastroenterology",
    "dizziness" := "Neurology"
  ]

  /**
   * The names every object literal inherits from `Object.prototype`. Looking one
   * up in the table yields an inherited member: a value that is truthy and
   * equals no specialty.
   */
  const InheritedKeys: set<string> := {
    "constructor", "toString", "toLocaleString", "valueOf", "hasOwnProperty",
    "isPrototypeOf", "propertyIsEnumerable", "__proto__", "__defineGetter__",
    "__defineSetter__", "__lookupGetter__", "__lookupSetter__"
  }

  /**
   * One symptom makes a doctor eligible: the doctor is a generalist, or the
   * table maps the symptom to the doctor's specialty, or the lookup finds
   * nothing at all (neither a table key nor an inherited name).
   */
  predicate QualifiesVia(doctor: Doctor, symptom: string) {
    || doctor.specialization == GeneralMedicine
    || (symptom in SpecialtyMap && doctor.specialization == SpecialtyMap[symptom])
    || (symptom !in SpecialtyMap && symptom !in InheritedKeys)
  }

  /** `detectedSymptoms.some(...)`: some accumulated symptom makes the doctor eligible. */
  predicate Qualifies(doctor: Doctor, symptoms: seq<string>) {
    |symptoms| > 0 && (QualifiesVia(doctor, symptoms[0]) || Qualifies(doctor, symptoms[1..]))
  }

  /** The scan answers yes exactly when some symptom makes the doctor eligible. */
  lemma {:induction false} QualifiesIff(doctor: Doctor, symptoms: seq<string>)
    ensures Qualifies(doctor, symptoms) <==> exists k :: 0 <= k < |symptoms| && QualifiesVia(doctor, symptoms[k])
  {
    if |symptoms| > 0 {
      QualifiesIff(doctor, symptoms[1..]);
      assert forall k :: 1 <= k < |symptoms| ==> symptoms[k] == symptoms[1..][k - 1];
    }
  }

  /** `sub` is `ds` with some entries dropped and the others kept in their order. */
  predicate IsSublist(sub: seq<Doctor>, ds: seq<Doctor>)
    decreases |ds|
  {
    if ds == [] then sub == []
    else (sub != [] && sub[0] == ds[0] && IsSublist(sub[1..], ds[1..])) || IsSublist(sub, ds[1..])
  }

  /** `doctors.filter(...)`: the eligible doctors, in registry order. */
  function FilterQualified(doctors: seq<Doctor>, symptoms: seq<string>): (r: seq<Doctor>)
    ensures |r| <= |doctors|
    ensures forall d :: d in r <==> d in doctors && Qualifies(d, symptoms)
  {
    if doctors == [] then []
    else if Qualifies(doctors[0], symptoms) then [doctors[0]] + FilterQualified(doctors[1..], symptoms)
    else FilterQualified(doctors[1..], symptoms)
  }

  /** The filter holds every eligible doctor exactly as often as the registry does, and no other doctor. */
  lemma {:induction false} FilterQualifiedCounts(doctors: seq<Doctor>, symptoms: seq<string>)
    ensures forall d :: multiset(FilterQualified(doctors, symptoms))[d] ==
                          if Qualifies(d, symptoms) then multiset(doctors)[d] else 0
  {
    if doctors != [] {
      FilterQualifiedCounts(doctors[1..], symptoms);
      assert doctors == [doctors[0]] + doctors[1..];
    }
  }

  /** The filter keeps the registry order: it is the registry with entries dropped. */
  lemma {:induction false} FilterQualifiedOrder(doctors: seq<Doctor>, symptoms: seq<string>)
    ensures IsSublist(FilterQualified(doctors, symptoms), doctors)
  {
    if doctors != [] {
      var rest := FilterQualified(doctors[1..], symptoms);
      FilterQualifiedOrder(doctors[1..], symptoms);
      if Qualifies(doctors[0], symptoms) {
        assert ([doctors[0]] + rest)[1..] == rest;
      }
    }
  }

  /** Scores never increase along the sequence. */
  predicate Descending(ds: seq<Doctor>) {
    forall i, j :: 0 <= i < j < |ds| ==> ds[i].matchScore >= ds[j].matchScore
  }

  /** The doctors with the given score, in their order in `ds`. */
  function WithScore(ds: seq<Doctor>, score: int): (r: seq<Doctor>)
    ensures |r| <= |ds|
  {
    if ds == [] then []
    else if ds[0].matchScore == score then [ds[0]] + WithScore(ds[1..], score)
    else WithScore(ds[1..], score)
  }

  /** Insert `d` before the first doctor whose score is not higher than its own. */
  function Insert(d: Doctor, ds: seq<Doctor>): (r: seq<Doctor>)
    ensures |r| == |ds| + 1
    ensures multiset(r) == multiset(ds) + multiset{d}
  {
    if ds == [] || ds[0].matchScore <= d.matchScore then [d] + ds
    else
      assert ds == [ds[0]] + ds[1..];
      [ds[0]] + Insert(d, ds[1..])
  }

  /** A doctor scoring at least as high as every doctor of a descending sequence can go in front of it. */
  lemma DescendingCons(x: Doctor, t: seq<Doctor>)
    requires Descending(t)
    requires forall k :: 0 <= k < |t| ==> t[k].matchScore <= x.matchScore
    ensures Descending([x] + t)
  {
    var r := [x] + t;
    forall i, j | 0 <= i < j < |r| ensures r[i].matchScore >= r[j].matchScore {
      assert r[j] == t[j - 1];
      if i > 0 {
        assert r[i] == t[i - 1];
      }
    }
  }

  /** Inserting into a descending sequence keeps it descending. */
  lemma {:induction false} InsertDescending(d: Doctor, ds: seq<Doctor>)
    requires Descending(ds)
    ensures Descending(Insert(d, ds))
  {
    if ds == [] || ds[0].matchScore <= d.matchScore {
      DescendingCons(d, ds);
    } else {
      var tail := Insert(d, ds[1..]);
      InsertDescending(d, ds[1..]);
      forall k | 0 <= k < |tail| ensures tail[k].matchScore <= ds[0].matchScore {
        assert tail[k] in multiset(tail);
        if tail[k] != d {
          var i :| 0 <= i < |ds[1..]| && ds[1..][i] == tail[k];
          assert ds[1..][i] == ds[i + 1];
        }
      }
      DescendingCons(ds[0], tail);
    }
  }

  /** The doctors of one score in a concatenation are those of each part, in turn. */
  lemma {:induction false} WithScoreAppend(a: seq<Doctor>, b: seq<Doctor>, score: int)
    ensures WithScore(a + b, score) == WithScore(a, score) + WithScore(b, score)
  {
    if a == [] {
      assert a + b == b;
    } else {
      var ab := a + b;
      assert ab != [] && ab[0] == a[0] && ab[1..] == a[1..] + b;
      var rest := WithScore(a[1..], score);
      WithScoreAppend(a[1..], b, score);
      if a[0].matchScore == score {
        assert WithScore(ab, score) == [a[0]] + (rest + WithScore(b, score));
        assert WithScore(a, score) == [a[0]] + rest;
      } else {
        assert WithScore(ab, score) == rest + WithScore(b, score);
        assert WithScore(a, score) == rest;
      }
    }
  }

  /** The doctors of one score in a prefix are a prefix of those in the whole sequence. */
  lemma WithScorePrefix(ds: seq<Doctor>, m: nat, score: int)
    requires m <= |ds|
    ensures WithScore(ds[..m], score) <= WithScore(ds, score)
  {
    assert ds == ds[..m] + ds[m..];
    WithScoreAppend(ds[..m], ds[m..], score);
  }

  /** The inserted doctor goes in front of every doctor with the same score. */
  lemma {:induction false} InsertWithScore(d: Doctor, ds: seq<Doctor>, score: int)
    ensures WithScore(Insert(d, ds), score) ==
              if d.matchScore == score then [d] + WithScore(ds, score) else WithScore(ds, score)
  {
    if ds == [] || ds[0].matchScore <= d.matchScore {
      assert ([d] + ds)[1..] == ds;
    } else {
      InsertWithScore(d, ds[1..], score);
      assert ([ds[0]] + Insert(d, ds[1..]))[1..] == Insert(d, ds[1..]);
    }
  }

  /**
   * `.sort((a, b) => b.matchScore - a.matchScore)`: a stable sort by descending
   * score, here an insertion sort. The result is a descending permutation.
   */
  function SortByScore(ds: seq<Doctor>): (r: seq<Doctor>)
    ensures |r| == |ds|
    ensures multiset(r) == multiset(ds)
    ensures Descending(r)
  {
    if ds == [] then []
    else
      var rest := SortByScore(ds[1..]);
      assert ds == [ds[0]] + ds[1..];
      InsertDescending(ds[0], rest);
      Insert(ds[0], rest)
  }

  /** Stability: the doctors of any one score appear in the sorted result in their original order. */
  lemma {:induction false} SortByScoreStable(ds: seq<Doctor>, score: int)
    ensures WithScore(SortByScore(ds), score) == WithScore(ds, score)
  {
    if ds != [] {
      SortByScoreStable(ds[1..], score);
      InsertWithScore(ds[0], SortByScore(ds[1..]), score);
    }
  }

  /** A prefix of a descending sequence is descending. */
  lemma DescendingPrefix(ds: seq<Doctor>, m: nat)
    requires Descending(ds) && m <= |ds|
    ensures Descending(ds[..m])
  {
    assert forall k :: 0 <= k < m ==> ds[..m][k] == ds[k];
  }

  /** In a descending sequence, an element after the first `m` scores no higher than any of them. */
  lemma LeftOutScoresLower(ds: seq<Doctor>, m: nat, d: Doctor)
    requires Descending(ds) && m <= |ds| && d in ds[m..]
    ensures forall k :: 0 <= k < m ==> d.matchScore <= ds[k].matchScore
  {
    var t :| 0 <= t < |ds[m..]| && ds[m..][t] == d;
    assert ds[m + t] == d;
  }

  /** The first `m` doctors of the ranking come from the input and are in descending order. */
  lemma RankedPrefix(qualified: seq<Doctor>, m: nat)
    requires m <= |qualified|
    ensures forall k :: 0 <= k < m ==> SortByScore(qualified)[k] in qualified
    ensures Descending(SortByScore(qualified)[..m])
  {
    var ranked := SortByScore(qualified);
    forall k | 0 <= k < m ensures ranked[k] in qualified {
      assert ranked[k] in multiset(ranked);
    }
    DescendingPrefix(ranked, m);
  }

  /**
   * No copy of a doctor of `pool` that `top` leaves out scores higher than any
   * doctor of `top`.
   */
  ghost predicate NoneLeftOutHigher(top: seq<Doctor>, pool: seq<Doctor>) {
    forall d :: multiset(top)[d] < multiset(pool)[d] ==>
      forall k :: 0 <= k < |top| ==> d.matchScore <= top[k].matchScore
  }

  /** A prefix of a descending sequence leaves out nothing that scores higher. */
  lemma DescendingPrefixLeftOut(ds: seq<Doctor>, m: nat)
    requires Descending(ds) && m <= |ds|
    ensures NoneLeftOutHigher(ds[..m], ds)
  {
    var top, bottom := ds[..m], ds[m..];
    assert ds == top + bottom;
    assert multiset(ds) == multiset(top) + multiset(bottom);
    forall d | multiset(top)[d] < multiset(ds)[d]
      ensures forall k :: 0 <= k < |top| ==> d.matchScore <= top[k].matchScore
    {
      assert d in multiset(bottom);
      LeftOutScoresLower(ds, m, d);
    }
  }

  /** The first `m` doctors of the ranking leave out nothing of the input that scores higher. */
  lemma RankedPrefixLeftOut(qualified: seq<Doctor>, m: nat)
    requires m <= |qualified|
    ensures NoneLeftOutHigher(SortByScore(qualified)[..m], qualified)
  {
    DescendingPrefixLeftOut(SortByScore(qualified), m);
  }

  /** The first `m` doctors of the ranking hold no doctor more often than the input. */
  lemma RankedPrefixWithin(qualified: seq<Doctor>, m: nat)
    requires m <= |qualified|
    ensures multiset(SortByScore(qualified)[..m]) <= multiset(qualified)
  {
    var ranked := SortByScore(qualified);
    assert ranked == ranked[..m] + ranked[m..];
  }

  /** The first `m` doctors of the ranking keep the input order within each score. */
  lemma RankedPrefixStable(qualified: seq<Doctor>, m: nat, score: int)
    requires m <= |qualified|
    ensures WithScore(SortByScore(qualified)[..m], score) <= WithScore(qualified, score)
  {
    WithScorePrefix(SortByScore(qualified), m, score);
    SortByScoreStable(qualified, score);
  }

  function Min(a: int, b: int): int {
    if a <= b then a else b
  }

  /** Some doctor of the list is eligible for the symptoms. */
  predicate AnyQualified(doctors: seq<Doctor>, symptoms: seq<string>) {
    exists d :: d in doctors && Qualifies(d, symptoms)
  }

  /** Some doctor is eligible exactly when the filter keeps one. */
  lemma AnyQualifiedIff(doctors: seq<Doctor>, symptoms: seq<string>)
    ensures AnyQualified(doctors, symptoms) <==> |FilterQualified(doctors, symptoms)| > 0
  {
    var qualified := FilterQualified(doctors, symptoms);
    if |qualified| > 0 {
      assert qualified[0] in qualified;
    }
  }

  /**
   * `top` can head the ranking of the doctors eligible for `symptoms`: eligible
   * registry doctors in descending score order, none kept more often than the
   * filter keeps it, equal scores in registry order, and no copy of an
   * eligible doctor left out scoring higher than any of them.
   */
  ghost predicate RankedHead(top: seq<Doctor>, doctors: seq<Doctor>, symptoms: seq<string>) {
    && (forall k :: 0 <= k < |top| ==> top[k] in doctors && Qualifies(top[k], symptoms))
    && Descending(top)
    && NoneLeftOutHigher(top, FilterQualified(doctors, symptoms))
    && multiset(top) <= multiset(FilterQualified(doctors, symptoms))
    && (forall score :: WithScore(top, score) <= WithScore(FilterQualified(doctors, symptoms), score))
  }

  /** The first `m` doctors of the ranking of the eligible doctors head that ranking. */
  lemma TopOfRanking(doctors: seq<Doctor>, symptoms: seq<string>, m: nat)
    requires m <= |FilterQualified(doctors, symptoms)|
    ensures RankedHead(SortByScore(FilterQualified(doctors, symptoms))[..m], doctors, symptoms)
  {
    var qualified := FilterQualified(doctors, symptoms);
    var ranked := SortByScore(qualified);
    var top := ranked[..m];
    RankedPrefix(qualified, m);
    RankedPrefixLeftOut(qualified, m);
    RankedPrefixWithin(qualified, m);
    forall score ensures WithScore(top, score) <= WithScore(qualified, score) {
      RankedPrefixStable(qualified, m, score);
    }
    forall k | 0 <= k < |top| ensures top[k] in doctors && Qualifies(top[k], symptoms) {
      assert top[k] == ranked[k];
    }
    assert Descending(top);
    assert multiset(top) <= multiset(qualified);
  }

  /**
   * Recommend at most three doctors of the registry `doctors`: the
   * highest-scoring eligible ones in descending score order, each no more often
   * than the filter keeps it, with equal scores in registry order; or the first
   * three of the registry when none is eligible.
   */
  function GetDoctorRecommendations(doctors: seq<Doctor>, symptoms: seq<string>): (r: seq<Doctor>)
    ensures |r| <= 3
    ensures forall k :: 0 <= k < |r| ==> r[k] in doctors
    ensures AnyQualified(doctors, symptoms) ==>
              |r| == Min(3, |FilterQualified(doctors, symptoms)|) && RankedHead(r, doctors, symptoms)
    ensures !AnyQualified(doctors, symptoms) ==> r == doctors[..Min(3, |doctors|)]
  {
    var qualified := FilterQualified(doctors, symptoms);
    AnyQualifiedIff(doctors, symptoms);
    TopOfRanking(doctors, symptoms, Min(3, |qualified|));
    if |qualified| > 0 then SortByScore(qualified)[..Min(3, |qualified|)]
    else doctors[..Min(3, |doctors|)]
  }

  /** No doctor occurs twice in `ds`. */
  predicate Distinct(ds: seq<Doctor>) {
    forall i, j :: 0 <= i < j < |ds| ==> ds[i] != ds[j]
  }

  /** A sequence without repeats holds each doctor at most once. */
  lemma {:induction false} DistinctOnce(ds: seq<Doctor>)
    requires Distinct(ds)
    ensures forall d :: multiset(ds)[d] <= 1
  {
    if ds != [] {
      var rest := ds[1..];
      assert Distinct(rest) by {
        forall i, j | 0 <= i < j < |rest| ensures rest[i] != rest[j] {
          assert rest[i] == ds[i + 1] && rest[j] == ds[j + 1];
        }
      }
      DistinctOnce(rest);
      assert ds == [ds[0]] + rest;
      assert ds[0] !in rest by {
        forall k | 0 <= k < |rest| ensures rest[k] != ds[0] {
          assert rest[k] == ds[k + 1];
        }
      }
    }
  }

  /** A sequence holding each doctor at most once has no repeats. */
  lemma OnceDistinct(ds: seq<Doctor>)
    requires forall d :: multiset(ds)[d] <= 1
    ensures Distinct(ds)
  {
    forall i, j | 0 <= i < j < |ds| ensures ds[i] != ds[j] {
      var before, after := ds[..j], ds[j..];
      assert ds == before + after;
      assert before[i] == ds[i] && after[0] == ds[j];
      assert ds[i] in multiset(before) && ds[j] in multiset(after);
      assert multiset(ds)[ds[j]] == multiset(before)[ds[j]] + multiset(after)[ds[j]];
    }
  }

  /** A registry without repeats gets a recommendation without repeats. */
  lemma RecommendationsDistinct(doctors: seq<Doctor>, symptoms: seq<string>)
    requires Distinct(doctors)
    ensures Distinct(GetDoctorRecommendations(doctors, symptoms))
  {
    var r := GetDoctorRecommendations(doctors, symptoms);
    DistinctOnce(doctors);
    if AnyQualified(doctors, symptoms) {
      FilterQualifiedCounts(doctors, symptoms);
      assert forall d :: multiset(r)[d] <= multiset(FilterQualified(doctors, symptoms))[d];
    } else {
      assert r == doctors[..Min(3, |doctors|)];
      assert forall i :: 0 <= i < |r| ==> r[i] == doctors[i];
    }
    if AnyQualified(doctors, symptoms) {
      OnceDistinct(r);
    }
  }

  /** The registry has no repeats, so no recommendation from it names a doctor twice. */
  lemma RegistryRecommendationsDistinct(symptoms: seq<string>)
    ensures Distinct(GetDoctorRecommendations(Registry, symptoms))
  {
    RegistryIds();
    RecommendationsDistinct(Registry, symptoms);
  }

  /** A non-empty symptom list always makes the General Medicine doctor eligible, so the fallback only serves an empty list. */
  lemma NonEmptySymptomsQualify(symptoms: seq<string>)
    ensures |symptoms| > 0 <==> AnyQualified(Registry, symptoms)
  {
    if |symptoms| > 0 {
      OneGeneralPractitioner();
      assert QualifiesVia(Registry[0], symptoms[0]);
      assert Registry[0] in Registry && Qualifies(Registry[0], symptoms);
    }
  }

  /** With no symptoms the recommendation is the first three registry doctors. */
  lemma NoSymptomsFallback()
    ensures GetDoctorRecommendations(Registry, []) == Registry[..3]
  {
    NonEmptySymptomsQualify([]);
  }

  /** When some doctor is eligible, the recommendation is the head of the ranking of the eligible doctors. */
  lemma RecommendationOfFilter(doctors: seq<Doctor>, symptoms: seq<string>, qualified: seq<Doctor>)
    requires FilterQualified(doctors, symptoms) == qualified && |qualified| > 0
    ensures GetDoctorRecommendations(doctors, symptoms) == SortByScore(qualified)[..Min(3, |qualified|)]
  {
    AnyQualifiedIff(doctors, symptoms);
  }

  /** Of the registry, only Johnson and Rodriguez are eligible for a headache. */
  lemma HeadacheFilter()
    ensures FilterQualified(Registry, ["headache"]) == [Registry[0], Registry[2]]
  {
    var s := ["headache"];
    var r := Registry;
    assert SpecialtyMap["headache"] == "Neurology";
    assert Qualifies(r[0], s) by { assert QualifiesVia(r[0], s[0]); }
    assert Qualifies(r[2], s) by { assert QualifiesVia(r[2], s[0]); }
    assert !Qualifies(r[1], s) && !Qualifies(r[3], s) && !Qualifies(r[4], s);
    assert FilterQualified(r[4..], s) == [];
    assert FilterQualified(r[3..], s) == [];
    assert FilterQualified(r[2..], s) == [r[2]];
    assert FilterQualified(r[1..], s) == [r[2]];
  }

  /** `[headache]` recommends Johnson (General Medicine, 95) then Rodriguez (Neurology, 92). */
  lemma HeadacheRecommendation()
    ensures GetDoctorRecommendations(Registry, ["headache"]) == [Registry[0], Registry[2]]
  {
    var r := Registry;
    HeadacheFilter();
    RecommendationOfFilter(r, ["headache"], [r[0], r[2]]);
    assert SortByScore([r[2]]) == [r[2]];
    assert SortByScore([r[0], r[2]]) == [r[0], r[2]];
  }

  /** Of the registry, only Johnson and Chen are eligible for chest pain. */
  lemma ChestPainFilter()
    ensures FilterQualified(Registry, ["chest_pain"]) == [Registry[0], Registry[1]]
  {
    var s := ["chest_pain"];
    var r := Registry;
    assert SpecialtyMap["chest_pain"] == "Cardiology";
    assert Qualifies(r[0], s) by { assert QualifiesVia(r[0], s[0]); }
    assert Qualifies(r[1], s) by { assert QualifiesVia(r[1], s[0]); }
    assert !Qualifies(r[2], s) && !Qualifies(r[3], s) && !Qualifies(r[4], s);
    assert FilterQualified(r[4..], s) == [];
    assert FilterQualified(r[3..], s) == [];
    assert FilterQualified(r[2..], s) == [];
    assert FilterQualified(r[1..], s) == [r[1]];
  }

  /** `[chest_pain]` recommends Johnson (General Medicine, 95) then Chen (Cardiology, 88). */
  lemma ChestPainRecommendation()
    ensures GetDoctorRecommendations(Registry, ["chest_pain"]) == [Registry[0], Registry[1]]
  {
    var r := Registry;
    ChestPainFilter();
    RecommendationOfFilter(r, ["chest_pain"], [r[0], r[1]]);
    assert SortByScore([r[1]]) == [r[1]];
    assert SortByScore([r[0], r[1]]) == [r[0], r[1]];
  }

  /**
   * An inherited name such as "constructor" is not unmapped: its lookup yields a
   * member of `Object.prototype`, so of the registry only Johnson is eligible.
   */
  lemma InheritedKeyFilter()
    ensures FilterQualified(Registry, ["constructor"]) == [Registry[0]]
  {
    var s := ["constructor"];
    var r := Registry;
    assert "constructor" !in SpecialtyMap && "constructor" in InheritedKeys;
    assert Qualifies(r[0], s) by { assert QualifiesVia(r[0], s[0]); }
    assert !Qualifies(r[1], s) && !Qualifies(r[2], s) && !Qualifies(r[3], s) && !Qualifies(r[4], s);
    assert FilterQualified(r[4..], s) == [];
    assert FilterQualified(r[3..], s) == [];
    assert FilterQualified(r[2..], s) == [];
    assert FilterQualified(r[1..], s) == [];
  }

  /** `[constructor]` recommends Johnson alone, not the first three of the registry. */
  lemma InheritedKeyRecommendation()
    ensures GetDoctorRecommendations(Registry, ["constructor"]) == [Registry[0]]
  {
    var r := Registry;
    InheritedKeyFilter();
    RecommendationOfFilter(r, ["constructor"], [r[0]]);
    assert SortByScore([r[0]]) == [r[0]];
  }
}
