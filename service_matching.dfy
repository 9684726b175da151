/** Symptom-based healer matching: the visitor picks symptoms, the matcher
    keeps the healers with a related specialty, and falls back to the first
    two healers when none is related. */
module ServiceMatching {
  import opened Text
  import opened Lists

  datatype Healer = Healer(id: int, name: string, specialties: seq<string>)

  datatype Step = Symptoms | Matching | Results

  const MockHealers: seq<Healer> := [
    Healer(1, "Dr. Priya Sharma", ["Anxiety", "Depression", "Stress Management", "Mindfulness"]),
    Healer(2, "Ravi Krishnan", ["Energy Healing", "Chakra Balancing", "Spiritual Guidance", "Reiki"]),
    Healer(3, "Sarah Williams", ["Trauma Recovery", "PTSD", "EMDR", "Somatic Healing"])]

  /** A symptom and a specialty are related when either contains the other, ignoring case. */
  predicate Related(symptom: string, specialty: string) {
    ContainsIgnoringCase(symptom, specialty) || ContainsIgnoringCase(specialty, symptom)
  }

  /** `selectedSymptoms.some(symptom => healer.specialties.some(...))`. */
  predicate MatchesSymptoms(h: Healer, symptoms: seq<string>) {
    exists i, j :: 0 <= i < |symptoms| && 0 <= j < |h.specialties| && Related(symptoms[i], h.specialties[j])
  }

  function MatchesAny(symptoms: seq<string>): Healer -> bool {
    (h: Healer) => MatchesSymptoms(h, symptoms)
  }

  /** The healers `findHealers` shows: the related ones in order, or the
      first two when none is related. */
  function FindHealers(healers: seq<Healer>, symptoms: seq<string>): (r: seq<Healer>)
    ensures |healers| > 0 ==> |r| > 0
    ensures (exists i :: 0 <= i < |healers| && MatchesSymptoms(healers[i], symptoms)) ==>
      && (forall i :: 0 <= i < |r| ==> MatchesSymptoms(r[i], symptoms))
      && (forall i :: 0 <= i < |healers| && MatchesSymptoms(healers[i], symptoms) ==> healers[i] in r)
    ensures (forall i :: 0 <= i < |healers| ==> !MatchesSymptoms(healers[i], symptoms)) ==>
      r == Take(healers, 2)
    ensures IsSubsequence(r, healers)
  {
    var related := Filter(healers, MatchesAny(symptoms));
    FilterIsSubsequence(healers, MatchesAny(symptoms));
    PrefixIsSubsequence(Take(healers, 2), healers);
    if |related| > 0 then related else Take(healers, 2)
  }

  /** With no symptom selected no healer matches, so the fallback is shown. */
  lemma NoSymptomsFallBack(healers: seq<Healer>)
    ensures FindHealers(healers, []) == Take(healers, 2)
  {
  }

  /** Picking "Anxiety or panic attacks" brings up the anxiety specialist. */
  lemma AnxietyFindsSpecialist()
    ensures MockHealers[0] in FindHealers(MockHealers, ["Anxiety or panic attacks"])
  {
    var symptoms := ["Anxiety or panic attacks"];
    assert "Anxiety" <= symptoms[0];
    PrefixContainedIgnoringCase(symptoms[0], "Anxiety");
    assert Related(symptoms[0], MockHealers[0].specialties[0]);
    assert MatchesSymptoms(MockHealers[0], symptoms);
  }

  /** The matcher's state. */
  class Matcher {
    var selectedSymptoms: seq<string>
    var matchedHealers: seq<Healer>
    var isLoading: bool
    var currentStep: Step

    constructor ()
      ensures selectedSymptoms == [] && matchedHealers == [] && !isLoading && currentStep == Symptoms
    {
      selectedSymptoms := [];
      matchedHealers := [];
      isLoading := false;
      currentStep := Symptoms;
    }

    /** `handleSymptomSelect`: the symptom's selection flips. */
    method SelectSymptom(symptom: string)
      modifies this`selectedSymptoms
      ensures selectedSymptoms == Toggle(old(selectedSymptoms), symptom)
      ensures NoDup(old(selectedSymptoms)) ==> NoDup(selectedSymptoms)
    {
      if NoDup(selectedSymptoms) {
        ToggleNoDup(selectedSymptoms, symptom);
      }
      selectedSymptoms := Toggle(selectedSymptoms, symptom);
    }

    /** `findHealers`: nothing without a symptom; otherwise the matching step,
        then the results step with the found healers and loading over. */
    method FindHealersNow(healers: seq<Healer>)
      modifies this`isLoading, this`currentStep, this`matchedHealers
      ensures old(selectedSymptoms) == [] ==>
        isLoading == old(isLoading) && currentStep == old(currentStep) && matchedHealers == old(matchedHealers)
      ensures old(selectedSymptoms) != [] ==>
        && matchedHealers == FindHealers(healers, selectedSymptoms)
        && currentStep == Results && !isLoading
    {
      if |selectedSymptoms| == 0 {
        return;
      }
      isLoading := true;
      currentStep := Matching;
      matchedHealers := FindHealers(healers, selectedSymptoms);
      currentStep := Results;
      isLoading := false;
    }

    /** `resetSelection`: back to picking symptoms with nothing selected or found. */
    method ResetSelection()
      modifies this`selectedSymptoms, this`matchedHealers, this`currentStep
      ensures selectedSymptoms == [] && matchedHealers == [] && currentStep == Symptoms
    {
      selectedSymptoms := [];
      matchedHealers := [];
      currentStep := Symptoms;
    }
  }
}
