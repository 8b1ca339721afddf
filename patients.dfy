/** The fixed patient directory and its case-insensitive lookup
    (`get_patient_by_name`). */
module Patients {
  import opened Options
  import opened Text

  /** One directory record. The urgency is "emergency" or "outpatient" and
      the language code is interpolated into the voice choice. */
  datatype Patient = Patient(name: string, location: string, symptoms: string, urgency: string, lang: string)

  const Anne := Patient("Anne", "Nice, France", "severe leg pain", "emergency", "fr")
  const Liam := Patient("Liam", "Da Nang, Vietnam", "fever and dizziness", "outpatient", "en")
  const Priya := Patient("Priya", "Doha Airport, Qatar", "abdominal pain", "emergency", "en")

  /** The directory, keyed by the lower-cased first name. */
  const Directory: map<string, Patient> := map["anne" := Anne, "liam" := Liam, "priya" := Priya]

  /** `patients.get(name.lower())`. */
  function GetPatientByName(name: string): (r: Option<Patient>)
    ensures r.Some? <==> Lower(name) in {"anne", "liam", "priya"}
    ensures Lower(name) == "anne" ==> r == Some(Anne)
    ensures Lower(name) == "liam" ==> r == Some(Liam)
    ensures Lower(name) == "priya" ==> r == Some(Priya)
  {
    var key := Lower(name);
    if key in Directory then Some(Directory[key]) else None
  }

  /** The lookup ignores the case of the name it is given. */
  lemma LookupIgnoresCase(name: string)
    ensures GetPatientByName(name) == GetPatientByName(Lower(name))
  {
    LowerIdempotent(name);
  }

  /** A name the directory knows contains no '/' (so it is safe inside a
      file name built from it). */
  lemma FoundNameHasNoSlash(name: string)
    requires GetPatientByName(name).Some?
    ensures '/' !in name
  {
    if '/' in name {
      LowerKeeps(name, '/');
      assert false;
    }
  }

  /** The patient's own language is what the run later hands to the voice
      choice: Anne is the one French speaker. */
  lemma DirectoryLanguages(name: string)
    requires GetPatientByName(name).Some?
    ensures GetPatientByName(name).value.lang == "fr" <==> Lower(name) == "anne"
  {
  }
}
