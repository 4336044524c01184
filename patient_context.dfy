/** `PatientProvider` (src/context/PatientContext.tsx): the in-memory list of
    patients and the three remote operations that feed it. Each HTTP call is
    reduced to its outcome, which the caller of a method supplies. */
module Context {
  import opened Records

  /** A patient: any set of string fields; `id`, `name`, `website` and
      `description` are the ones the rest of the client reads. */
  type Patient = Record

  /** Outcome of `axios.post` / `axios.put`. */
  datatype RemoteOutcome = Succeeded | Failed

  /** Outcome of the initial `axios.get`: the response body, or an error. */
  datatype FetchOutcome = Fetched(data: seq<Patient>) | FetchFailed

  /** How the promise returned by `addPatient` / `editPatient` settles. */
  datatype Settlement = Resolved | Rejected

  /** `patient.id === updatedPatient.id`; two patients without an `id`
      compare equal, as `undefined === undefined` does. */
  predicate SameId(p: Patient, q: Patient) {
    Get(p, "id") == Get(q, "id")
  }

  /** `prevPatients.map(p => p.id === updated.id ? updated : p)`. */
  function ReplacedById(ps: seq<Patient>, updated: Patient): (r: seq<Patient>)
    ensures |r| == |ps|
    ensures forall i :: 0 <= i < |ps| ==> r[i] == if SameId(ps[i], updated) then updated else ps[i]
  {
    if ps == [] then []
    else [if SameId(ps[0], updated) then updated else ps[0]] + ReplacedById(ps[1..], updated)
  }

  /** Editing a patient whose id no element carries leaves the list as it was. */
  lemma ReplaceMissingId(ps: seq<Patient>, updated: Patient)
    requires forall i :: 0 <= i < |ps| ==> !SameId(ps[i], updated)
    ensures ReplacedById(ps, updated) == ps
  {
  }

  /** After an edit every element with the edited id is the edited patient,
      every other element is where it was, and a second identical edit
      changes nothing more. */
  lemma ReplaceEffect(ps: seq<Patient>, updated: Patient)
    ensures forall i :: 0 <= i < |ps| && SameId(ps[i], updated) ==> ReplacedById(ps, updated)[i] == updated
    ensures forall i :: 0 <= i < |ps| && !SameId(ps[i], updated) ==> ReplacedById(ps, updated)[i] == ps[i]
    ensures ReplacedById(ReplacedById(ps, updated), updated) == ReplacedById(ps, updated)
  {
    var once := ReplacedById(ps, updated);
    var twice := ReplacedById(once, updated);
    forall i | 0 <= i < |ps| ensures twice[i] == once[i] {
      assert SameId(once[i], updated) ==> once[i] == updated;
    }
  }

  class PatientProvider {
    /** The patients the provider shares with the app, empty until the fetch returns. */
    var patients: seq<Patient>

    /** The provider mounts with no patients. */
    constructor ()
      ensures patients == []
    {
      patients := [];
    }

    /** `fetchPatients`: the response body replaces the list; a failed request
        is only logged. */
    method FetchPatients(outcome: FetchOutcome)
      modifies this
      ensures patients == if outcome.Fetched? then outcome.data else old(patients)
    {
      if outcome.Fetched? {
        patients := outcome.data;
      }
    }

    /** `addPatient`: appends the record on success; a failure is logged and
        swallowed, so the returned promise always resolves. */
    method AddPatient(newPatient: Patient, outcome: RemoteOutcome) returns (s: Settlement)
      modifies this
      ensures s == Resolved
      ensures patients == if outcome.Succeeded? then old(patients) + [newPatient] else old(patients)
    {
      if outcome.Succeeded? {
        patients := patients + [newPatient];
      }
      s := Resolved;
    }

    /** `editPatient`: replaces every record with the same id on success; a
        failure is logged and swallowed, so the returned promise always resolves. */
    method EditPatient(updatedPatient: Patient, outcome: RemoteOutcome) returns (s: Settlement)
      modifies this
      ensures s == Resolved
      ensures patients == if outcome.Succeeded? then ReplacedById(old(patients), updatedPatient) else old(patients)
    {
      if outcome.Succeeded? {
        patients := ReplacedById(patients, updatedPatient);
      }
      s := Resolved;
    }
  }

  /** Mounting the provider and running its one fetch: the list is the fetched
      body, or empty when the request failed. */
  method Mount(outcome: FetchOutcome) returns (provider: PatientProvider)
    ensures fresh(provider)
    ensures provider.patients == if outcome.Fetched? then outcome.data else []
  {
    provider := new PatientProvider();
    provider.FetchPatients(outcome);
  }

  /** A client of the provider: after the fetch returned `ps`, a successful add
      keeps every earlier patient at its position and puts the new one last,
      and a failed add keeps the list. */
  method FetchThenAdd(ps: seq<Patient>, p: Patient, outcome: RemoteOutcome) returns (after: seq<Patient>)
    ensures outcome.Succeeded? ==> |after| == |ps| + 1 && after[|ps|] == p
    ensures outcome.Succeeded? ==> forall i :: 0 <= i < |ps| ==> after[i] == ps[i]
    ensures outcome.Failed? ==> after == ps
  {
    var provider := Mount(Fetched(ps));
    var _ := provider.AddPatient(p, outcome);
    after := provider.patients;
  }
}
