/** `AppContent` (src/App.tsx): the selection, the form modal, the loading
    overlay and the notification around the patient store. */
module App {
  import opened Records
  import opened Context

  const UpdatedMessage := "Patient updated successfully."
  const AddedMessage := "Patient added successfully."
  const FailedMessage := "Failed to save patient data."

  /** `{ message, type }` of a toast. */
  datatype Notice = Notice(message: string, kind: string)

  /** `${data.name}` in a template literal: a missing name prints "undefined". */
  function NameText(data: Patient): string {
    if "name" in data.values then data.values["name"] else "undefined"
  }

  /** The loading text, chosen by whether a patient is selected. */
  function LoadingMessageFor(editing: bool, data: Patient): string {
    if editing then "Wait while we edit " + NameText(data) + " information..."
    else "Wait while we add " + NameText(data) + " as a patient..."
  }

  /** The toast after the awaited store call: the success text of the branch
      taken when the promise resolves, the failure text when it rejects. */
  function SubmitNotice(editing: bool, settled: Settlement): (n: Notice)
    ensures n.kind == "error" <==> settled == Rejected
    ensures settled == Resolved ==> n.message == if editing then UpdatedMessage else AddedMessage
  {
    match settled
    case Resolved => Notice(if editing then UpdatedMessage else AddedMessage, "success")
    case Rejected => Notice(FailedMessage, "error")
  }

  /** The list after a submit: an edit when a patient was selected, an add
      otherwise, and no change when the request failed. */
  function AfterSubmit(ps: seq<Patient>, editing: bool, data: Patient, outcome: RemoteOutcome): seq<Patient> {
    if outcome.Failed? then ps else if editing then ReplacedById(ps, data) else ps + [data]
  }

  class AppContent {
    const store: PatientProvider
    var selectedPatient: Option<Patient>
    var isModalOpen: bool
    var notification: Option<Notice>
    var loading: bool
    var loadingMessage: string
    var searchQuery: string

    constructor (store: PatientProvider)
      ensures this.store == store
      ensures selectedPatient == None && !isModalOpen && notification == None
      ensures !loading && loadingMessage == "" && searchQuery == ""
    {
      this.store := store;
      selectedPatient := None;
      isModalOpen := false;
      notification := None;
      loading := false;
      loadingMessage := "";
      searchQuery := "";
    }

    /** `handleAddPatient`: clear the selection and open the form. */
    method HandleAddPatient()
      modifies this`selectedPatient, this`isModalOpen
      ensures selectedPatient == None && isModalOpen
    {
      selectedPatient := None;
      isModalOpen := true;
    }

    /** `handleEditPatient`: select the patient and open the form. */
    method HandleEditPatient(patient: Patient)
      modifies this`selectedPatient, this`isModalOpen
      ensures selectedPatient == Some(patient) && isModalOpen
    {
      selectedPatient := Some(patient);
      isModalOpen := true;
    }

    /** `handleFormSubmit`: edit when a patient is selected, add otherwise;
        whatever the outcome, the modal ends closed, `loading` false and the
        selection cleared, and since the store never rejects the toast is the
        success one. */
    method HandleFormSubmit(data: Patient, outcome: RemoteOutcome)
      modifies this, store
      ensures store.patients == AfterSubmit(old(store.patients), old(selectedPatient).Some?, data, outcome)
      ensures loadingMessage == LoadingMessageFor(old(selectedPatient).Some?, data)
      ensures notification == Some(Notice(if old(selectedPatient).Some? then UpdatedMessage else AddedMessage, "success"))
      ensures !isModalOpen && !loading && selectedPatient == None
      ensures searchQuery == old(searchQuery)
    {
      var editing := selectedPatient.Some?;
      loadingMessage := LoadingMessageFor(editing, data);
      loading := true;
      isModalOpen := false;
      var settled: Settlement;
      if editing {
        settled := store.EditPatient(data, outcome);
      } else {
        settled := store.AddPatient(data, outcome);
      }
      notification := Some(SubmitNotice(editing, settled));
      loading := false;
      selectedPatient := None;
    }

    /** `handleCancel`: close the form, keep the selection. */
    method HandleCancel()
      modifies this`isModalOpen
      ensures !isModalOpen
    {
      isModalOpen := false;
    }

    /** `handleNotificationClose` */
    method HandleNotificationClose()
      modifies this`notification
      ensures notification == None
    {
      notification := None;
    }

    /** The search box's `onChange`. */
    method SetSearchQuery(query: string)
      modifies this`searchQuery
      ensures searchQuery == query
    {
      searchQuery := query;
    }

    /** `patients.length !== 0`: the header (search box and "Add New Patient") is rendered. */
    predicate HeaderShown()
      reads this, store
    {
      |store.patients| != 0
    }
  }

  /** A whole edit from a fresh page whose fetch returned `ps`: even when the
      request fails the toast reads "Patient updated successfully.", the
      "error" toast is never shown, and afterwards the selection is clear. */
  method EditFlow(ps: seq<Patient>, patient: Patient, data: Patient, outcome: RemoteOutcome)
    returns (notice: Notice, after: seq<Patient>, header: bool)
    ensures notice == Notice("Patient updated successfully.", "success")
    ensures after == if outcome.Succeeded? then ReplacedById(ps, data) else ps
    ensures header <==> ps != []
  {
    var provider := Mount(Fetched(ps));
    var app := new AppContent(provider);
    app.HandleEditPatient(patient);
    app.HandleFormSubmit(data, outcome);
    notice := app.notification.value;
    after := provider.patients;
    header := app.HeaderShown();
  }

  /** The same for an add after a failed fetch: the list starts empty (no
      header), and a successful add puts the record in it. */
  method AddFlow(data: Patient, outcome: RemoteOutcome)
    returns (notice: Notice, after: seq<Patient>, header: bool)
    ensures notice == Notice("Patient added successfully.", "success")
    ensures after == if outcome.Succeeded? then [data] else []
    ensures header <==> outcome.Succeeded?
  {
    var provider := Mount(FetchFailed);
    var app := new AppContent(provider);
    app.HandleAddPatient();
    app.HandleFormSubmit(data, outcome);
    notice := app.notification.value;
    after := provider.patients;
    header := app.HeaderShown();
  }
}
