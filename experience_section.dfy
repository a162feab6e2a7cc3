/**
 * The admin panel that manages experience entries: an edit modal, a delete
 * confirmation modal, and the save and delete requests with their success
 * and failure transitions. Each request is split into the part that runs
 * before `await` (`Start…`) and the part that runs once the promise settles
 * (`Finish…`), whose outcome is given.
 */
module ExperienceAdmin {
  import opened Wrappers
  import opened JsStrings
  import opened TokenStore
  import opened Api

  const SAVE_FAILED: string := "Failed to save experience. Please try again."
  const DELETE_FAILED: string := "Failed to delete experience. Please try again."

  /** The five state fields of the panel. */
  datatype Panel = Panel(
    isModalOpen: bool,
    isDeleteModalOpen: bool,
    current: Option<ExperienceData>,
    isSubmitting: bool,
    error: Option<string>)

  /** `currentExperience?.id` is truthy. */
  predicate HasId(current: Option<ExperienceData>) {
    current.Some? && Truthy(current.value.id)
  }

  /** The request a save sends: an update of the current entry when it has an id, a create otherwise. */
  function SaveCall(current: Option<ExperienceData>, data: ExperienceData): (call: Call)
    ensures call.body == ExperienceBody(data)
    ensures HasId(current) ==> call == ExperienceUpdateCall(current.value.id.value, data)
    ensures !HasId(current) ==> call == ExperienceCreateCall(data)
  {
    if HasId(current) then ExperienceUpdateCall(current.value.id.value, data) else ExperienceCreateCall(data)
  }

  /** A save or delete request is in flight: the error is cleared and the buttons are disabled. */
  function Started(p: Panel): Panel {
    p.(isSubmitting := true, error := None)
  }

  /** The panel after a request has settled, and whether `onExperienceChange` ran to completion. */
  datatype Outcome = Outcome(panel: Panel, notified: bool)

  /**
   * The `try`/`catch`/`finally` of `handleSubmit` once the request settles. On
   * success the modal is closed and then `onExperienceChange()` is called; when
   * the caller gave no such callback the call throws, and the `catch` reports a
   * failed save although the modal is already closed.
   */
  function AfterSave(p: Panel, callbackGiven: bool, reply: Settled<ExperienceData>): (o: Outcome)
    ensures !o.panel.isSubmitting
    ensures o.panel.current == p.current && o.panel.isDeleteModalOpen == p.isDeleteModalOpen
  {
    match reply
    case Fulfilled(_) =>
      if callbackGiven then Outcome(p.(isModalOpen := false, isSubmitting := false), true)
      else Outcome(p.(isModalOpen := false, isSubmitting := false, error := Some(SAVE_FAILED)), false)
    case Rejected(_) =>
      Outcome(p.(isSubmitting := false, error := Some(SAVE_FAILED)), false)
  }

  /** The same for `handleDelete`, with the delete modal and the delete message. */
  function AfterDelete(p: Panel, callbackGiven: bool, reply: Settled<()>): (o: Outcome)
    ensures !o.panel.isSubmitting
    ensures o.panel.current == p.current && o.panel.isModalOpen == p.isModalOpen
  {
    match reply
    case Fulfilled(_) =>
      if callbackGiven then Outcome(p.(isDeleteModalOpen := false, isSubmitting := false), true)
      else Outcome(p.(isDeleteModalOpen := false, isSubmitting := false, error := Some(DELETE_FAILED)), false)
    case Rejected(_) =>
      Outcome(p.(isSubmitting := false, error := Some(DELETE_FAILED)), false)
  }

  /** The edit modal's heading. */
  function ModalTitle(current: Option<ExperienceData>): (title: string)
    ensures title == "Edit Experience" <==> current.Some?
    ensures title == "Add New Experience" <==> current.None?
  {
    if current.Some? then "Edit Experience" else "Add New Experience"
  }

  /** Create or update is decided by the id alone, and both send the form data. */
  lemma SaveTargetsEntry(current: Option<ExperienceData>, data: ExperienceData)
    ensures SaveCall(current, data).verb == Put <==> HasId(current)
    ensures SaveCall(current, data).verb == Post <==> !HasId(current)
    ensures HasId(current) ==> SaveCall(current, data).path == UpdatePath(Experiences, current.value.id.value)
    ensures !HasId(current) ==> SaveCall(current, data).path == CreatePath(Experiences)
  {
  }

  /** With a callback, a successful save closes the edit modal, leaves no error and notifies once. */
  lemma SaveSuccessCloses(p: Panel, entry: ExperienceData)
    ensures var o := AfterSave(Started(p), true, Fulfilled(entry));
      !o.panel.isModalOpen && o.panel.error.None? && o.notified
  {
  }

  /** A failed save keeps the edit modal as it was, reports the save message and notifies nobody. */
  lemma SaveFailureKeepsModal(p: Panel, e: HttpError)
    ensures var o := AfterSave(Started(p), true, Rejected(e));
      o.panel.isModalOpen == p.isModalOpen && o.panel.error == Some(SAVE_FAILED) && !o.notified
  {
  }

  /**
   * The administration page mounts this panel without `onExperienceChange`:
   * a save the server accepted is then reported as failed.
   */
  lemma SaveWithoutCallbackReportsFailure(p: Panel, entry: ExperienceData)
    ensures var o := AfterSave(Started(p), false, Fulfilled(entry));
      !o.panel.isModalOpen && o.panel.error == Some(SAVE_FAILED) && !o.notified
  {
  }

  /** The panel's outcome reports an error exactly when the request failed, once a callback is given. */
  lemma WithCallbackErrorIffRejected(p: Panel, save: Settled<ExperienceData>, delete: Settled<()>)
    ensures AfterSave(Started(p), true, save).panel.error.Some? <==> save.Rejected?
    ensures AfterSave(Started(p), true, save).notified <==> save.Fulfilled?
    ensures AfterDelete(Started(p), true, delete).panel.error.Some? <==> delete.Rejected?
    ensures AfterDelete(Started(p), true, delete).notified <==> delete.Fulfilled?
  {
  }

  /** `ExperienceSection`'s state, the token store its requests pass through, and the callback it was given. */
  class ExperienceSection {
    const store: Storage
    /** Whether the parent passed `onExperienceChange`. */
    const callbackGiven: bool
    var isModalOpen: bool
    var isDeleteModalOpen: bool
    var currentExperience: Option<ExperienceData>
    var isSubmitting: bool
    var error: Option<string>
    /** How many times `onExperienceChange` has completed. */
    var changes: nat

    function State(): Panel
      reads this
    {
      Panel(isModalOpen, isDeleteModalOpen, currentExperience, isSubmitting, error)
    }

    /** Both modals closed, nothing selected, nothing in flight, no error. */
    constructor (store: Storage, callbackGiven: bool)
      ensures this.store == store && this.callbackGiven == callbackGiven
      ensures State() == Panel(false, false, None, false, None) && changes == 0
    {
      this.store := store;
      this.callbackGiven := callbackGiven;
      isModalOpen, isDeleteModalOpen := false, false;
      currentExperience := None;
      isSubmitting := false;
      error := None;
      changes := 0;
    }

    /** `handleAddClick`: nothing selected, edit modal open. */
    method HandleAddClick()
      modifies this
      ensures State() == old(State()).(current := None, isModalOpen := true)
      ensures changes == old(changes)
    {
      currentExperience := None;
      isModalOpen := true;
    }

    /** `handleEditClick`: the entry selected, edit modal open. */
    method HandleEditClick(experience: ExperienceData)
      modifies this
      ensures State() == old(State()).(current := Some(experience), isModalOpen := true)
      ensures changes == old(changes)
    {
      currentExperience := Some(experience);
      isModalOpen := true;
    }

    /** `handleDeleteClick`: the entry selected, delete modal open. */
    method HandleDeleteClick(experience: ExperienceData)
      modifies this
      ensures State() == old(State()).(current := Some(experience), isDeleteModalOpen := true)
      ensures changes == old(changes)
    {
      currentExperience := Some(experience);
      isDeleteModalOpen := true;
    }

    /** The edit modal's close and cancel handlers. */
    method CloseModal()
      modifies this
      ensures State() == old(State()).(isModalOpen := false)
      ensures changes == old(changes)
    {
      isModalOpen := false;
    }

    /** The delete modal's close and cancel handlers. */
    method CloseDeleteModal()
      modifies this
      ensures State() == old(State()).(isDeleteModalOpen := false)
      ensures changes == old(changes)
    {
      isDeleteModalOpen := false;
    }

    /** `handleSubmit` up to the `await`: the request to send for the submitted form data. */
    method StartSubmit(data: ExperienceData) returns (call: Call)
      modifies this
      ensures State() == Started(old(State()))
      ensures call == SaveCall(currentExperience, data)
      ensures changes == old(changes)
    {
      isSubmitting := true;
      error := None;
      if currentExperience.Some? && currentExperience.value.id.Some? && currentExperience.value.id.value != "" {
        call := ExperienceUpdateCall(currentExperience.value.id.value, data);
      } else {
        call := ExperienceCreateCall(data);
      }
    }

    /** `handleSubmit` after the `await`: the reply passes the response interceptor, then the outcome applies. */
    method FinishSubmit(reply: Settled<ExperienceData>) returns (notified: bool)
      modifies this, store
      ensures Outcome(State(), notified) == AfterSave(old(State()), callbackGiven, reply)
      ensures changes == old(changes) + (if notified then 1 else 0)
      ensures store.items == StorageAfter(old(store.items), reply)
    {
      var result := InterceptResponse(store, reply);
      notified := false;
      match result {
        case Fulfilled(_) =>
          isModalOpen := false;
          if callbackGiven {
            changes := changes + 1;
            notified := true;
          } else {
            error := Some(SAVE_FAILED);
          }
        case Rejected(_) =>
          error := Some(SAVE_FAILED);
      }
      isSubmitting := false;
    }

    /**
     * `handleDelete` up to the `await`: without a selected id nothing happens;
     * otherwise the delete request for that id.
     */
    method StartDelete() returns (call: Option<Call>)
      modifies this
      ensures !HasId(old(currentExperience)) ==> call.None? && State() == old(State())
      ensures HasId(old(currentExperience)) ==>
        call == Some(DeleteCall(Experiences, old(currentExperience).value.id.value)) && State() == Started(old(State()))
      ensures changes == old(changes)
    {
      if !(currentExperience.Some? && currentExperience.value.id.Some? && currentExperience.value.id.value != "") {
        return None;
      }
      isSubmitting := true;
      error := None;
      call := Some(DeleteCall(Experiences, currentExperience.value.id.value));
    }

    /** `handleDelete` after the `await`. */
    method FinishDelete(reply: Settled<()>) returns (notified: bool)
      modifies this, store
      ensures Outcome(State(), notified) == AfterDelete(old(State()), callbackGiven, reply)
      ensures changes == old(changes) + (if notified then 1 else 0)
      ensures store.items == StorageAfter(old(store.items), reply)
    {
      var result := InterceptResponse(store, reply);
      notified := false;
      match result {
        case Fulfilled(_) =>
          isDeleteModalOpen := false;
          if callbackGiven {
            changes := changes + 1;
            notified := true;
          } else {
            error := Some(DELETE_FAILED);
          }
        case Rejected(_) =>
          error := Some(DELETE_FAILED);
      }
      isSubmitting := false;
    }
  }
}
