/** The edit-in-place profile pages of both portals. The patient profile
    and the hospital profile share the same state and handlers and differ
    only in their messages, so one class models both. */
module ProfileEditing {
  import opened Common
  import opened Entities

  /** What a profile page shows, in order of precedence. */
  datatype View = ErrorText(message: string) | Loading | Details(shown: map<string, string>, editing: bool)

  /** An error wins; then a profile not yet loaded shows the loading text. */
  function ViewOf(error: string, profile: Option<map<string, string>>, formData: map<string, string>,
                  isEditing: bool): (v: View)
    ensures error != "" <==> v == ErrorText(error)
    ensures v == Loading <==> error == "" && profile.None?
    ensures v.Details? <==> error == "" && profile.Some?
    ensures v.Details? ==> v.editing == isEditing && v.shown == (if isEditing then formData else profile.value)
  {
    if error != "" then ErrorText(error)
    else if profile.None? then Loading
    else Details(if isEditing then formData else profile.value, isEditing)
  }

  /** One profile page. `profile` is the `patient`/`hospital` state
      (`None` for `null`), and `sent` lists the update requests made. */
  class ProfileEditor {
    const notFoundMessage: string
    const fetchFailedMessage: string
    const updateFailedMessage: string
    var profile: Option<map<string, string>>
    var error: string
    var isEditing: bool
    var formData: map<string, string>
    var sent: seq<map<string, string>>

    constructor(notFoundMessage: string, fetchFailedMessage: string, updateFailedMessage: string)
      ensures this.notFoundMessage == notFoundMessage && this.fetchFailedMessage == fetchFailedMessage
      ensures this.updateFailedMessage == updateFailedMessage
      ensures profile == None && error == "" && !isEditing && formData == map[] && sent == []
    {
      this.notFoundMessage := notFoundMessage;
      this.fetchFailedMessage := fetchFailedMessage;
      this.updateFailedMessage := updateFailedMessage;
      profile := None;
      error := "";
      isEditing := false;
      formData := map[];
      sent := [];
    }

    /** The fetch effect: the first profile owned by `userId` becomes both
        the shown profile and the form; otherwise an error is set and
        nothing else changes. */
    method Fetch(userId: Option<int>, resp: Response<seq<Profile>>)
      modifies this
      ensures resp.Ok? && ProfileOfUser(resp.body, userId).Some? ==>
        var p := ProfileOfUser(resp.body, userId).value.fields;
        profile == Some(p) && formData == p && error == old(error)
      ensures resp.Ok? && ProfileOfUser(resp.body, userId).None? ==>
        error == notFoundMessage && profile == old(profile) && formData == old(formData)
      ensures resp.Failed? ==>
        error == fetchFailedMessage && profile == old(profile) && formData == old(formData)
      ensures isEditing == old(isEditing) && sent == old(sent)
    {
      match resp {
        case Ok(ps) =>
          match ProfileOfUser(ps, userId) {
            case Some(p) =>
              profile := Some(p.fields);
              formData := p.fields;
            case None =>
              error := notFoundMessage;
          }
        case Failed(_) =>
          error := fetchFailedMessage;
      }
    }

    /** `handleEditToggle`. */
    method HandleEditToggle()
      modifies this
      ensures isEditing == !old(isEditing)
      ensures profile == old(profile) && formData == old(formData) && error == old(error) && sent == old(sent)
    {
      isEditing := !isEditing;
    }

    /** `handleChange`: one key of the form is overwritten; the shown
        profile is untouched. */
    method HandleChange(name: string, value: string)
      modifies this
      ensures formData == old(formData)[name := value]
      ensures profile == old(profile) && isEditing == old(isEditing) && error == old(error) && sent == old(sent)
    {
      formData := formData[name := value];
    }

    /** `handleUpdate`: the form is sent; on success it becomes the shown
        profile and editing ends, on failure the error is set, the shown
        profile is kept and editing goes on. */
    method HandleUpdate(resp: Response<()>)
      modifies this
      ensures sent == old(sent) + [old(formData)] && formData == old(formData)
      ensures resp.Ok? ==> profile == Some(formData) && !isEditing && error == old(error)
      ensures resp.Failed? ==> error == updateFailedMessage && profile == old(profile) && isEditing == old(isEditing)
    {
      sent := sent + [formData];
      match resp {
        case Ok(_) =>
          profile := Some(formData);
          isEditing := false;
        case Failed(_) =>
          error := updateFailedMessage;
      }
    }

    /** The Cancel button: editing ends and the edits stay in the form. */
    method Cancel()
      modifies this
      ensures !isEditing
      ensures formData == old(formData) && profile == old(profile) && error == old(error) && sent == old(sent)
    {
      isEditing := false;
    }
  }

  /** Cancelling after an edit and entering edit mode again shows the
      cancelled edit, not the saved profile. */
  method CancelKeepsEdits(e: ProfileEditor, name: string, value: string)
    requires e.error == "" && e.profile.Some? && e.isEditing
    modifies e
    ensures ViewOf(e.error, e.profile, e.formData, e.isEditing) == Details(old(e.formData)[name := value], true)
    ensures e.profile == old(e.profile)
  {
    e.HandleChange(name, value);
    e.Cancel();
    e.HandleEditToggle();
  }
}

/** The patient portal's profile page. */
module PatientProfile {
  import opened ProfileEditing

  const NotFound := "Patient not found for this user."
  const FetchFailed := "Error fetching patient details. Please try again later."
  const UpdateFailed := "Error updating patient details. Please try again later."

  /** The page as first rendered. */
  method NewPatientProfile() returns (e: ProfileEditor)
    ensures fresh(e)
    ensures e.notFoundMessage == NotFound && e.fetchFailedMessage == FetchFailed
    ensures e.updateFailedMessage == UpdateFailed
    ensures e.profile.None? && e.error == "" && !e.isEditing && e.formData == map[] && e.sent == []
  {
    e := new ProfileEditor(NotFound, FetchFailed, UpdateFailed);
  }
}

/** The hospital portal's profile page. */
module HospitalProfile {
  import opened ProfileEditing

  const NotFound := "Hospital not found for this user."
  const FetchFailed := "Error fetching hospital details. Please try again later."
  const UpdateFailed := "Error updating hospital details. Please try again later."

  /** The page as first rendered. */
  method NewHospitalProfile() returns (e: ProfileEditor)
    ensures fresh(e)
    ensures e.notFoundMessage == NotFound && e.fetchFailedMessage == FetchFailed
    ensures e.updateFailedMessage == UpdateFailed
    ensures e.profile.None? && e.error == "" && !e.isEditing && e.formData == map[] && e.sent == []
  {
    e := new ProfileEditor(NotFound, FetchFailed, UpdateFailed);
  }
}
