/** The Profile view: fetches one user's profile, and lets the user edit a
    three-field form that is copied back into the profile on save (locally:
    nothing is sent to the server). */
module Profile {
  import opened Outcomes

  datatype UserProfile = UserProfile(id: int, email: string, firstName: string, lastName: string, avatar: string)

  /** The form: the three editable fields of a profile. */
  datatype FormData = FormData(firstName: string, lastName: string, email: string)

  /** The keys `handleInputChange` is called with. */
  datatype Field = FirstName | LastName | Email

  /** The message stored when the response is not ok or carries no profile. */
  const FetchFailed: string := "Failed to fetch profile"

  const EmptyForm: FormData := FormData("", "", "")

  function FieldValue(form: FormData, field: Field): string
  {
    match field
    case FirstName => form.firstName
    case LastName => form.lastName
    case Email => form.email
  }

  /** The form filled from a profile. */
  function FormOf(p: UserProfile): (form: FormData)
    ensures FieldValue(form, FirstName) == p.firstName
    ensures FieldValue(form, LastName) == p.lastName
    ensures FieldValue(form, Email) == p.email
  {
    FormData(p.firstName, p.lastName, p.email)
  }

  /** `{ ...form, [field]: value }`: the named field holds the new value and
      the other two are as they were. */
  function WithField(form: FormData, field: Field, value: string): (r: FormData)
    ensures FieldValue(r, field) == value
    ensures forall other :: other != field ==> FieldValue(r, other) == FieldValue(form, other)
  {
    match field
    case FirstName => form.(firstName := value)
    case LastName => form.(lastName := value)
    case Email => form.(email := value)
  }

  /** `{ ...profile, first_name, last_name, email }` from the form: the id and
      the avatar are kept, and the form read back from the result is the form. */
  function SaveForm(p: UserProfile, form: FormData): (q: UserProfile)
    ensures q.id == p.id && q.avatar == p.avatar
    ensures FormOf(q) == form
  {
    p.(firstName := form.firstName, lastName := form.lastName, email := form.email)
  }

  /** Saving the form read from a profile gives the profile back. */
  lemma SaveOwnFormIsIdentity(p: UserProfile)
    ensures SaveForm(p, FormOf(p)) == p
  {
  }

  /** The view's state cells. */
  datatype ProfileState = ProfileState(
    profile: Option<UserProfile>,
    loading: bool,
    error: string,
    editing: bool,
    formData: FormData)

  /** The state before the first render. */
  const Initial: ProfileState := ProfileState(None, true, "", false, EmptyForm)

  /** The start of `fetchProfile`: loading on, error cleared, nothing else changes. */
  function AfterFetchStart(s: ProfileState): (t: ProfileState)
    ensures t.loading && t.error == ""
    ensures t.(loading := s.loading, error := s.error) == s
  {
    s.(loading := true, error := "")
  }

  /** The end of `fetchProfile`. The payload is the envelope's `data` member,
      which may be missing. An ok response with a profile stores it and fills
      the form from it; anything else records a message and leaves the profile
      and the form alone; loading is off in every case. */
  function AfterFetchEnd(s: ProfileState, outcome: FetchOutcome<Option<UserProfile>>): (t: ProfileState)
    ensures !t.loading && t.editing == s.editing
    ensures outcome.Ok? && outcome.payload.Some? ==>
              t.profile == outcome.payload && t.formData == FormOf(outcome.payload.value)
              && t.error == s.error
    ensures outcome == Ok(None) || outcome.NotOk? ==> t.error == FetchFailed
    ensures outcome.Thrown? ==> t.error == NetworkError
    ensures !(outcome.Ok? && outcome.payload.Some?) ==> t.profile == s.profile && t.formData == s.formData
  {
    match outcome
    case Ok(Some(p)) => s.(profile := Some(p), formData := FormOf(p), loading := false)
    case Ok(None) => s.(error := FetchFailed, loading := false)
    case NotOk => s.(error := FetchFailed, loading := false)
    case Thrown => s.(error := NetworkError, loading := false)
  }

  /** A whole `fetchProfile`. */
  function AfterFetch(s: ProfileState, outcome: FetchOutcome<Option<UserProfile>>): (t: ProfileState)
    ensures !t.loading && t.editing == s.editing
    ensures (outcome.Ok? && outcome.payload.Some?) <==> t.error == ""
    ensures outcome.Ok? && outcome.payload.Some? ==>
              t.profile == outcome.payload && t.formData == FormOf(outcome.payload.value)
  {
    AfterFetchEnd(AfterFetchStart(s), outcome)
  }

  /** `handleEdit` turns editing on and changes nothing else. */
  function AfterEdit(s: ProfileState): (t: ProfileState)
    ensures t.editing && t.(editing := s.editing) == s
  {
    s.(editing := true)
  }

  /** `handleCancel` turns editing off and, when there is a profile, puts its
      three fields back into the form; the profile is never touched. */
  function AfterCancel(s: ProfileState): (t: ProfileState)
    ensures !t.editing && t.profile == s.profile
    ensures s.profile.Some? ==> t.formData == FormOf(s.profile.value)
    ensures s.profile.None? ==> t.formData == s.formData
    ensures t.(editing := s.editing, formData := s.formData) == s
  {
    match s.profile
    case Some(p) => s.(editing := false, formData := FormOf(p))
    case None => s.(editing := false)
  }

  /** `handleSave` copies the form into the profile, if there is one, and
      turns editing off; the form is left as it is. */
  function AfterSave(s: ProfileState): (t: ProfileState)
    ensures !t.editing && t.formData == s.formData
    ensures s.profile.Some? ==> t.profile.Some? && t.profile.value.id == s.profile.value.id
                                && t.profile.value.avatar == s.profile.value.avatar
                                && FormOf(t.profile.value) == s.formData
    ensures s.profile.None? ==> t.profile.None?
    ensures t.(editing := s.editing, profile := s.profile) == s
  {
    match s.profile
    case Some(p) => s.(profile := Some(SaveForm(p, s.formData)), editing := false)
    case None => s.(editing := false)
  }

  /** `handleInputChange(field)` with the new value of that input: only that
      field of the form changes. */
  function AfterInputChange(s: ProfileState, field: Field, value: string): (t: ProfileState)
    ensures t.profile == s.profile
    ensures FieldValue(t.formData, field) == value
    ensures forall other :: other != field ==> FieldValue(t.formData, other) == FieldValue(s.formData, other)
    ensures t.(formData := s.formData) == s
  {
    s.(formData := WithField(s.formData, field, value))
  }

  /** One keystroke's worth of input: which field, and its new text. */
  datatype Input = Input(field: Field, value: string)

  /** A run of input changes, applied in order. */
  function AfterInputs(s: ProfileState, inputs: seq<Input>): (t: ProfileState)
    ensures t.(formData := s.formData) == s
    decreases |inputs|
  {
    if inputs == [] then s
    else AfterInputs(AfterInputChange(s, inputs[0].field, inputs[0].value), inputs[1..])
  }

  /** The last input given for a field wins; a field never typed into keeps
      its value. */
  lemma {:induction false} AfterInputsLastWins(s: ProfileState, inputs: seq<Input>, field: Field)
    ensures (forall k :: 0 <= k < |inputs| ==> inputs[k].field != field) ==>
              FieldValue(AfterInputs(s, inputs).formData, field) == FieldValue(s.formData, field)
    ensures forall k :: 0 <= k < |inputs| && inputs[k].field == field
                        && (forall m :: k < m < |inputs| ==> inputs[m].field != field) ==>
              FieldValue(AfterInputs(s, inputs).formData, field) == inputs[k].value
    decreases |inputs|
  {
    if inputs != [] {
      var s' := AfterInputChange(s, inputs[0].field, inputs[0].value);
      AfterInputsLastWins(s', inputs[1..], field);
      forall k | 0 <= k < |inputs| && inputs[k].field == field
                 && (forall m :: k < m < |inputs| ==> inputs[m].field != field)
        ensures FieldValue(AfterInputs(s, inputs).formData, field) == inputs[k].value
      {
        if k > 0 {
          assert inputs[1..][k - 1] == inputs[k];
          assert forall m :: k - 1 < m < |inputs| - 1 ==> inputs[1..][m].field != field by {
            forall m | k - 1 < m < |inputs| - 1 ensures inputs[1..][m].field != field {
              assert inputs[1..][m] == inputs[m + 1];
            }
          }
        } else {
          assert forall m :: 0 <= m < |inputs[1..]| ==> inputs[1..][m].field != field by {
            forall m | 0 <= m < |inputs[1..]| ensures inputs[1..][m].field != field {
              assert inputs[1..][m] == inputs[m + 1];
            }
          }
        }
      }
      if forall k :: 0 <= k < |inputs| ==> inputs[k].field != field {
        assert forall m :: 0 <= m < |inputs[1..]| ==> inputs[1..][m].field != field by {
          forall m | 0 <= m < |inputs[1..]| ensures inputs[1..][m].field != field {
            assert inputs[1..][m] == inputs[m + 1];
          }
        }
      }
    }
  }

  /** Any run of input changes followed by Cancel leaves the profile as it
      was and, when there is one, the form equal to it again. */
  lemma InputsThenCancelRestores(s: ProfileState, inputs: seq<Input>)
    ensures AfterCancel(AfterInputs(s, inputs)).profile == s.profile
    ensures s.profile.Some? ==> AfterCancel(AfterInputs(s, inputs)).formData == FormOf(s.profile.value)
    ensures !AfterCancel(AfterInputs(s, inputs)).editing
  {
  }

  /** After Save, Cancel restores exactly the values just saved. */
  lemma SaveThenCancelKeepsSavedForm(s: ProfileState)
    requires s.profile.Some?
    ensures AfterCancel(AfterSave(s)).formData == s.formData
    ensures AfterCancel(AfterSave(s)).profile == AfterSave(s).profile
  {
  }

  /** Which buttons the card offers. */
  datatype Actions = EditButton | SaveAndCancelButtons

  /** What the view renders. */
  datatype ProfileView =
    | Spinner
    | ErrorAlert(message: string)
    | ProfileCard(profile: Option<UserProfile>, form: FormData, fieldsDisabled: bool,
                  actions: Actions, notPersistedNotice: bool)

  /** The spinner wins over the error, the error over the card; the form's
      fields are enabled, Save and Cancel offered and the "not persisted"
      notice shown exactly while editing. */
  function Render(s: ProfileState): (v: ProfileView)
    ensures v.Spinner? <==> s.loading
    ensures v.ErrorAlert? <==> !s.loading && s.error != ""
    ensures v.ErrorAlert? ==> v.message == s.error
    ensures v.ProfileCard? ==> v.profile == s.profile && v.form == s.formData
                               && (v.fieldsDisabled <==> !s.editing)
                               && (v.actions == SaveAndCancelButtons <==> s.editing)
                               && (v.notPersistedNotice <==> s.editing)
  {
    if s.loading then Spinner
    else if s.error != "" then ErrorAlert(s.error)
    else ProfileCard(s.profile, s.formData, !s.editing,
                     if s.editing then SaveAndCancelButtons else EditButton, s.editing)
  }

  /** The page component: its state cells are the fields. */
  class ProfilePage {
    var profile: Option<UserProfile>
    var loading: bool
    var error: string
    var editing: bool
    var formData: FormData

    function State(): ProfileState
      reads this
    {
      ProfileState(profile, loading, error, editing, formData)
    }

    constructor ()
      ensures State() == Initial
    {
      profile, loading, error := None, true, "";
      editing, formData := false, EmptyForm;
    }

    /** The try block's first two statements. */
    method FetchStart()
      modifies this
      ensures State() == AfterFetchStart(old(State()))
    {
      loading := true;
      error := "";
    }

    /** The rest of the try block, the catch and the finally, for one outcome. */
    method FetchEnd(outcome: FetchOutcome<Option<UserProfile>>)
      modifies this
      ensures State() == AfterFetchEnd(old(State()), outcome)
    {
      if outcome.Ok? && outcome.payload.Some? {
        var p := outcome.payload.value;
        profile := Some(p);
        formData := FormData(p.firstName, p.lastName, p.email);
      } else if outcome.Thrown? {
        error := NetworkError;
      } else {
        error := FetchFailed;
      }
      loading := false;
    }

    /** `fetchProfile`, run once when the view mounts. */
    method FetchProfile(outcome: FetchOutcome<Option<UserProfile>>)
      modifies this
      ensures State() == AfterFetch(old(State()), outcome)
    {
      FetchStart();
      FetchEnd(outcome);
    }

    method HandleEdit()
      modifies this
      ensures State() == AfterEdit(old(State()))
    {
      editing := true;
    }

    method HandleCancel()
      modifies this
      ensures State() == AfterCancel(old(State()))
    {
      editing := false;
      if profile.Some? {
        var p := profile.value;
        formData := FormData(p.firstName, p.lastName, p.email);
      }
    }

    method HandleSave()
      modifies this
      ensures State() == AfterSave(old(State()))
    {
      if profile.Some? {
        var p := profile.value;
        profile := Some(p.(firstName := formData.firstName, lastName := formData.lastName,
                           email := formData.email));
      }
      editing := false;
    }

    method HandleInputChange(field: Field, value: string)
      modifies this
      ensures State() == AfterInputChange(old(State()), field, value)
    {
      formData := WithField(formData, field, value);
    }
  }
}
