/**
 * The profile screen's state holder (`ProfileViewModel`): one `ProfileUiState` record that
 * every operation replaces with an updated copy. The coroutines it launches are split at
 * their suspension point: `Begin*` is what runs before the repository call, `End*` what
 * runs after it, given how the call ended.
 */
module ProfileUi {
  import opened Wrappers
  import opened IsoDate
  import opened ProfileDao
  import opened UsersCollection

  datatype ProfileUiState = ProfileUiState(
    firstName: string,
    lastName: string,
    email: string,
    phone: string,
    dateOfBirth: Option<LocalDate>,
    isLoading: bool,
    error: Option<string>,
    saved: bool)

  /** `ProfileUiState()` with every default. */
  const InitialState := ProfileUiState("", "", "", "", None, false, None, false)

  /** The five values `saveProfile` hands to the repository. */
  datatype SaveRequest = SaveRequest(
    firstName: string,
    lastName: string,
    email: string,
    phone: string,
    dateOfBirth: Option<LocalDate>)

  class ProfileViewModel {
    var state: ProfileUiState

    /** A new view model starts from the default state; `init`'s two launches are the calls below. */
    constructor ()
      ensures state == InitialState
    {
      state := InitialState;
    }

    /** One emission of the local profile flow (`collectLatest`): a row overwrites the form, null is ignored. */
    method OnLocalProfile(profile: Option<Profile>)
      modifies this
      ensures profile.None? ==> state == old(state)
      ensures profile.Some? ==>
                var p := profile.value;
                state == old(state).(firstName := p.firstName, lastName := p.lastName, email := p.email,
                                     phone := p.phone, dateOfBirth := p.dateOfBirth, isLoading := false)
    {
      if profile.Some? {
        var p := profile.value;
        state := state.(firstName := p.firstName, lastName := p.lastName, email := p.email,
                        phone := p.phone, dateOfBirth := p.dateOfBirth, isLoading := false);
      }
    }

    /** `refreshFromRemote()` before the repository call: loading starts. */
    method BeginRefresh()
      modifies this
      ensures state == old(state).(isLoading := true)
    {
      state := state.(isLoading := true);
    }

    /** `refreshFromRemote()` after the repository call: loading ends; an exception's message becomes the error. */
    method EndRefresh(outcome: Outcome)
      modifies this
      ensures outcome.Completed? ==> state == old(state).(isLoading := false)
      ensures outcome.Threw? ==> state == old(state).(isLoading := false, error := Message(outcome.error))
    {
      match outcome
      case Completed =>
        state := state.(isLoading := false);
      case Threw(e) =>
        state := state.(isLoading := false, error := Message(e));
    }

    method OnFirstNameChange(value: string)
      modifies this
      ensures state == old(state).(firstName := value, saved := false)
    {
      state := state.(firstName := value, saved := false);
    }

    method OnLastNameChange(value: string)
      modifies this
      ensures state == old(state).(lastName := value, saved := false)
    {
      state := state.(lastName := value, saved := false);
    }

    method OnEmailChange(value: string)
      modifies this
      ensures state == old(state).(email := value, saved := false)
    {
      state := state.(email := value, saved := false);
    }

    method OnPhoneChange(value: string)
      modifies this
      ensures state == old(state).(phone := value, saved := false)
    {
      state := state.(phone := value, saved := false);
    }

    method OnDateOfBirthChange(date: Option<LocalDate>)
      modifies this
      ensures state == old(state).(dateOfBirth := date, saved := false)
    {
      state := state.(dateOfBirth := date, saved := false);
    }

    /**
     * `saveProfile()` before the repository call: the request carries the five fields as
     * they are now, and the state shows loading with no error and nothing saved.
     */
    method BeginSave() returns (request: SaveRequest)
      modifies this
      ensures request == SaveRequest(old(state).firstName, old(state).lastName, old(state).email,
                                     old(state).phone, old(state).dateOfBirth)
      ensures state == old(state).(isLoading := true, error := None, saved := false)
    {
      var snapshot := state;
      request := SaveRequest(snapshot.firstName, snapshot.lastName, snapshot.email,
                             snapshot.phone, snapshot.dateOfBirth);
      state := snapshot.(isLoading := true, error := None, saved := false);
    }

    /** `saveProfile()` after the repository call: saved on success; otherwise the exception's message. */
    method EndSave(outcome: Outcome)
      modifies this
      ensures outcome.Completed? ==> state == old(state).(isLoading := false, saved := true)
      ensures outcome.Threw? ==>
                state == old(state).(isLoading := false, error := Message(outcome.error), saved := false)
    {
      match outcome
      case Completed =>
        state := state.(isLoading := false, saved := true);
      case Threw(e) =>
        state := state.(isLoading := false, error := Message(e), saved := false);
    }
  }

  /**
   * An edit followed by a save, with nothing in between: the request carries the edited value,
   * loading is over at the end, and the screen shows saved exactly when the repository completed,
   * or else the repository's error message.
   */
  method EditThenSave(start: ProfileUiState, firstName: string, outcome: Outcome)
    returns (request: SaveRequest, final: ProfileUiState)
    ensures request.firstName == firstName && request.lastName == start.lastName
    ensures request.dateOfBirth == start.dateOfBirth
    ensures !final.isLoading
    ensures final.saved <==> outcome.Completed?
    ensures final.error == if outcome.Completed? then None else Message(outcome.error)
    ensures final.firstName == firstName && final.email == start.email
  {
    var vm := new ProfileViewModel();
    vm.state := start;
    vm.OnFirstNameChange(firstName);
    request := vm.BeginSave();
    vm.EndSave(outcome);
    final := vm.state;
  }
}
