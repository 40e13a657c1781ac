/** The mobile "set up your profile" step: the username guard on submission. */
module SetupProfile {
  import opened Wrappers
  import opened Text

  class ProfileForm {
    var username: string
    var avatarUrl: Option<string>

    constructor ()
      ensures username == "" && avatarUrl == None
    {
      username := "";
      avatarUrl := None;
    }

    /** The Continue button is disabled while the username is blank. */
    predicate SubmitDisabled()
      reads this
    {
      Trim(username) == []
    }

    /** The username input. */
    method SetUsername(value: string)
      modifies this
      ensures username == value && avatarUrl == old(avatarUrl)
    {
      username := value;
    }

    /** `handleSubmit`: continue with the untrimmed username and the current avatar, unless the username is blank. */
    method HandleSubmit() returns (continued: Option<(string, Option<string>)>)
      ensures continued.Some? <==> !IsBlank(username)
      ensures continued.Some? <==> !SubmitDisabled()
      ensures continued.Some? ==> continued.value == (username, avatarUrl)
    {
      TrimEmptyIffBlank(username);
      if Trim(username) != [] {
        continued := Some((username, avatarUrl));
      } else {
        continued := None;
      }
    }
  }
}
