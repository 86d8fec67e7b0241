/** The name-only sign-in (`AuthProvider`, `AuthModal`): a user is a display
    name, and there is no password or account behind it. */
module Auth {
  import opened Wrappers
  import opened Text

  datatype User = User(name: string)

  /** The decision `handleStandardSubmit` takes for the typed `name`: nobody
      signs in for a blank name, otherwise the trimmed name does. */
  function StandardSignIn(name: string): (r: Option<User>)
    ensures r.Some? <==> !AllWhitespace(name)
    ensures r.Some? ==> r.value.name == Trim(name)
    ensures r.Some? ==> |r.value.name| > 0 && !IsWhitespace(r.value.name[0])
                        && !IsWhitespace(r.value.name[|r.value.name| - 1])
  {
    TrimEmptyIffBlank(name);
    var t := Trim(name);
    if t != "" then Some(User(t)) else None
  }

  /** Signing in again with the name a sign-in stored yields the same user. */
  lemma {:induction false} SignInIsStable(name: string)
    requires StandardSignIn(name).Some?
    ensures StandardSignIn(StandardSignIn(name).value.name) == StandardSignIn(name)
  {
    TrimIdempotent(name);
    TrimEmptyIffBlank(Trim(name));
  }

  /** The user a social sign-in produces once its delay has passed. */
  function SocialUser(provider: string): (u: User)
    ensures provider <= u.name && u.name[|provider|..] == " User"
    ensures !AllWhitespace(u.name)
  {
    assert (provider + " User")[|provider| + 1] == 'U';
    User(provider + " User")
  }
}
