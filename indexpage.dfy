/** The application's only page: which screen it shows. `isUnlocked` is taken as a
    plain input; `user` is whether someone is signed in. */
module IndexPage {
  datatype Screen = Spinner | SignInScreen | LockedScreen | UniverseScreen

  /** The page's chain of early returns. */
  function ScreenFor(loading: bool, signedIn: bool, isUnlocked: bool): Screen {
    if loading then Spinner
    else if !signedIn then SignInScreen
    else if !isUnlocked then LockedScreen
    else UniverseScreen
  }

  /** Each screen is shown in exactly one situation, in priority order: the spinner
      while the session is restored whoever is signed in; then the sign-in screen
      without a user; then the lock screen for a user who has not unlocked; the
      universe only for an unlocked user. */
  lemma ScreenSpec(loading: bool, signedIn: bool, isUnlocked: bool)
    ensures ScreenFor(loading, signedIn, isUnlocked) == Spinner <==> loading
    ensures ScreenFor(loading, signedIn, isUnlocked) == SignInScreen <==> !loading && !signedIn
    ensures ScreenFor(loading, signedIn, isUnlocked) == LockedScreen <==> !loading && signedIn && !isUnlocked
    ensures ScreenFor(loading, signedIn, isUnlocked) == UniverseScreen <==> !loading && signedIn && isUnlocked
  {
  }
}
