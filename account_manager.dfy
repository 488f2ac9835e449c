/** The account manager: how the authentication state and the onboarding flag combine
    into the account's readiness. The authentication state belongs to the
    authentication service and is a parameter; the onboarding flag is the manager's
    own state, seeded from and written through to the persisted defaults. */
module Accounts {
  /** `AuthState`. */
  datatype AuthState = Anonymous | Authenticated | Unauthenticated

  /** `AccountState`. */
  datatype AccountState = NeedAuthenticationAndOnboarding | NeedOnboarding | NeedAuthentication | UserReady

  /** `isSignedIn`: fully authenticated; a guest is not signed in. */
  predicate IsSignedIn(auth: AuthState)
  {
    auth == Authenticated
  }

  /** `state`: a user who is not authenticated at all needs both steps; otherwise each
      of the two facts, signed in and onboarded, settles one of the two needs. */
  function AccountStateOf(auth: AuthState, onboardingFinished: bool): (s: AccountState)
    ensures s == UserReady <==> IsSignedIn(auth) && onboardingFinished
  {
    if auth == Unauthenticated then NeedAuthenticationAndOnboarding
    else match (onboardingFinished, IsSignedIn(auth))
      case (true, true) => UserReady
      case (true, false) => NeedAuthentication
      case (false, true) => NeedOnboarding
      case (false, false) => NeedAuthenticationAndOnboarding
  }

  /** The state asks for onboarding exactly when onboarding is unfinished, and for
      authentication exactly when the user is not signed in: a guest counts as not
      signed in, and an unauthenticated user's onboarding flag is ignored. */
  lemma AccountStateNeeds(auth: AuthState, onboardingFinished: bool)
    ensures var s := AccountStateOf(auth, onboardingFinished);
      && (s in {NeedAuthentication, NeedAuthenticationAndOnboarding} <==> !IsSignedIn(auth))
      && (auth != Unauthenticated ==> (s in {NeedOnboarding, NeedAuthenticationAndOnboarding} <==> !onboardingFinished))
      && (auth == Unauthenticated ==> s == NeedAuthenticationAndOnboarding)
  {
  }

  /** A guest who has finished onboarding is only asked to sign in. */
  lemma OnboardedGuestNeedsAuthentication()
    ensures AccountStateOf(Anonymous, true) == NeedAuthentication
    ensures AccountStateOf(Unauthenticated, true) == NeedAuthenticationAndOnboarding
  {
  }

  class AccountManager {
    /** `_isOnboardingFinished`. */
    var onboardingFinished: bool
    /** The persisted onboarding-completed default: present and true, or absent. */
    var persisted: bool

    /** `init()`: the flag starts as whatever the defaults hold. */
    constructor (persistedFlag: bool)
      ensures onboardingFinished == persistedFlag && persisted == persistedFlag
    {
      onboardingFinished := persistedFlag;
      persisted := persistedFlag;
    }

    /** `state` for the authentication state the service reports. */
    function State(auth: AuthState): (s: AccountState)
      reads this
      ensures s == AccountStateOf(auth, onboardingFinished)
    {
      AccountStateOf(auth, onboardingFinished)
    }

    /** `markOnboardingComplete`: onboarding is finished, and stays so across launches,
        so a signed-in user is ready. */
    method MarkOnboardingComplete()
      modifies this
      ensures onboardingFinished && persisted
      ensures State(Authenticated) == UserReady
    {
      onboardingFinished := true;
      persisted := true;
    }

    /** `resetOnboardingState`: onboarding is unfinished and the default removed, so no
        user is ready. */
    method ResetOnboardingState()
      modifies this
      ensures !onboardingFinished && !persisted
      ensures forall auth: AuthState :: State(auth) != UserReady
    {
      onboardingFinished := false;
      persisted := false;
    }
  }
}
