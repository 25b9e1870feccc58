/** The lock screen: a signed-in user unlocks the universe by typing the access code
    stored in their users row. */
module LockScreen {
  import opened Wrappers
  import opened Text
  import opened Auth

  const EnterCode: string := "Please enter your access code"
  const VerifyFailed: string := "Failed to verify access code"
  const IncorrectCode: string := "Incorrect access code"
  const Unexpected: string := "An unexpected error occurred"
  const WelcomeBack: string := "Welcome back to your universe!"

  /** The answer of the query for the user's `access_code`: the code, an error
      answer, or a thrown error. */
  datatype CodeLookup = Code(accessCode: string) | LookupError | Threw

  /** The comparison that unlocks: a non-blank input whose normalised form is the
      stored code. */
  predicate Unlocks(stored: string, typed: string) {
    !AllWhitespace(typed) && stored == NormalizeCode(typed)
  }

  /** Only a normalised, non-empty stored code can ever unlock; and a code stored
      normalised unlocks when typed again with leading blanks or in any
      capitalisation. */
  lemma UnlockSpec(stored: string, typed: string, code: string, blank: string)
    requires AllWhitespace(blank)
    ensures Unlocks(stored, typed) ==>
      stored != [] && IsTrimmed(stored) && forall i :: 0 <= i < |stored| ==> !('A' <= stored[i] <= 'Z')
    ensures !AllWhitespace(code) ==>
      Unlocks(NormalizeCode(code), blank + code) && Unlocks(NormalizeCode(code), ToLower(code))
  {
    NormalizeCodeSpec(typed, blank);
    NormalizeCodeSpec(code, blank);
    if Unlocks(stored, typed) {
      TrimBlank(typed);
    }
    if !AllWhitespace(code) {
      var i :| 0 <= i < |code| && !IsWhitespace(code[i]);
      assert (blank + code)[|blank| + i] == code[i];
      LowerCharWhitespace(code[i]);
      assert ToLower(code)[i] == LowerChar(code[i]);
    }
  }

  class LockScreenView {
    var accessCode: string
    var isLoading: bool
    var isAnimating: bool

    constructor()
      ensures accessCode == [] && !isLoading && !isAnimating
    {
      accessCode := [];
      isLoading := false;
      isAnimating := false;
    }

    /** `handleSubmit`: a blank input is refused with no query. Otherwise the user's
        stored code is queried (`query` is the user id) and compared; a match starts
        the unlock animation and schedules `onUnlock` (`unlocked`), while a mismatch or
        a failed query shows an error and ends loading. */
    method HandleSubmit(userId: string, lookup: CodeLookup) returns (query: Option<string>, toast: Toast, unlocked: bool)
      modifies this
      ensures unlocked <==> lookup.Code? && Unlocks(lookup.accessCode, accessCode)
      ensures AllWhitespace(accessCode) ==>
        query.None? && toast == ErrorToast(EnterCode) && isLoading == old(isLoading)
      ensures !AllWhitespace(accessCode) ==> query == Some(userId)
      ensures unlocked ==> isLoading && isAnimating && toast == SuccessToast(WelcomeBack)
      ensures !AllWhitespace(accessCode) && !unlocked ==> !isLoading && toast == ErrorToast(
        match lookup case Code(_) => IncorrectCode case LookupError => VerifyFailed case Threw => Unexpected)
      ensures !unlocked ==> isAnimating == old(isAnimating)
      ensures accessCode == old(accessCode)
    {
      TrimBlank(accessCode);
      if Trim(accessCode) == [] {
        return None, ErrorToast(EnterCode), false;
      }
      isLoading := true;
      query := Some(userId);
      match lookup
      case Threw =>
        toast, unlocked := ErrorToast(Unexpected), false;
        isLoading := false;
      case LookupError =>
        toast, unlocked := ErrorToast(VerifyFailed), false;
        isLoading := false;
      case Code(stored) =>
        if stored == NormalizeCode(accessCode) {
          isAnimating := true;
          toast, unlocked := SuccessToast(WelcomeBack), true;
        } else {
          toast, unlocked := ErrorToast(IncorrectCode), false;
          isLoading := false;
        }
    }
  }
}
