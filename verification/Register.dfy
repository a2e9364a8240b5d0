/**
 * The logic of the registration page (src/pages/RegisterPage.tsx): the
 * password rule and the two-step submit handler. Step 1 picks the profile
 * type; step 2 checks the account fields in a fixed order, stops at the
 * first failure with an error notice, and only then calls the session
 * store's `register`.
 */
module Register {
  import opened Wrappers
  import opened Types
  import opened Auth
  import opened Text

  /** Some character of `s` lies in `lo..hi` (the regular expression `/[lo-hi]/`). */
  function HasCharIn(s: string, lo: char, hi: char): (b: bool)
    ensures b <==> exists i :: 0 <= i < |s| && lo <= s[i] <= hi
    decreases |s|
  {
    if s == [] then false
    else if lo <= s[0] <= hi then true
    else
      var rest := HasCharIn(s[1..], lo, hi);
      assert forall i :: 1 <= i < |s| ==> s[i] == s[1..][i - 1];
      rest
  }

  /**
   * At least eight UTF-16 code units (`length`), an upper-case letter A-Z
   * and a digit 0-9.
   */
  function ValidatePassword(password: string): (ok: bool)
    ensures ok <==>
      Utf16Length(password) >= 8
      && (exists i :: 0 <= i < |password| && 'A' <= password[i] <= 'Z')
      && (exists i :: 0 <= i < |password| && '0' <= password[i] <= '9')
  {
    var hasMinLength := Utf16Length(password) >= 8;
    var hasUppercase := HasCharIn(password, 'A', 'Z');
    var hasNumber := HasCharIn(password, '0', '9');
    hasMinLength && hasUppercase && hasNumber
  }

  /** What a submit ends in. */
  datatype Outcome =
    | NextStep                                   // step 1 done, the account form is shown
    | Rejected(title: string, description: string)  // an error notice; nothing else happens
    | Registered                                 // `register` was called and the user sent to onboarding

  const MissingFields := Rejected("Erreur", "Veuillez remplir tous les champs obligatoires.")
  const WeakPassword := Rejected("Mot de passe invalide",
    "Le mot de passe doit contenir au moins 8 caractères, 1 majuscule et 1 chiffre.")
  const Mismatch := Rejected("Erreur", "Les mots de passe ne correspondent pas.")

  /**
   * The step-2 checks in their order. The sector is one of the sector
   * names, so its emptiness check can never fail and is not repeated here.
   */
  function AccountCheck(data: RegisterData, confirmPassword: string): Outcome {
    if data.email == "" || data.password == "" || data.name == "" then MissingFields
    else if !ValidatePassword(data.password) then WeakPassword
    else if data.password != confirmPassword then Mismatch
    else Registered
  }

  /** `register` is reached exactly when every step-2 check passes. */
  lemma AccountCheckRegistersIff(data: RegisterData, confirmPassword: string)
    ensures AccountCheck(data, confirmPassword) == Registered <==>
      data.email != "" && data.password != "" && data.name != ""
      && ValidatePassword(data.password) && data.password == confirmPassword
  {
  }

  /** A missing field is reported first, whatever the password. */
  lemma MissingFieldFirst(data: RegisterData, confirmPassword: string)
    requires data.email == "" || data.password == "" || data.name == ""
    ensures AccountCheck(data, confirmPassword) == MissingFields
  {
  }

  /** A weak password is reported before a confirmation that does not match. */
  lemma WeakPasswordBeforeMismatch(data: RegisterData, confirmPassword: string)
    requires data.email != "" && data.name != ""
    requires !ValidatePassword(data.password)
    ensures AccountCheck(data, confirmPassword) == if data.password == "" then MissingFields else WeakPassword
  {
  }

  /** "Secret123" passes the rule. */
  lemma StrongPasswordExample()
    ensures ValidatePassword("Secret123")
  {
    assert "Secret123"[0] == 'S' && "Secret123"[6] == '1';
  }

  /** "secret123" lacks a capital letter. */
  lemma NoCapitalExample()
    ensures !ValidatePassword("secret123")
  {
  }

  /**
   * An astral character counts twice: "Ab1" and three emoji is six
   * characters but nine code units long, so it passes the rule.
   */
  lemma AstralPasswordExample()
    ensures |"Ab1\U{1F600}\U{1F600}\U{1F600}"| == 6
    ensures ValidatePassword("Ab1\U{1F600}\U{1F600}\U{1F600}")
  {
    var p := "Ab1\U{1F600}\U{1F600}\U{1F600}";
    assert p[0] == 'A' && p[2] == '1';
    assert Utf16Length(p) == 9;
  }

  /** "Secret1" is too short. */
  lemma TooShortExample()
    ensures !ValidatePassword("Secret1")
  {
  }

  /** The registration form. */
  class RegisterPage {
    var step: int
    var formData: RegisterData
    var confirmPassword: string

    /** A blank form on step 1, with "startup" and "fintech" preselected. */
    constructor ()
      ensures step == 1 && confirmPassword == ""
      ensures formData == RegisterData("", "", Startup, "", Fintech)
    {
      step := 1;
      formData := RegisterData("", "", Startup, "", Fintech);
      confirmPassword := "";
    }

    /**
     * The submit handler. On step 1 it moves to step 2 (a profile type is
     * always selected, so that check cannot fail). On any other step it
     * runs the account checks in order and calls `register` only when all
     * of them pass.
     */
    method HandleSubmit(auth: AuthStore, now: nat, profileIso: string, userIso: string) returns (outcome: Outcome)
      modifies this`step, auth
      ensures old(step) == 1 ==>
        outcome == NextStep && step == 2
        && auth.user == old(auth.user) && auth.isAuthenticated == old(auth.isAuthenticated)
        && auth.isLoading == old(auth.isLoading)
      ensures old(step) != 1 ==> step == old(step) && outcome == AccountCheck(formData, confirmPassword)
      ensures old(step) != 1 && outcome == Registered ==>
        auth.user == Some(CreateDemoUser(formData, now, profileIso, userIso)) && auth.isAuthenticated && !auth.isLoading
      ensures outcome != Registered ==>
        auth.user == old(auth.user) && auth.isAuthenticated == old(auth.isAuthenticated)
        && auth.isLoading == old(auth.isLoading)
    {
      if step == 1 {
        step := 2;
        return NextStep;
      }

      if formData.email == "" || formData.password == "" || formData.name == "" {
        return MissingFields;
      }

      if !ValidatePassword(formData.password) {
        return WeakPassword;
      }

      if formData.password != confirmPassword {
        return Mismatch;
      }

      // `register` always reports success, so the user is always sent on to onboarding.
      var success := auth.Register(formData, now, profileIso, userIso);
      return Registered;
    }
  }
}
