/**
 * The logic of the onboarding page (src/pages/OnboardingPage.tsx): a
 * four-step wizard over a profile form. The form starts from the signed-in
 * user's profile with JavaScript `||` fallbacks; finishing the last step
 * writes the form into the profile and then marks onboarding as done.
 */
module Onboarding {
  import opened Wrappers
  import opened Types
  import opened Lists
  import opened Auth

  datatype OnboardingForm = OnboardingForm(
    pitch: string,
    description: string,
    website: string,
    linkedIn: string,
    stage: StartupStage,
    teamSize: int,
    annualRevenue: string,
    fundingRaised: string,
    employeeCount: string,
    innovationBudget: string,
    lookingFor: seq<PartnershipType>,
    thematicsInterest: seq<string>)

  /** `value || fallback` for an optional text: an absent or empty text gives the fallback. */
  function TextOr(value: Option<string>, fallback: string): (r: string)
    ensures value.Some? && value.value != "" ==> r == value.value
    ensures value.None? || value.value == "" ==> r == fallback
  {
    if value.Some? && value.value != "" then value.value else fallback
  }

  /** The form's first contents, taken from the user's profile when there is one. */
  function InitialForm(user: Option<User>): OnboardingForm {
    if user.None? then
      OnboardingForm("", "", "", "", Seed, 5, "", "", "50-100", "", [], [])
    else
      var p := user.value.participant;
      OnboardingForm(
        TextOr(Some(p.pitch), ""),
        TextOr(Some(p.description), ""),
        TextOr(p.website, ""),
        TextOr(p.linkedIn, ""),
        p.stage.GetOr(Seed),
        // `teamSize || 5`: a team size of 0 is falsy and also gives 5
        if p.teamSize.Some? && p.teamSize.value != 0 then p.teamSize.value else 5,
        TextOr(p.annualRevenue, ""),
        TextOr(p.fundingRaised, ""),
        TextOr(p.employeeCount, "50-100"),
        TextOr(p.innovationBudget, ""),
        p.lookingFor,
        p.thematicsInterest)
  }

  /** The form keeps the profile's texts and lists, and falls back only where the profile has nothing. */
  lemma InitialFormFromProfile(u: User)
    ensures var f := InitialForm(Some(u)); var p := u.participant;
      f.pitch == p.pitch && f.description == p.description
      && f.lookingFor == p.lookingFor && f.thematicsInterest == p.thematicsInterest
      && (p.stage.Some? ==> f.stage == p.stage.value)
      && (p.stage.None? ==> f.stage == Seed)
      && (p.teamSize == Some(0) || p.teamSize.None? ==> f.teamSize == 5)
      && (p.employeeCount == Some("") || p.employeeCount.None? ==> f.employeeCount == "50-100")
  {
  }

  /** `updateProfile(formData)`: all twelve form fields are supplied, nothing else is. */
  function FormPatch(f: OnboardingForm): ParticipantPatch {
    NoChange.(
      pitch := Some(f.pitch),
      description := Some(f.description),
      website := Some(f.website),
      linkedIn := Some(f.linkedIn),
      stage := Some(f.stage),
      teamSize := Some(f.teamSize),
      annualRevenue := Some(f.annualRevenue),
      fundingRaised := Some(f.fundingRaised),
      employeeCount := Some(f.employeeCount),
      innovationBudget := Some(f.innovationBudget),
      lookingFor := Some(f.lookingFor),
      thematicsInterest := Some(f.thematicsInterest))
  }

  /**
   * Completing onboarding keeps who the participant is and takes every form
   * field over, the startup fields and the enterprise fields alike, whatever
   * the participant's type.
   */
  lemma FormPatchEffect(p: Participant, f: OnboardingForm)
    ensures var q := Merge(p, FormPatch(f));
      q.id == p.id && q.kind == p.kind && q.name == p.name && q.sector == p.sector
      && q.email == p.email && q.logo == p.logo && q.createdAt == p.createdAt
      && q.pitch == f.pitch && q.lookingFor == f.lookingFor && q.thematicsInterest == f.thematicsInterest
      && q.stage == Some(f.stage) && q.teamSize == Some(f.teamSize)
      && q.employeeCount == Some(f.employeeCount)
  {
  }

  /** The "skip this step" link is shown on the middle steps only. */
  function SkipOffered(currentStep: int): (r: bool)
    requires 1 <= currentStep <= 4
    ensures r <==> currentStep == 2 || currentStep == 3
  {
    currentStep > 1 && currentStep < 4
  }

  /** The onboarding wizard. */
  class OnboardingPage {
    var currentStep: int
    var formData: OnboardingForm

    /** The step stays within the four steps of the wizard. */
    ghost predicate Valid()
      reads this
    {
      1 <= currentStep <= 4
    }

    /** Opens on step 1 with the form filled from the signed-in user, if any. */
    constructor (user: Option<User>)
      ensures currentStep == 1 && formData == InitialForm(user)
      ensures Valid()
    {
      currentStep := 1;
      formData := InitialForm(user);
    }

    /** Moves one step on; on the last step it completes onboarding instead. */
    method HandleNext(auth: AuthStore)
      modifies this`currentStep, auth`user
      ensures old(currentStep) < 4 ==> currentStep == old(currentStep) + 1 && auth.user == old(auth.user)
      ensures old(currentStep) >= 4 ==>
        currentStep == old(currentStep) && auth.user == Onboarded(old(auth.user), formData)
      ensures old(Valid()) ==> Valid()
    {
      if currentStep < 4 {
        currentStep := currentStep + 1;
      } else {
        HandleComplete(auth);
      }
    }

    /** Moves one step back; nothing happens on step 1. */
    method HandlePrev()
      modifies this`currentStep
      ensures currentStep == if old(currentStep) > 1 then old(currentStep) - 1 else old(currentStep)
      ensures old(Valid()) ==> Valid()
    {
      if currentStep > 1 {
        currentStep := currentStep - 1;
      }
    }

    /** Writes the form into the profile, then marks onboarding as done. */
    method HandleComplete(auth: AuthStore)
      modifies auth`user
      ensures auth.user == Onboarded(old(auth.user), formData)
    {
      auth.UpdateProfile(FormPatch(formData));
      auth.CompleteOnboarding();
    }

    method ToggleLookingFor(kind: PartnershipType)
      modifies this`formData
      ensures formData == old(formData).(lookingFor := Toggle(old(formData).lookingFor, kind))
      ensures kind in formData.lookingFor <==> kind !in old(formData).lookingFor
    {
      var prev := formData;
      formData := prev.(lookingFor :=
        if kind in prev.lookingFor then Without(prev.lookingFor, kind) else prev.lookingFor + [kind]);
    }

    method ToggleThematic(thematic: string)
      modifies this`formData
      ensures formData == old(formData).(thematicsInterest := Toggle(old(formData).thematicsInterest, thematic))
      ensures thematic in formData.thematicsInterest <==> thematic !in old(formData).thematicsInterest
    {
      var prev := formData;
      formData := prev.(thematicsInterest :=
        if thematic in prev.thematicsInterest then Without(prev.thematicsInterest, thematic)
        else prev.thematicsInterest + [thematic]);
    }
  }

  /** The session user after `handleComplete`: profile updated, then onboarding done; no user stays none. */
  function Onboarded(user: Option<User>, f: OnboardingForm): (r: Option<User>)
    ensures user.None? <==> r.None?
    ensures r.Some? ==>
      r.value.onboardingCompleted && r.value.id == user.value.id
      && r.value.participant == Merge(user.value.participant, FormPatch(f))
  {
    if user.None? then None
    else Some(user.value.(participant := Merge(user.value.participant, FormPatch(f)), onboardingCompleted := true))
  }
}
