/**
 * The session (src/store/authStore.ts): the signed-in user, the
 * authenticated flag and the loading flag. The simulated one-second
 * server delay of `login` and `register` is not modelled; both run to
 * completion. `Date.now()` is the parameter `now`; the two readings of
 * `new Date().toISOString()` that build a user, first for the profile and
 * then for the account, are the parameters `profileIso` and `userIso`.
 */
module Auth {
  import opened Wrappers
  import opened Types
  import opened Text

  /** What the registration form hands to `register`. */
  datatype RegisterData = RegisterData(
    email: string,
    password: string,
    kind: ParticipantType,
    name: string,
    sector: Sector)

  /** The user `register` creates: an empty profile still to be completed. */
  function CreateDemoUser(data: RegisterData, now: nat, profileIso: string, userIso: string): (u: User)
    ensures u.id == u.participantId == u.participant.id
    ensures u.participant.createdAt == profileIso && u.createdAt == userIso
    ensures u.email == data.email && u.participant.email == data.email
    ensures u.participant.kind == data.kind && u.participant.name == data.name && u.participant.sector == data.sector
    ensures !u.onboardingCompleted
    ensures u.participant.pitch == "" && u.participant.description == ""
    ensures u.participant.lookingFor == [] && u.participant.thematicsInterest == []
  {
    var participantId := "user-" + Dec(now);
    User(
      participantId,
      data.email,
      participantId,
      Participant(
        participantId, data.kind, data.name, None, data.sector, "", "",
        None, None, None, data.email,
        None, None, None, None, None,
        None, None, None, None,
        [], [], profileIso),
      false,
      userIso)
  }

  /** Users created at different instants get different ids. */
  lemma DemoUserIdsDistinct(data: RegisterData, now1: nat, now2: nat, profileIso: string, userIso: string)
    requires now1 != now2
    ensures CreateDemoUser(data, now1, profileIso, userIso).id != CreateDemoUser(data, now2, profileIso, userIso).id
  {
    DecInjective(now1, now2);
    var a := CreateDemoUser(data, now1, profileIso, userIso).id;
    var b := CreateDemoUser(data, now2, profileIso, userIso).id;
    assert a[5..] == Dec(now1) && b[5..] == Dec(now2);
  }

  /**
   * The demo user `login` signs in: a startup profile exactly when the
   * e-mail contains "startup", an enterprise profile otherwise. The
   * password plays no part.
   */
  function LoginUser(email: string, profileIso: string, userIso: string): (u: User)
    ensures u.participant.kind == Startup <==> Contains(email, "startup")
    ensures u.participant.createdAt == profileIso && u.createdAt == userIso
    ensures u.email == email && u.participant.email == email
    ensures u.onboardingCompleted
    ensures u.id == "demo-user" && u.participantId == "demo-participant" && u.participant.id == "demo-participant"
    ensures Contains(email, "startup") ==> u.participant.stage == Some(Seed) && u.participant.employeeCount == None
    ensures !Contains(email, "startup") ==> u.participant.stage == None && u.participant.employeeCount == Some("100-500")
  {
    var isStartup := Contains(email, "startup");
    User(
      "demo-user",
      email,
      "demo-participant",
      Participant(
        "demo-participant",
        if isStartup then Startup else Enterprise,
        if isStartup then "Ma Startup Fintech" else "Mon Entreprise",
        Some("https://api.dicebear.com/7.x/initials/svg?seed=" + email + "&backgroundColor=1E3A5F"),
        Fintech,
        "Solution innovante pour la finance de demain.",
        "Nous développons des solutions technologiques pour transformer le secteur financier.",
        Some("https://example.com"),
        None,
        None,
        email,
        if isStartup then Some(Seed) else None,
        if isStartup then Some("500K€") else None,
        if isStartup then Some(8) else None,
        None,
        None,
        if !isStartup then Some("100-500") else None,
        None,
        None,
        None,
        [Partner, Client],
        ["Fintech", "Innovation", "Digital"],
        profileIso),
      true,
      userIso)
  }

  /** `Partial<Participant>`: each field is either supplied or absent. */
  datatype ParticipantPatch = ParticipantPatch(
    id: Option<string>,
    kind: Option<ParticipantType>,
    name: Option<string>,
    logo: Option<string>,
    sector: Option<Sector>,
    pitch: Option<string>,
    description: Option<string>,
    website: Option<string>,
    linkedIn: Option<string>,
    twitter: Option<string>,
    email: Option<string>,
    stage: Option<StartupStage>,
    fundingRaised: Option<string>,
    teamSize: Option<int>,
    foundedYear: Option<int>,
    isVillageNetwork: Option<bool>,
    employeeCount: Option<string>,
    annualRevenue: Option<string>,
    innovationBudget: Option<string>,
    resources: Option<seq<string>>,
    lookingFor: Option<seq<PartnershipType>>,
    thematicsInterest: Option<seq<string>>,
    createdAt: Option<string>)

  const NoChange := ParticipantPatch(
    None, None, None, None, None, None, None, None, None, None, None, None,
    None, None, None, None, None, None, None, None, None, None, None)

  /** For a field that is itself optional: the supplied value, or the old one. */
  function Over<T>(supplied: Option<T>, current: Option<T>): Option<T> {
    if supplied.Some? then supplied else current
  }

  /** `{...p, ...d}`: every supplied field overwrites, every other field stays. */
  function Merge(p: Participant, d: ParticipantPatch): Participant {
    Participant(
      d.id.GetOr(p.id),
      d.kind.GetOr(p.kind),
      d.name.GetOr(p.name),
      Over(d.logo, p.logo),
      d.sector.GetOr(p.sector),
      d.pitch.GetOr(p.pitch),
      d.description.GetOr(p.description),
      Over(d.website, p.website),
      Over(d.linkedIn, p.linkedIn),
      Over(d.twitter, p.twitter),
      d.email.GetOr(p.email),
      Over(d.stage, p.stage),
      Over(d.fundingRaised, p.fundingRaised),
      Over(d.teamSize, p.teamSize),
      Over(d.foundedYear, p.foundedYear),
      Over(d.isVillageNetwork, p.isVillageNetwork),
      Over(d.employeeCount, p.employeeCount),
      Over(d.annualRevenue, p.annualRevenue),
      Over(d.innovationBudget, p.innovationBudget),
      Over(d.resources, p.resources),
      d.lookingFor.GetOr(p.lookingFor),
      d.thematicsInterest.GetOr(p.thematicsInterest),
      d.createdAt.GetOr(p.createdAt))
  }

  /** The patch that applies `a` and then `b`: `b` wins wherever it supplies a field. */
  function Then(a: ParticipantPatch, b: ParticipantPatch): ParticipantPatch {
    ParticipantPatch(
      Over(b.id, a.id), Over(b.kind, a.kind), Over(b.name, a.name), Over(b.logo, a.logo),
      Over(b.sector, a.sector), Over(b.pitch, a.pitch), Over(b.description, a.description),
      Over(b.website, a.website), Over(b.linkedIn, a.linkedIn), Over(b.twitter, a.twitter),
      Over(b.email, a.email), Over(b.stage, a.stage), Over(b.fundingRaised, a.fundingRaised),
      Over(b.teamSize, a.teamSize), Over(b.foundedYear, a.foundedYear),
      Over(b.isVillageNetwork, a.isVillageNetwork), Over(b.employeeCount, a.employeeCount),
      Over(b.annualRevenue, a.annualRevenue), Over(b.innovationBudget, a.innovationBudget),
      Over(b.resources, a.resources), Over(b.lookingFor, a.lookingFor),
      Over(b.thematicsInterest, a.thematicsInterest), Over(b.createdAt, a.createdAt))
  }

  /** An empty patch changes nothing. */
  lemma MergeNoChange(p: Participant)
    ensures Merge(p, NoChange) == p
  {
  }

  /** Applying the same patch twice is applying it once. */
  lemma MergeIdempotent(p: Participant, d: ParticipantPatch)
    ensures Merge(Merge(p, d), d) == Merge(p, d)
  {
  }

  /** Two successive patches act as one patch in which the later one wins. */
  lemma MergeThen(p: Participant, a: ParticipantPatch, b: ParticipantPatch)
    ensures Merge(Merge(p, a), b) == Merge(p, Then(a, b))
  {
  }

  /** A supplied field is taken over; an unsupplied required field keeps its value. */
  lemma MergeFields(p: Participant, d: ParticipantPatch)
    ensures d.pitch.Some? ==> Merge(p, d).pitch == d.pitch.value
    ensures d.pitch.None? ==> Merge(p, d).pitch == p.pitch
    ensures d.name.None? ==> Merge(p, d).name == p.name
    ensures d.id.None? ==> Merge(p, d).id == p.id
    ensures d.kind.None? ==> Merge(p, d).kind == p.kind
    ensures d.email.None? ==> Merge(p, d).email == p.email
    ensures d.logo.None? ==> Merge(p, d).logo == p.logo
    ensures d.logo.Some? ==> Merge(p, d).logo == d.logo
  {
  }

  /** The session store. */
  class AuthStore {
    var user: Option<User>
    var isAuthenticated: bool
    var isLoading: bool

    constructor ()
      ensures user == None && !isAuthenticated && !isLoading
    {
      user := None;
      isAuthenticated := false;
      isLoading := false;
    }

    /** Signs in the demo user for this e-mail, whatever the password, and reports success. */
    method Login(email: string, password: string, profileIso: string, userIso: string) returns (ok: bool)
      modifies this
      ensures ok
      ensures user == Some(LoginUser(email, profileIso, userIso))
      ensures isAuthenticated && !isLoading
      ensures user.value.onboardingCompleted
    {
      isLoading := true;
      var demoUser := LoginUser(email, profileIso, userIso);
      user := Some(demoUser);
      isAuthenticated := true;
      isLoading := false;
      return true;
    }

    /** Creates the account with an empty profile and signs it in. */
    method Register(data: RegisterData, now: nat, profileIso: string, userIso: string) returns (ok: bool)
      modifies this
      ensures ok
      ensures user == Some(CreateDemoUser(data, now, profileIso, userIso))
      ensures isAuthenticated && !isLoading
      ensures !user.value.onboardingCompleted
    {
      isLoading := true;
      var newUser := CreateDemoUser(data, now, profileIso, userIso);
      user := Some(newUser);
      isAuthenticated := true;
      isLoading := false;
      return true;
    }

    /** Signs out; the loading flag is left as it was. */
    method Logout()
      modifies this`user, this`isAuthenticated
      ensures user == None && !isAuthenticated
    {
      user := None;
      isAuthenticated := false;
    }

    /** Overwrites the supplied profile fields of the signed-in user; nothing happens without one. */
    method UpdateProfile(data: ParticipantPatch)
      modifies this`user
      ensures old(user).None? ==> user == None
      ensures old(user).Some? ==> user == Some(old(user).value.(participant := Merge(old(user).value.participant, data)))
      ensures user.Some? ==>
        (user.value.id == old(user).value.id && user.value.email == old(user).value.email
         && user.value.onboardingCompleted == old(user).value.onboardingCompleted)
    {
      if user.None? {
        return;
      }
      var u := user.value;
      user := Some(u.(participant := Merge(u.participant, data)));
    }

    /** Marks the signed-in user's onboarding as done; nothing happens without one. */
    method CompleteOnboarding()
      modifies this`user
      ensures old(user).None? ==> user == None
      ensures old(user).Some? ==> user == Some(old(user).value.(onboardingCompleted := true))
    {
      if user.None? {
        return;
      }
      user := Some(user.value.(onboardingCompleted := true));
    }
  }
}
