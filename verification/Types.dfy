/**
 * The records the application passes between its stores and pages
 * (src/types/index.ts). A TypeScript optional property `x?: T` is an
 * `Option<T>`; `type` is renamed `kind` because `type` is a Dafny keyword.
 */
module Types {
  import opened Wrappers

  datatype ParticipantType = Startup | Enterprise {
    /** The string literal the source uses for this member of the union. */
    function Name(): string {
      match this
      case Startup => "startup"
      case Enterprise => "enterprise"
    }
  }

  datatype Sector =
    | Fintech | Regtech | Insurtech | Blockchain | Cybersecurity
    | AiMl | Payments | Banking | Compliance | DataAnalytics
  {
    function Name(): string {
      match this
      case Fintech => "fintech"
      case Regtech => "regtech"
      case Insurtech => "insurtech"
      case Blockchain => "blockchain"
      case Cybersecurity => "cybersecurity"
      case AiMl => "ai_ml"
      case Payments => "payments"
      case Banking => "banking"
      case Compliance => "compliance"
      case DataAnalytics => "data_analytics"
    }
  }

  datatype StartupStage = Idea | Mvp | Bootstrap | Seed | SeriesA | SeriesB | ScaleUp

  datatype PartnershipType = Client | Partner | Investor | Supplier | Mentor

  datatype Participant = Participant(
    id: string,
    kind: ParticipantType,
    name: string,
    logo: Option<string>,
    sector: Sector,
    pitch: string,
    description: string,
    website: Option<string>,
    linkedIn: Option<string>,
    twitter: Option<string>,
    email: string,
    // startup specific
    stage: Option<StartupStage>,
    fundingRaised: Option<string>,
    teamSize: Option<int>,
    foundedYear: Option<int>,
    isVillageNetwork: Option<bool>,
    // enterprise specific
    employeeCount: Option<string>,
    annualRevenue: Option<string>,
    innovationBudget: Option<string>,
    resources: Option<seq<string>>,
    // common
    lookingFor: seq<PartnershipType>,
    thematicsInterest: seq<string>,
    createdAt: string)

  datatype User = User(
    id: string,
    email: string,
    participantId: string,
    participant: Participant,
    onboardingCompleted: bool,
    createdAt: string)

  datatype MeetingStatus = Scheduled | Completed | Cancelled

  datatype Meeting = Meeting(
    id: string,
    startTime: string,
    endTime: string,
    participantId: string,
    participant: Participant,
    table: string,
    notes: Option<string>,
    status: MeetingStatus)

  datatype SlotType = MeetingSlot | BreakSlot | FreeSlot | KeynoteSlot

  datatype TimeSlot = TimeSlot(
    id: string,
    startTime: string,
    endTime: string,
    kind: SlotType,
    meeting: Option<Meeting>,
    slotLabel: Option<string>)

  /** `createdAt` is the instant as a number of milliseconds rather than its ISO text. */
  datatype Message = Message(
    id: string,
    conversationId: string,
    senderId: string,
    receiverId: string,
    content: string,
    createdAt: int,
    read: bool)

  datatype Conversation = Conversation(
    id: string,
    participantId: string,
    participant: Participant,
    lastMessage: Option<Message>,
    unreadCount: int,
    createdAt: int)

  datatype ChatbotResponse = ChatbotResponse(
    keywords: seq<string>,
    response: string,
    followUp: Option<string>)

  datatype Preference = Preference(participantId: string, order: int)
}
