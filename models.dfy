/** The records and enumerations shared by the campaign components: campaign,
    action, target and participant records, their status and type
    enumerations, and the escalation phases of a campaign ladder. */
module Models {

  import opened Base

  datatype CampaignStatus = Draft | Planning | Active | Escalating | Paused | Won | Lost | Archived

  datatype CampaignType = Corporate | Legislative | Regulatory | Investigation | Cultural
  {
    /** The enumeration's string value. */
    function Value(): string
    {
      match this
      case Corporate => "corporate"
      case Legislative => "legislative"
      case Regulatory => "regulatory"
      case Investigation => "investigation"
      case Cultural => "cultural"
    }
  }

  datatype ActionType =
    | Email | PhoneCall | SocialPost | PublicComment | FoiaRequest | Review | Testimony
    | ShareholderAction | Boycott | ContentCreation | SeoArticle | OsintResearch
    | SatelliteAnalysis | CitizenSuit
  {
    /** The enumeration's string value, `ActionType(value)`'s argument. */
    function Value(): string
    {
      match this
      case Email => "email"
      case PhoneCall => "phone_call"
      case SocialPost => "social_post"
      case PublicComment => "public_comment"
      case FoiaRequest => "foia_request"
      case Review => "review"
      case Testimony => "testimony"
      case ShareholderAction => "shareholder_action"
      case Boycott => "boycott"
      case ContentCreation => "content_creation"
      case SeoArticle => "seo_article"
      case OsintResearch => "osint_research"
      case SatelliteAnalysis => "satellite_analysis"
      case CitizenSuit => "citizen_suit"
    }
  }

  /** Every action type, in declaration order. */
  const AllActionTypes: seq<ActionType> := [
    Email, PhoneCall, SocialPost, PublicComment, FoiaRequest, Review, Testimony,
    ShareholderAction, Boycott, ContentCreation, SeoArticle, OsintResearch,
    SatelliteAnalysis, CitizenSuit]

  lemma AllActionTypesComplete(t: ActionType)
    ensures t in AllActionTypes
  {
    match t
    case Email =>
    case PhoneCall =>
    case SocialPost =>
    case PublicComment =>
    case FoiaRequest =>
    case Review =>
    case Testimony =>
    case ShareholderAction =>
    case Boycott =>
    case ContentCreation =>
    case SeoArticle =>
    case OsintResearch =>
    case SatelliteAnalysis =>
    case CitizenSuit =>
  }

  /** `ActionType(s)`: the member whose value is `s`, or nothing (Python raises
      `ValueError`, which the callers catch). */
  function ParseActionType(s: string): (r: Option<ActionType>)
    ensures r.Some? ==> r.value.Value() == s
    ensures r.None? ==> forall t: ActionType :: t.Value() != s
  {
    if s == "email" then Some(Email)
    else if s == "phone_call" then Some(PhoneCall)
    else if s == "social_post" then Some(SocialPost)
    else if s == "public_comment" then Some(PublicComment)
    else if s == "foia_request" then Some(FoiaRequest)
    else if s == "review" then Some(Review)
    else if s == "testimony" then Some(Testimony)
    else if s == "shareholder_action" then Some(ShareholderAction)
    else if s == "boycott" then Some(Boycott)
    else if s == "content_creation" then Some(ContentCreation)
    else if s == "seo_article" then Some(SeoArticle)
    else if s == "osint_research" then Some(OsintResearch)
    else if s == "satellite_analysis" then Some(SatelliteAnalysis)
    else if s == "citizen_suit" then Some(CitizenSuit)
    else None
  }

  /** Parsing a type's own value gives that type back, so no two types share a value. */
  lemma ParseValueRoundTrip(t: ActionType)
    ensures ParseActionType(t.Value()) == Some(t)
  {
  }

  /** The channels through which pressure is applied. */
  datatype TacticChannel = EmailChannel | Phone | SocialMedia | Legal | Media | Shareholder | Consumer | RegulatoryChannel | Grassroots
  {
    function Value(): string
    {
      match this
      case EmailChannel => "email"
      case Phone => "phone"
      case SocialMedia => "social_media"
      case Legal => "legal"
      case Media => "media"
      case Shareholder => "shareholder"
      case Consumer => "consumer"
      case RegulatoryChannel => "regulatory"
      case Grassroots => "grassroots"
    }
  }

  datatype ActionStatus = Available | Claimed | InProgress | Completed | Verified | Expired

  /** One rung of an escalation ladder: `{"phase", "name", "duration_weeks",
      "tactics", "win_trigger"}`. */
  datatype Phase = Phase(
    number: int,
    name: string,
    durationWeeks: int,
    tactics: seq<string>,
    winTrigger: string)

  /** `sum(p["duration_weeks"] for p in ladder)`. */
  function SumWeeks(ladder: seq<Phase>): int
  {
    if |ladder| == 0 then 0 else SumWeeks(ladder[..|ladder| - 1]) + ladder[|ladder| - 1].durationWeeks
  }

  /** A ladder whose phases all last at least a week lasts at least as many
      weeks as it has phases. */
  lemma {:induction false} SumWeeksOfPositive(ladder: seq<Phase>)
    requires forall i :: 0 <= i < |ladder| ==> ladder[i].durationWeeks >= 1
    ensures SumWeeks(ladder) >= |ladder|
  {
    if |ladder| > 0 {
      SumWeeksOfPositive(ladder[..|ladder| - 1]);
    }
  }

  datatype Campaign = Campaign(
    id: Option<int>,
    name: string,
    slug: string,
    campaignType: CampaignType,
    targetSummary: string,
    goal: string,
    status: CampaignStatus,
    channels: seq<string>,
    tactics: seq<string>,
    escalationLadder: seq<Phase>,
    winConditions: seq<string>,
    startDate: Option<int>,
    deadline: Option<int>)

  /** A campaign target. `contacts` holds the `email` and `phone` entries
      among others; `social` is the text `str()` gives for its social-accounts
      dictionary; the vulnerability score is a 1-10 rating (the column may be
      null). */
  datatype Target = Target(
    name: string,
    organization: Option<string>,
    titleRole: Option<string>,
    contacts: map<string, string>,
    social: string,
    vulnerabilityScore: Option<real>)

  datatype Participant = Participant(
    name: string,
    skills: seq<string>,
    availabilityMinutesPerWeek: int)

  /** A value stored in an action's template variables (a JSON column): a
      string, a null, or a string-to-string dictionary. */
  datatype VarValue = Text(text: string) | Null | Dict(entries: map<string, string>)

  /** A concrete task; `deadline` and `completedAt` are instants in minutes,
      and the template variables are the key/value pairs in dictionary order. */
  datatype Action = Action(
    campaignId: Option<int>,
    actionType: ActionType,
    title: string,
    description: string,
    templateName: Option<string>,
    templateVars: seq<(string, VarValue)>,
    estimatedMinutes: int,
    priority: int,
    status: ActionStatus,
    deadline: Option<int>,
    completedAt: Option<int>)
}
