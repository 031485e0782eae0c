/** Campaign templates with escalation ladders, and the campaigns and phase
    actions built from them (`CampaignBuilder`). */
module CampaignBuilder {

  import opened Base
  import opened Strings
  import opened Lists
  import opened Models
  import ActionGenerator

  // ---------------------------------------------------------------------
  // Templates
  // ---------------------------------------------------------------------

  /** One entry of `TEMPLATES`: the channels, the escalation ladder and the
      action types of a campaign type. */
  datatype Template = Template(channels: seq<TacticChannel>, ladder: seq<Phase>, actionTypes: seq<ActionType>)

  /** The campaign types in the order `TEMPLATES` lists them. */
  const TemplateOrder: seq<CampaignType> := [Corporate, Legislative, Regulatory, Investigation, Cultural]

  /** `TEMPLATES[campaign_type]` (also `get_template`). */
  function TemplateOf(ct: CampaignType): Template
  {
    match ct
    case Corporate =>
      Template([EmailChannel, SocialMedia, Shareholder, Consumer, Media],
               seq(4, k => CorporatePhase(k)),
               [Email, PhoneCall, SocialPost, Review, ShareholderAction, Boycott])
    case Legislative =>
      Template([Phone, EmailChannel, Grassroots, Media],
               seq(3, k => LegislativePhase(k)),
               [PhoneCall, Email, Testimony, SocialPost, ContentCreation])
    case Regulatory =>
      Template([RegulatoryChannel, Legal, Media, EmailChannel],
               seq(3, k => RegulatoryPhase(k)),
               [PublicComment, FoiaRequest, CitizenSuit, Email, ContentCreation])
    case Investigation =>
      Template([Legal, Media, RegulatoryChannel],
               seq(3, k => InvestigationPhase(k)),
               [OsintResearch, FoiaRequest, SatelliteAnalysis, ContentCreation])
    case Cultural =>
      Template([SocialMedia, Media, Consumer, Grassroots],
               seq(3, k => CulturalPhase(k)),
               [ContentCreation, SeoArticle, SocialPost])
  }


  /** The phases of the corporate ladder, the first at `k == 0`. */
  function CorporatePhase(k: int): Phase
  {
    match k
    case 0 =>
      Phase(1, "Direct Engagement", 2,
            ["Email CEO and sustainability team with specific asks",
             "Social media tagging of brand accounts with evidence",
             "Online reviews citing specific documented conditions"],
            "Company agrees to meeting or issues statement")
    case 1 =>
      Phase(2, "Public Pressure", 4,
            ["Coordinated social media campaign with hashtag",
             "Investor/shareholder inquiry letters",
             "Media pitches to business and industry reporters",
             "Consumer boycott launch with alternative recommendations"],
            "Media coverage or investor inquiry initiated")
    case 2 =>
      Phase(3, "Institutional Pressure", 6,
            ["Shareholder resolution filing",
             "ESG rating agency complaints with documentation",
             "Retailer/supplier pressure letters",
             "Celebrity/influencer amplification"],
            "Board-level discussion or policy change announced")
    case _ =>
      Phase(4, "Maximum Pressure", 8,
            ["Proxy vote campaign at annual meeting",
             "Regulatory complaints (EPA, USDA, state AG)",
             "Class action or citizen suit exploration",
             "Documentary/long-form investigation partnership"],
            "Binding commitment with verification mechanism")
  }


  /** The phases of the legislative ladder, the first at `k == 0`. */
  function LegislativePhase(k: int): Phase
  {
    match k
    case 0 =>
      Phase(1, "Constituent Pressure", 3,
            ["Phone calls to target legislators (district + DC offices)",
             "Constituent emails with personal stories",
             "Town hall attendance and recorded questions"],
            "Legislator's office acknowledges volume of contact")
    case 1 =>
      Phase(2, "Coalition Building", 4,
            ["Sign-on letters from allied organizations",
             "Expert testimony recruitment for committee hearings",
             "Op-eds in district newspapers",
             "Social media targeting of swing votes"],
            "Co-sponsor gained or committee hearing scheduled")
    case _ =>
      Phase(3, "Floor Push", 6,
            ["Coordinated call-in days (500+ calls per office)",
             "Lobby day with constituent meetings",
             "Paid media in swing districts",
             "Grasstops pressure (donors, local leaders)"],
            "Floor vote scheduled or amendment accepted")
  }


  /** The phases of the regulatory ladder, the first at `k == 0`. */
  function RegulatoryPhase(k: int): Phase
  {
    match k
    case 0 =>
      Phase(1, "Comment Period Blitz", 4,
            ["File substantive public comments (unique, not form letters)",
             "FOIA requests for agency communications with industry",
             "Expert comment recruitment from scientists and vets"],
            "Agency acknowledges substantive comments requiring response")
    case 1 =>
      Phase(2, "Enforcement Push", 6,
            ["Complaints to inspectors general",
             "State attorney general petitions",
             "Media coverage of enforcement gaps",
             "Congressional oversight requests"],
            "Investigation opened or enforcement action initiated")
    case _ =>
      Phase(3, "Legal Action", 12,
            ["Citizen suit under Clean Water Act / Clean Air Act",
             "Administrative Procedure Act challenge",
             "State-level regulatory petitions",
             "International trade complaint if applicable"],
            "Court order or consent decree")
  }


  /** The phases of the investigation ladder, the first at `k == 0`. */
  function InvestigationPhase(k: int): Phase
  {
    match k
    case 0 =>
      Phase(1, "Open Source Intelligence", 4,
            ["Corporate filing analysis (SEC, state registrations)",
             "Permit and inspection record FOIA",
             "Satellite imagery analysis of facility changes",
             "Social media monitoring of employees and contractors"],
            "Pattern of violations or concealment documented")
    case 1 =>
      Phase(2, "Deep Investigation", 8,
            ["Targeted FOIA for agency-industry communications",
             "Whistleblower outreach via secure channels",
             "Supply chain mapping and verification",
             "Water/air quality testing near facilities"],
            "Evidence package sufficient for legal or media action")
    case _ =>
      Phase(3, "Publication & Action", 4,
            ["Investigative media partnership for publication",
             "Regulatory complaint filing with evidence",
             "Shareholder/investor briefing on findings",
             "Public report release with recommendations"],
            "Investigation triggers enforcement or corporate change")
  }


  /** The phases of the cultural ladder, the first at `k == 0`. */
  function CulturalPhase(k: int): Phase
  {
    match k
    case 0 =>
      Phase(1, "Content Seeding", 4,
            ["SEO-optimized articles targeting industry search terms",
             "Social media content series with shareable assets",
             "Influencer outreach with talking points and evidence",
             "Reddit/forum engagement in relevant communities"],
            "Content ranking for target keywords or viral reach")
    case 1 =>
      Phase(2, "Narrative Amplification", 6,
            ["Op-ed placement in major outlets",
             "Podcast guest appearances on aligned shows",
             "Short-form video series for TikTok/Instagram/YouTube",
             "Coordinated social sharing with engagement pods"],
            "Mainstream media adoption of framing or terminology")
    case _ =>
      Phase(3, "Cultural Anchoring", 8,
            ["Documentary or long-form video production",
             "Curriculum or educational material development",
             "Celebrity/public figure endorsement",
             "Annual awareness event or day establishment"],
            "Sustained shift in public discourse metrics")
  }

  /** A ladder whose phases are numbered 1, 2, ... in order, each lasting a
      week or more. */
  predicate WellFormedLadder(ladder: seq<Phase>)
  {
    forall i :: 0 <= i < |ladder| ==> PhaseFits(ladder[i], i)
  }

  /** A phase that can stand at position `i` of a well-formed ladder: it is
      numbered `i + 1` and lasts at least a week. */
  predicate PhaseFits(p: Phase, i: int)
  {
    p.number == i + 1 && p.durationWeeks >= 1
  }

  /** Three phases numbered 1 to 3, each a week or more. */
  lemma LadderOfThree(l: seq<Phase>)
    requires |l| == 3 && PhaseFits(l[0], 0) && PhaseFits(l[1], 1) && PhaseFits(l[2], 2)
    ensures WellFormedLadder(l)
    ensures SumWeeks(l) == l[0].durationWeeks + l[1].durationWeeks + l[2].durationWeeks
  {
    assert SumWeeks(l[..1]) == l[0].durationWeeks by {
      assert l[..1][..0] == [];
    }
    assert l[..2][..1] == l[..1];
    assert SumWeeks(l[..2]) == l[0].durationWeeks + l[1].durationWeeks;
    assert forall i :: 0 <= i < |l| ==> PhaseFits(l[i], i);
  }

  /** Four phases numbered 1 to 4, each a week or more. */
  lemma LadderOfFour(l: seq<Phase>)
    requires |l| == 4 && PhaseFits(l[0], 0) && PhaseFits(l[1], 1) && PhaseFits(l[2], 2) && PhaseFits(l[3], 3)
    ensures WellFormedLadder(l)
    ensures SumWeeks(l) == l[0].durationWeeks + l[1].durationWeeks + l[2].durationWeeks + l[3].durationWeeks
  {
    LadderOfThree(l[..3]);
    assert forall i :: 0 <= i < |l| ==> PhaseFits(l[i], i);
  }

  lemma CorporatePhase1()
    ensures TemplateOf(Corporate).ladder[0].number == 1 && TemplateOf(Corporate).ladder[0].durationWeeks == 2
  {
  }

  lemma CorporatePhase2()
    ensures TemplateOf(Corporate).ladder[1].number == 2 && TemplateOf(Corporate).ladder[1].durationWeeks == 4
  {
  }

  lemma CorporatePhase3()
    ensures TemplateOf(Corporate).ladder[2].number == 3 && TemplateOf(Corporate).ladder[2].durationWeeks == 6
  {
  }

  lemma CorporatePhase4()
    ensures TemplateOf(Corporate).ladder[3].number == 4 && TemplateOf(Corporate).ladder[3].durationWeeks == 8
  {
  }

  /** The corporate ladder: 4 phases numbered in order, 20 weeks in all. */
  lemma CorporateLadder()
    ensures WellFormedLadder(TemplateOf(Corporate).ladder) && SumWeeks(TemplateOf(Corporate).ladder) == 20
  {
    CorporatePhase1(); CorporatePhase2(); CorporatePhase3(); CorporatePhase4();
    LadderOfFour(TemplateOf(Corporate).ladder);
  }

  lemma LegislativePhase1()
    ensures TemplateOf(Legislative).ladder[0].number == 1 && TemplateOf(Legislative).ladder[0].durationWeeks == 3
  {
  }

  lemma LegislativePhase2()
    ensures TemplateOf(Legislative).ladder[1].number == 2 && TemplateOf(Legislative).ladder[1].durationWeeks == 4
  {
  }

  lemma LegislativePhase3()
    ensures TemplateOf(Legislative).ladder[2].number == 3 && TemplateOf(Legislative).ladder[2].durationWeeks == 6
  {
  }

  /** The legislative ladder: 3 phases numbered in order, 13 weeks in all. */
  lemma LegislativeLadder()
    ensures WellFormedLadder(TemplateOf(Legislative).ladder) && SumWeeks(TemplateOf(Legislative).ladder) == 13
  {
    LegislativePhase1(); LegislativePhase2(); LegislativePhase3();
    LadderOfThree(TemplateOf(Legislative).ladder);
  }

  lemma RegulatoryPhase1()
    ensures TemplateOf(Regulatory).ladder[0].number == 1 && TemplateOf(Regulatory).ladder[0].durationWeeks == 4
  {
  }

  lemma RegulatoryPhase2()
    ensures TemplateOf(Regulatory).ladder[1].number == 2 && TemplateOf(Regulatory).ladder[1].durationWeeks == 6
  {
  }

  lemma RegulatoryPhase3()
    ensures TemplateOf(Regulatory).ladder[2].number == 3 && TemplateOf(Regulatory).ladder[2].durationWeeks == 12
  {
  }

  /** The regulatory ladder: 3 phases numbered in order, 22 weeks in all. */
  lemma RegulatoryLadder()
    ensures WellFormedLadder(TemplateOf(Regulatory).ladder) && SumWeeks(TemplateOf(Regulatory).ladder) == 22
  {
    RegulatoryPhase1(); RegulatoryPhase2(); RegulatoryPhase3();
    LadderOfThree(TemplateOf(Regulatory).ladder);
  }

  lemma InvestigationPhase1()
    ensures TemplateOf(Investigation).ladder[0].number == 1 && TemplateOf(Investigation).ladder[0].durationWeeks == 4
  {
  }

  lemma InvestigationPhase2()
    ensures TemplateOf(Investigation).ladder[1].number == 2 && TemplateOf(Investigation).ladder[1].durationWeeks == 8
  {
  }

  lemma InvestigationPhase3()
    ensures TemplateOf(Investigation).ladder[2].number == 3 && TemplateOf(Investigation).ladder[2].durationWeeks == 4
  {
  }

  /** The investigation ladder: 3 phases numbered in order, 16 weeks in all. */
  lemma InvestigationLadder()
    ensures WellFormedLadder(TemplateOf(Investigation).ladder) && SumWeeks(TemplateOf(Investigation).ladder) == 16
  {
    InvestigationPhase1(); InvestigationPhase2(); InvestigationPhase3();
    LadderOfThree(TemplateOf(Investigation).ladder);
  }

  lemma CulturalPhase1()
    ensures TemplateOf(Cultural).ladder[0].number == 1 && TemplateOf(Cultural).ladder[0].durationWeeks == 4
  {
  }

  lemma CulturalPhase2()
    ensures TemplateOf(Cultural).ladder[1].number == 2 && TemplateOf(Cultural).ladder[1].durationWeeks == 6
  {
  }

  lemma CulturalPhase3()
    ensures TemplateOf(Cultural).ladder[2].number == 3 && TemplateOf(Cultural).ladder[2].durationWeeks == 8
  {
  }

  /** The cultural ladder: 3 phases numbered in order, 18 weeks in all. */
  lemma CulturalLadder()
    ensures WellFormedLadder(TemplateOf(Cultural).ladder) && SumWeeks(TemplateOf(Cultural).ladder) == 18
  {
    CulturalPhase1(); CulturalPhase2(); CulturalPhase3();
    LadderOfThree(TemplateOf(Cultural).ladder);
  }

  /** Every template has a well-formed ladder: four phases for a corporate
      campaign, three for the others. */
  lemma TemplateLadders(ct: CampaignType)
    ensures WellFormedLadder(TemplateOf(ct).ladder)
    ensures |TemplateOf(ct).ladder| == if ct == Corporate then 4 else 3
  {
    match ct
    case Corporate => CorporateLadder();
    case Legislative => LegislativeLadder();
    case Regulatory => RegulatoryLadder();
    case Investigation => InvestigationLadder();
    case Cultural => CulturalLadder();
  }

  // ---------------------------------------------------------------------
  // Building a campaign
  // ---------------------------------------------------------------------

  /** `[ch.value for ch in channels]`. */
  function ChannelValues(chs: seq<TacticChannel>): (r: seq<string>)
    ensures |r| == |chs| && forall i :: 0 <= i < |chs| ==> r[i] == chs[i].Value()
  {
    if |chs| == 0 then [] else ChannelValues(chs[..|chs| - 1]) + [chs[|chs| - 1].Value()]
  }

  /** `[at.value for at in action_types]`. */
  function TypeValues(ts: seq<ActionType>): (r: seq<string>)
    ensures |r| == |ts| && forall i :: 0 <= i < |ts| ==> r[i] == ts[i].Value()
  {
    if |ts| == 0 then [] else TypeValues(ts[..|ts| - 1]) + [ts[|ts| - 1].Value()]
  }

  /** `[phase["win_trigger"] for phase in ladder]`. */
  function WinConditions(ladder: seq<Phase>): (r: seq<string>)
    ensures |r| == |ladder| && forall i :: 0 <= i < |ladder| ==> r[i] == ladder[i].winTrigger
  {
    if |ladder| == 0 then [] else WinConditions(ladder[..|ladder| - 1]) + [ladder[|ladder| - 1].winTrigger]
  }

  /** `slug = name.lower().replace(" ", "-").replace("'", "")`, then only
      letters, digits and `-` kept. */
  function Slug(name: string): string
  {
    KeepSlugChars(ReplaceAll(ReplaceAll(Lower(name), " ", "-"), "'", ""))
  }

  /** `custom_escalation or template["escalation_ladder"]`: an absent or
      empty custom ladder falls back to the template's. */
  function LadderUsed(template: Template, custom: Option<seq<Phase>>): seq<Phase>
  {
    if custom.Some? && |custom.value| > 0 then custom.value else template.ladder
  }

  /** The campaign `build_campaign` makes from a template; `today` stands
      for `date.today()` and dates are day numbers. The campaign has no id
      until it is stored. */
  function BuildFrom(template: Template, name: string, ct: CampaignType, targetSummary: string, goal: string,
                     startDate: Option<int>, custom: Option<seq<Phase>>, today: int): Campaign
  {
    var ladder := LadderUsed(template, custom);
    var start := if startDate.Some? then startDate.value else today;
    Campaign(None, name, Slug(name), ct, targetSummary, goal, Draft,
             ChannelValues(template.channels), TypeValues(template.actionTypes),
             ladder, WinConditions(ladder), Some(start), Some(start + 7 * SumWeeks(ladder)))
  }

  /** `build_campaign`, from the template of the campaign's type. */
  function BuildCampaign(name: string, ct: CampaignType, targetSummary: string, goal: string,
                         startDate: Option<int>, custom: Option<seq<Phase>>, today: int): Campaign
  {
    BuildFrom(TemplateOf(ct), name, ct, targetSummary, goal, startDate, custom, today)
  }

  /** A built campaign is a draft named and described as asked, with the
      template's channels and action types, the ladder used and one win
      condition per phase of it in order, starting on the given day (or
      today) and ending as many weeks later as the ladder's phases last. */
  lemma BuildFromFields(template: Template, name: string, ct: CampaignType, targetSummary: string, goal: string,
                        startDate: Option<int>, custom: Option<seq<Phase>>, today: int)
    ensures var c := BuildFrom(template, name, ct, targetSummary, goal, startDate, custom, today);
      c.status == Draft && c.id.None? && c.name == name && c.campaignType == ct &&
      c.targetSummary == targetSummary && c.goal == goal && c.slug == Slug(name) &&
      c.escalationLadder == (if custom.Some? && |custom.value| > 0 then custom.value else template.ladder) &&
      |c.winConditions| == |c.escalationLadder| &&
      (forall i :: 0 <= i < |c.winConditions| ==> c.winConditions[i] == c.escalationLadder[i].winTrigger) &&
      |c.channels| == |template.channels| &&
      (forall i :: 0 <= i < |c.channels| ==> c.channels[i] == template.channels[i].Value()) &&
      |c.tactics| == |template.actionTypes| &&
      (forall i :: 0 <= i < |c.tactics| ==> c.tactics[i] == template.actionTypes[i].Value()) &&
      c.startDate == Some(if startDate.Some? then startDate.value else today) &&
      c.deadline == Some(c.startDate.value + 7 * SumWeeks(c.escalationLadder))
  {
  }

  /** When every phase lasts a week or more, the deadline falls at least a
      week per phase after the start. */
  lemma BuildFromDeadline(template: Template, name: string, ct: CampaignType, targetSummary: string, goal: string,
                          startDate: Option<int>, custom: Option<seq<Phase>>, today: int)
    requires forall i :: 0 <= i < |template.ladder| ==> template.ladder[i].durationWeeks >= 1
    requires custom.Some? ==> forall i :: 0 <= i < |custom.value| ==> custom.value[i].durationWeeks >= 1
    ensures var c := BuildFrom(template, name, ct, targetSummary, goal, startDate, custom, today);
      c.deadline.Some? && c.startDate.Some? &&
      c.deadline.value >= c.startDate.value + 7 * |c.escalationLadder|
  {
    SumWeeksOfPositive(LadderUsed(template, custom));
  }

  /** With the type's template, and a custom ladder (if any) whose phases
      last a week or more, the deadline falls at least a week per phase
      after the start, and strictly after it without a custom ladder. */
  lemma BuildCampaignDeadline(name: string, ct: CampaignType, targetSummary: string, goal: string,
                              startDate: Option<int>, custom: Option<seq<Phase>>, today: int)
    requires custom.Some? ==> forall i :: 0 <= i < |custom.value| ==> custom.value[i].durationWeeks >= 1
    ensures var c := BuildCampaign(name, ct, targetSummary, goal, startDate, custom, today);
      c.deadline.Some? && c.startDate.Some? &&
      c.deadline.value >= c.startDate.value + 7 * |c.escalationLadder| &&
      (custom.None? ==> c.deadline.value > c.startDate.value)
  {
    var template := TemplateOf(ct);
    TemplateLadders(ct);
    BuildFromDeadline(template, name, ct, targetSummary, goal, startDate, custom, today);
  }

  /** The slug holds only lower-case letters, digits and `-`; in particular
      no space, apostrophe or exclamation mark. */
  lemma SlugAlphabet(name: string)
    ensures forall i :: 0 <= i < |Slug(name)| ==>
      'a' <= Slug(name)[i] <= 'z' || '0' <= Slug(name)[i] <= '9' || Slug(name)[i] == '-'
    ensures ' ' !in Slug(name) && '\'' !in Slug(name) && '!' !in Slug(name)
  {
    var low := Lower(name);
    var spaced := ReplaceAll(low, " ", "-");
    var u := ReplaceAll(spaced, "'", "");
    forall x | x in u ensures !IsUpper(x) {
      ReplaceChars(spaced, "'", "", x);
      ReplaceChars(low, " ", "-", x);
    }
    forall i | 0 <= i < |Slug(name)|
      ensures 'a' <= Slug(name)[i] <= 'z' || '0' <= Slug(name)[i] <= '9' || Slug(name)[i] == '-'
    {
      assert Slug(name)[i] in u;
    }
  }

  /** A space occurs in the lower-cased name exactly where it occurs in the name. */
  lemma LowerKeepsSpaces(name: string)
    ensures ' ' in Lower(name) <==> ' ' in name
  {
    if ' ' in name {
      var i :| 0 <= i < |name| && name[i] == ' ';
      assert Lower(name)[i] == ' ';
    }
    if ' ' in Lower(name) {
      var i :| 0 <= i < |Lower(name)| && Lower(name)[i] == ' ';
      assert name[i] == ' ';
    }
  }

  /** The slug's characters are exactly the lower-cased letters and digits of
      the name, its hyphens, and a hyphen when the name has a space. */
  lemma SlugCharacters(name: string, x: char)
    ensures x in Slug(name) <==> (IsAlnum(x) || x == '-') && (x in Lower(name) || (x == '-' && ' ' in name))
  {
    var low := Lower(name);
    var spaced := ReplaceAll(low, " ", "-");
    ReplaceOneChar(low, ' ', "-");
    ReplaceOneChar(spaced, '\'', "");
    ReplaceCharMembership(low, ' ', "-", x);
    ReplaceCharMembership(spaced, '\'', "", x);
    LowerKeepsSpaces(name);
  }

  /** Making a slug of a slug changes nothing. */
  lemma SlugIdempotent(name: string)
    ensures Slug(Slug(name)) == Slug(name)
  {
    var s := Slug(name);
    SlugAlphabet(name);
    LowerIdentity(s);
    ContainsChar(s, ' ');
    ReplaceAbsent(s, " ", "-");
    ContainsChar(s, '\'');
    ReplaceAbsent(s, "'", "");
    KeepSlugCharsIdentity(s);
  }

  // ---------------------------------------------------------------------
  // Inferring action types, minutes and templates
  // ---------------------------------------------------------------------

  /** The order in which `_infer_action_type` scans its keyword table. */
  const KeywordOrder: seq<ActionType> := [
    Email, PhoneCall, SocialPost, PublicComment, FoiaRequest, Review, Testimony,
    ShareholderAction, Boycott, SeoArticle, OsintResearch, SatelliteAnalysis, CitizenSuit, ContentCreation]

  /** The keywords of the table's row for `t`. */
  function Keywords(t: ActionType): seq<string>
  {
    match t
    case Email => ["email", "letter"]
    case PhoneCall => ["phone", "call"]
    case SocialPost => ["social media", "twitter", "instagram", "hashtag", "tiktok"]
    case PublicComment => ["public comment", "comment period", "rulemaking"]
    case FoiaRequest => ["foia", "freedom of information"]
    case Review => ["review", "google review", "yelp"]
    case Testimony => ["testimony", "hearing", "town hall"]
    case ShareholderAction => ["shareholder", "proxy", "investor", "esg"]
    case Boycott => ["boycott", "alternative"]
    case SeoArticle => ["seo", "article", "blog"]
    case OsintResearch => ["osint", "corporate filing", "permit", "record"]
    case SatelliteAnalysis => ["satellite", "imagery"]
    case CitizenSuit => ["citizen suit", "lawsuit", "legal action", "court"]
    case ContentCreation => ["content", "video", "op-ed", "documentary", "podcast"]
  }

  /** `any(kw in s for kw in keywords)`. */
  function AnyIn(keywords: seq<string>, s: string): (b: bool)
    ensures b <==> exists k :: 0 <= k < |keywords| && Contains(s, keywords[k])
  {
    if |keywords| == 0 then false
    else
      assert forall k :: 1 <= k < |keywords| ==> keywords[k] == keywords[1..][k - 1];
      Contains(s, keywords[0]) || AnyIn(keywords[1..], s)
  }

  /** The first of `order` with a keyword in `s`. */
  function FirstMatch(order: seq<ActionType>, s: string): Option<ActionType>
  {
    if |order| == 0 then None
    else if AnyIn(Keywords(order[0]), s) then Some(order[0])
    else FirstMatch(order[1..], s)
  }

  /** `FirstMatch` finds a type with a keyword in `s` before which no type
      has one, and it finds nothing only when no type has one. */
  lemma {:induction false} FirstMatchIsFirst(order: seq<ActionType>, s: string)
    ensures FirstMatch(order, s).Some? ==> exists i :: (0 <= i < |order| && AnyIn(Keywords(order[i]), s) &&
      FirstMatch(order, s).value == order[i] && forall j :: 0 <= j < i ==> !AnyIn(Keywords(order[j]), s))
    ensures FirstMatch(order, s).None? <==> forall j :: 0 <= j < |order| ==> !AnyIn(Keywords(order[j]), s)
  {
    if |order| > 0 && !AnyIn(Keywords(order[0]), s) {
      FirstMatchIsFirst(order[1..], s);
      assert forall j :: 1 <= j < |order| ==> order[j] == order[1..][j - 1];
      if FirstMatch(order, s).Some? {
        var i :| 0 <= i < |order[1..]| && AnyIn(Keywords(order[1..][i]), s) &&
          FirstMatch(order, s).value == order[1..][i] && forall j :: 0 <= j < i ==> !AnyIn(Keywords(order[1..][j]), s);
        assert order[i + 1] == order[1..][i];
      }
    }
  }

  /** What `_infer_action_type` returns: the first type in table order with
      a keyword in the lower-cased tactic, content creation when none has. */
  function InferredType(tactic: string): ActionType
  {
    var m := FirstMatch(KeywordOrder, Lower(tactic));
    if m.Some? then m.value else ContentCreation
  }

  /** `_infer_action_type`. */
  method InferActionType(tactic: string) returns (t: ActionType)
    ensures t == InferredType(tactic)
  {
    var lower := Lower(tactic);
    for i := 0 to |KeywordOrder|
      invariant FirstMatch(KeywordOrder[i..], lower) == FirstMatch(KeywordOrder, lower)
    {
      assert KeywordOrder[i..][1..] == KeywordOrder[i + 1..];
      var candidate := KeywordOrder[i];
      if AnyIn(Keywords(candidate), lower) {
        return candidate;
      }
    }
    return ContentCreation;
  }

  /** A tactic mentioning "email" or "letter", in any case, is an e-mail. */
  lemma EmailKeywordsWin(tactic: string)
    requires Contains(Lower(tactic), "email") || Contains(Lower(tactic), "letter")
    ensures InferredType(tactic) == Email
  {
    var kws := Keywords(Email);
    assert kws[0] == "email" && kws[1] == "letter";
    assert AnyIn(kws, Lower(tactic));
  }

  /** The inferred type is the type of a row that matches with no earlier
      row matching, or content creation when no row matches at all. */
  lemma InferredTypeIsFirstMatch(tactic: string)
    ensures (exists i :: (0 <= i < |KeywordOrder| && AnyIn(Keywords(KeywordOrder[i]), Lower(tactic)) &&
              InferredType(tactic) == KeywordOrder[i] &&
              forall j :: 0 <= j < i ==> !AnyIn(Keywords(KeywordOrder[j]), Lower(tactic)))) ||
            ((forall j :: 0 <= j < |KeywordOrder| ==> !AnyIn(Keywords(KeywordOrder[j]), Lower(tactic))) &&
             InferredType(tactic) == ContentCreation)
  {
    FirstMatchIsFirst(KeywordOrder, Lower(tactic));
  }

  /** The table of `_estimate_minutes`. */
  const MinuteEstimates: map<ActionType, int> := map[
    PhoneCall := 5, Email := 15, SocialPost := 10, Review := 15, PublicComment := 30,
    Testimony := 120, FoiaRequest := 120, ShareholderAction := 240, Boycott := 15,
    ContentCreation := 120, SeoArticle := 180, OsintResearch := 240, SatelliteAnalysis := 180,
    CitizenSuit := 480]

  /** `_estimate_minutes`: the table's entry, or 30 for a type it lacks. */
  function EstimateMinutes(t: ActionType): int
  {
    if t in MinuteEstimates then MinuteEstimates[t] else 30
  }

  /** The table covers every type, so the default is never used, and it
      agrees with the minutes of the action generator's blueprints. */
  lemma EstimatesMatchBlueprints(t: ActionType)
    ensures t in MinuteEstimates
    ensures EstimateMinutes(t) == ActionGenerator.BlueprintOf(t).minutes
  {
    match t
    case PhoneCall =>
    case Email =>
    case SocialPost =>
    case PublicComment =>
    case FoiaRequest =>
    case Review =>
    case Testimony =>
    case ContentCreation =>
    case SeoArticle =>
    case OsintResearch =>
    case ShareholderAction =>
    case SatelliteAnalysis =>
    case CitizenSuit =>
    case Boycott =>
  }

  /** `_suggest_template`: the table's path for the type, or none. */
  function SuggestTemplate(t: ActionType): Option<string>
  {
    match t
    case Email => Some("email_templates/corporate_ceo.txt")
    case PhoneCall => Some("phone_scripts/congressional_call.txt")
    case SocialPost => Some("social_templates/twitter_thread.txt")
    case PublicComment => Some("email_templates/public_comment.txt")
    case Review => Some("review_templates/google_review.txt")
    case _ => None
  }

  /** A path is suggested for e-mails, calls, social posts, public comments
      and reviews only; it is the blueprint's path for every type but a
      shareholder action, whose blueprint names a template this table lacks. */
  lemma SuggestTemplateCases(t: ActionType)
    ensures SuggestTemplate(t).Some? <==> t in {Email, PhoneCall, SocialPost, PublicComment, Review}
    ensures t != ShareholderAction <==> SuggestTemplate(t) == ActionGenerator.BlueprintOf(t).templateName
  {
  }

  // ---------------------------------------------------------------------
  // Phase actions
  // ---------------------------------------------------------------------

  /** The first phase of the ladder with the number, if any. */
  function FindPhase(ladder: seq<Phase>, n: int): (r: Option<Phase>)
    ensures r.None? <==> forall i :: 0 <= i < |ladder| ==> ladder[i].number != n
    ensures r.Some? ==> exists i :: (0 <= i < |ladder| && ladder[i] == r.value && ladder[i].number == n &&
                                     forall j :: 0 <= j < i ==> ladder[j].number != n)
  {
    if |ladder| == 0 then None
    else if ladder[0].number == n then Some(ladder[0])
    else
      var r := FindPhase(ladder[1..], n);
      assert forall i :: 1 <= i < |ladder| ==> ladder[i] == ladder[1..][i - 1];
      assert r.Some? ==> exists i :: (0 <= i < |ladder| && ladder[i] == r.value && ladder[i].number == n &&
                                      forall j :: 0 <= j < i ==> ladder[j].number != n) by {
        if r.Some? {
          var i :| 0 <= i < |ladder[1..]| && ladder[1..][i] == r.value && ladder[1..][i].number == n &&
            forall j :: 0 <= j < i ==> ladder[1..][j].number != n;
          assert ladder[i + 1] == ladder[1..][i];
        }
      }
      r
  }

  /** `f"Phase {phase_number}: {tactic[:80]}"`. */
  function PhaseTitle(n: int, tactic: string): string
  {
    "Phase " + IntToString(n) + ": " + Take(tactic, 80)
  }

  /** A title is "Phase ", the phase number (digits and perhaps a minus
      sign, so no colon), ": " and the first 80 characters of the tactic. */
  lemma PhaseTitleParts(n: int, tactic: string)
    ensures var t := PhaseTitle(n, tactic);
      var k := 6 + |IntToString(n)|;
      |t| == k + 2 + Min(80, |tactic|) && t[..6] == "Phase " && t[6..k] == IntToString(n) &&
      t[k] == ':' && t[k + 1] == ' ' && t[k + 2..] == Take(tactic, 80) &&
      forall i :: 6 <= i < k ==> t[i] != ':'
  {
    var a, b, rest := "Phase ", IntToString(n), ": " + Take(tactic, 80);
    var t := PhaseTitle(n, tactic);
    assert t == a + b + rest;
    assert forall i :: 6 <= i < 6 + |b| ==> t[i] == b[i - 6];
  }

  /** Titles of different phases differ. */
  lemma PhaseTitlesDiffer(m: int, n: int, tactic: string, tactic': string)
    requires PhaseTitle(m, tactic) == PhaseTitle(n, tactic')
    ensures m == n
  {
    PhaseTitleParts(m, tactic);
    PhaseTitleParts(n, tactic');
    var t := PhaseTitle(m, tactic);
    assert |IntToString(m)| == |IntToString(n)|;
    assert IntToString(m) == t[6..6 + |IntToString(m)|] == IntToString(n);
    IntToStringInjective(m, n);
  }

  /** The description of a targeted action: the tactic, then the target's
      name and, when it has a non-empty one, its organization. */
  function TargetDescription(tactic: string, t: Target): string
  {
    tactic + "\n\nTarget: " + t.name +
    (if t.organization.Some? && |t.organization.value| > 0 then " (" + t.organization.value + ")" else "")
  }

  /** `Text(x)` for a present string, `Null` for `None`. */
  function OptText(o: Option<string>): VarValue
  {
    if o.Some? then Text(o.value) else Null
  }

  /** The template variables of a targeted action, in dictionary order. */
  function TargetVars(t: Target): seq<(string, VarValue)>
  {
    [("target_name", Text(t.name)), ("target_org", OptText(t.organization)), ("target_role", OptText(t.titleRole)),
     ("contacts", Dict(t.contacts)), ("social", Text(t.social))]
  }

  /** `if targets:` — a list of targets was given and it is not empty. */
  predicate TargetsGiven(targets: Option<seq<Target>>)
  {
    targets.Some? && |targets.value| > 0
  }

  /** One action per target when targets are given, else one untargeted. */
  function Choices(targets: Option<seq<Target>>): (r: seq<Option<Target>>)
    ensures |r| == if TargetsGiven(targets) then |targets.value| else 1
  {
    if TargetsGiven(targets) then ActionGenerator.Wrap(targets.value) else [None]
  }

  /** The action for one tactic of phase `n` and one target choice, stored
      with the store's defaults (available, no deadline, not completed). */
  function PhaseAction(c: Campaign, n: int, tactic: string, choice: Option<Target>): Action
  {
    var t := InferredType(tactic);
    Action(c.id, t, PhaseTitle(n, tactic),
           if choice.Some? then TargetDescription(tactic, choice.value) else tactic,
           SuggestTemplate(t),
           if choice.Some? then TargetVars(choice.value) else [],
           EstimateMinutes(t), n, Available, None, None)
  }

  /** `PhaseAction` for the campaign and the phase, as a function value. */
  function PhaseMaker(c: Campaign, n: int): (string, Option<Target>) -> Action
  {
    (tactic, choice) => PhaseAction(c, n, tactic, choice)
  }

  /** `generate_phase_actions`: no actions for an empty ladder, an error when
      no phase has the number, else the phase's actions, tactic by tactic,
      one per choice. */
  function PhaseActions(c: Campaign, n: int, targets: Option<seq<Target>>): Result<seq<Action>, string>
  {
    if |c.escalationLadder| == 0 then Ok([])
    else
      var p := FindPhase(c.escalationLadder, n);
      if p.None? then Err("Phase " + IntToString(n) + " not found in campaign escalation ladder")
      else Ok(Grid(p.value.tactics, Choices(targets), PhaseMaker(c, n)))
  }

  /** An empty ladder gives no actions; otherwise the only error is a phase
      number the ladder lacks. */
  lemma PhaseActionsOutcome(c: Campaign, n: int, targets: Option<seq<Target>>)
    ensures |c.escalationLadder| == 0 ==> PhaseActions(c, n, targets) == Ok([])
    ensures PhaseActions(c, n, targets).Err? <==>
      |c.escalationLadder| > 0 && forall i :: 0 <= i < |c.escalationLadder| ==> c.escalationLadder[i].number != n
  {
  }

  /** The phase found is the first one with the number. */
  lemma FindsFirstPhase(ladder: seq<Phase>, n: int, i: nat)
    requires i < |ladder| && ladder[i].number == n
    requires forall h :: 0 <= h < i ==> ladder[h].number != n
    ensures FindPhase(ladder, n) == Some(ladder[i])
  {
    var found := FindPhase(ladder, n);
    var i' :| 0 <= i' < |ladder| && ladder[i'] == found.value &&
      ladder[i'].number == n && forall h :: 0 <= h < i' ==> ladder[h].number != n;
    assert i' == i;
  }

  /** For the first phase numbered `n`, the actions are those of its
      tactics, tactic by tactic, one per target choice. */
  lemma PhaseActionsFound(c: Campaign, n: int, targets: Option<seq<Target>>, i: nat)
    requires i < |c.escalationLadder| && c.escalationLadder[i].number == n
    requires forall h :: 0 <= h < i ==> c.escalationLadder[h].number != n
    ensures PhaseActions(c, n, targets) == Ok(Grid(c.escalationLadder[i].tactics, Choices(targets), PhaseMaker(c, n)))
  {
    FindsFirstPhase(c.escalationLadder, n, i);
  }

  /** The `j`-th choice is the `j`-th target when targets are given, and the
      only choice is no target otherwise. */
  lemma ChoiceAt(targets: Option<seq<Target>>, j: nat)
    requires j < |Choices(targets)|
    ensures Choices(targets)[j] == if TargetsGiven(targets) then Some(targets.value[j]) else None
  {
  }

  /** There is one action per tactic and target (one per tactic without
      targets), tactic by tactic: the one for tactic `k` and target `j` is
      that tactic's action for that target. */
  lemma PhaseActionAt(c: Campaign, n: int, tactics: seq<string>, targets: Option<seq<Target>>, k: nat, j: nat)
    requires k < |tactics| && j < |Choices(targets)|
    ensures |Grid(tactics, Choices(targets), PhaseMaker(c, n))| == |tactics| * |Choices(targets)|
    ensures 0 <= k * |Choices(targets)| + j < |Grid(tactics, Choices(targets), PhaseMaker(c, n))|
    ensures Grid(tactics, Choices(targets), PhaseMaker(c, n))[k * |Choices(targets)| + j] ==
      PhaseAction(c, n, tactics[k], if TargetsGiven(targets) then Some(targets.value[j]) else None)
  {
    GridAt(tactics, Choices(targets), PhaseMaker(c, n), k, j);
    MulIsMonotone(0, k, |Choices(targets)|);
    ChoiceAt(targets, j);
  }

  /** A phase action belongs to the campaign, has the phase number as its
      priority and the phase title, is of the tactic's inferred type with the
      minutes of that type's blueprint, and is open. Its description is the
      tactic, followed by the target's details when it has one. */
  lemma PhaseActionFields(c: Campaign, n: int, tactic: string, choice: Option<Target>)
    ensures var a := PhaseAction(c, n, tactic, choice);
      a.campaignId == c.id && a.priority == n && a.title == PhaseTitle(n, tactic) &&
      a.actionType == InferredType(tactic) &&
      a.estimatedMinutes == ActionGenerator.BlueprintOf(a.actionType).minutes &&
      a.status == Available && a.deadline.None? && a.completedAt.None? &&
      |tactic| <= |a.description| && a.description[..|tactic|] == tactic &&
      (choice.None? <==> a.description == tactic && a.templateVars == [])
  {
    EstimatesMatchBlueprints(InferredType(tactic));
    var a := PhaseAction(c, n, tactic, choice);
    if choice.Some? {
      assert |a.templateVars| == 5;
    }
  }

  /** The target loop of `generate_phase_actions`: one action per target, in
      order, of the tactic's type, minutes and template, with the phase
      number as priority and the title, description and variables of its
      target. */
  method TargetActions(c: Campaign, n: int, tactic: string, ts: seq<Target>, actionType: ActionType,
                       minutes: int, templateName: Option<string>, title: string) returns (row: seq<Action>)
    ensures |row| == |ts|
    ensures forall j :: 0 <= j < |ts| ==>
      row[j] == Action(c.id, actionType, title, TargetDescription(tactic, ts[j]), templateName,
                       TargetVars(ts[j]), minutes, n, Available, None, None)
  {
    row := [];
    for j := 0 to |ts|
      invariant |row| == j
      invariant forall i :: 0 <= i < j ==>
        row[i] == Action(c.id, actionType, title, TargetDescription(tactic, ts[i]), templateName,
                         TargetVars(ts[i]), minutes, n, Available, None, None)
    {
      var target := ts[j];
      var action := Action(c.id, actionType, title, TargetDescription(tactic, target), templateName,
                           TargetVars(target), minutes, n, Available, None, None);
      row := row + [action];
    }
  }

  /** The body of the tactic loop of `generate_phase_actions`. */
  method ActionsForTactic(c: Campaign, n: int, tactic: string, targets: Option<seq<Target>>) returns (row: seq<Action>)
    ensures row == Row(tactic, Choices(targets), PhaseMaker(c, n))
  {
    var actionType := InferActionType(tactic);
    var minutes := EstimateMinutes(actionType);
    var templateName := SuggestTemplate(actionType);
    var title := PhaseTitle(n, tactic);
    ghost var choices := Choices(targets);
    if targets.Some? && |targets.value| > 0 {
      row := TargetActions(c, n, tactic, targets.value, actionType, minutes, templateName, title);
      forall j | 0 <= j < |choices|
        ensures row[j] == PhaseMaker(c, n)(tactic, choices[j])
      {
        ChoiceAt(targets, j);
      }
    } else {
      row := [Action(c.id, actionType, title, tactic, templateName, [], minutes, n, Available, None, None)];
      assert choices == [None];
      assert row[0] == PhaseMaker(c, n)(tactic, choices[0]);
    }
    RowOfPoints(tactic, choices, PhaseMaker(c, n), row);
  }

  /** `generate_phase_actions`. */
  method GeneratePhaseActions(c: Campaign, n: int, targets: Option<seq<Target>>) returns (r: Result<seq<Action>, string>)
    ensures r == PhaseActions(c, n, targets)
  {
    var ladder := c.escalationLadder;
    if |ladder| == 0 {
      return Ok([]);
    }
    var i := 0;
    while i < |ladder| && ladder[i].number != n
      invariant 0 <= i <= |ladder|
      invariant forall h :: 0 <= h < i ==> ladder[h].number != n
    {
      i := i + 1;
    }
    if i == |ladder| {
      return Err("Phase " + IntToString(n) + " not found in campaign escalation ladder");
    }
    var phase := ladder[i];
    FindsFirstPhase(ladder, n, i);
    ghost var choices := Choices(targets);
    var actions: seq<Action> := [];
    for k := 0 to |phase.tactics|
      invariant actions == Grid(phase.tactics[..k], choices, PhaseMaker(c, n))
    {
      GridSnoc(phase.tactics, choices, PhaseMaker(c, n), k);
      var row := ActionsForTactic(c, n, phase.tactics[k], targets);
      actions := actions + row;
    }
    assert phase.tactics[..|phase.tactics|] == phase.tactics;
    return Ok(actions);
  }

  // ---------------------------------------------------------------------
  // Listing the campaign types
  // ---------------------------------------------------------------------

  /** One entry of `list_campaign_types`. */
  datatype TypeSummary = TypeSummary(
    typeValue: string,
    channels: seq<string>,
    phases: int,
    totalWeeks: int,
    actionTypes: seq<string>)

  /** The entry for one campaign type and its template. */
  function SummaryOf(ct: CampaignType, t: Template): TypeSummary
  {
    TypeSummary(ct.Value(), ChannelValues(t.channels), |t.ladder|, SumWeeks(t.ladder), TypeValues(t.actionTypes))
  }

  /** The entries for the types, in order, from their templates. */
  function TypeSummaries(cts: seq<CampaignType>, templates: CampaignType -> Template): (r: seq<TypeSummary>)
    ensures |r| == |cts| && forall k :: 0 <= k < |cts| ==> r[k] == SummaryOf(cts[k], templates(cts[k]))
  {
    if |cts| == 0 then [] else TypeSummaries(cts[..|cts| - 1], templates) + [SummaryOf(cts[|cts| - 1], templates(cts[|cts| - 1]))]
  }

  /** The loop body of `list_campaign_types`. */
  method Summarize(ct: CampaignType) returns (entry: TypeSummary)
    ensures entry == SummaryOf(ct, TemplateOf(ct))
  {
    var template := TemplateOf(ct);
    entry := TypeSummary(ct.Value(), ChannelValues(template.channels), |template.ladder|,
                         SumWeeks(template.ladder), TypeValues(template.actionTypes));
  }

  /** `list_campaign_types`: one entry per template, in table order. */
  method ListCampaignTypes() returns (summaries: seq<TypeSummary>)
    ensures summaries == TypeSummaries(TemplateOrder, TemplateOf)
  {
    summaries := [];
    for i := 0 to |TemplateOrder|
      invariant summaries == TypeSummaries(TemplateOrder[..i], TemplateOf)
    {
      assert TemplateOrder[..i + 1][..i] == TemplateOrder[..i];
      var entry := Summarize(TemplateOrder[i]);
      summaries := summaries + [entry];
    }
    assert TemplateOrder[..|TemplateOrder|] == TemplateOrder;
  }

  /** The entry of a campaign type names the type, counts four phases for a
      corporate campaign and three for the others, and totals its ladder's
      weeks: 20, 13, 22, 16 and 18 weeks in table order. */
  lemma SummaryFacts(ct: CampaignType)
    ensures var e := SummaryOf(ct, TemplateOf(ct));
      e.typeValue == ct.Value() && e.phases == (if ct == Corporate then 4 else 3) &&
      e.totalWeeks == match ct
        case Corporate => 20 case Legislative => 13 case Regulatory => 22
        case Investigation => 16 case Cultural => 18
  {
    TemplateLadders(ct);
    match ct
    case Corporate => CorporateLadder();
    case Legislative => LegislativeLadder();
    case Regulatory => RegulatoryLadder();
    case Investigation => InvestigationLadder();
    case Cultural => CulturalLadder();
  }

  /** The listing names every campaign type exactly once. */
  lemma TemplateOrderCoversTypes()
    ensures forall ct: CampaignType :: ct in TemplateOrder
    ensures forall i, j :: 0 <= i < j < |TemplateOrder| ==> TemplateOrder[i] != TemplateOrder[j]
  {
    forall ct: CampaignType ensures ct in TemplateOrder {
      match ct
      case Corporate => assert TemplateOrder[0] == ct;
      case Legislative => assert TemplateOrder[1] == ct;
      case Regulatory => assert TemplateOrder[2] == ct;
      case Investigation => assert TemplateOrder[3] == ct;
      case Cultural => assert TemplateOrder[4] == ct;
    }
  }
}
