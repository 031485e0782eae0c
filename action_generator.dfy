/** The action generator: matches volunteers to right-sized actions by the
    time they have, their skills and the campaign's tactics. */
module ActionGenerator {

  import opened Base
  import opened Strings
  import opened Sorting
  import opened Models
  import opened Lists

  // ---------------------------------------------------------------------
  // Time tiers
  // ---------------------------------------------------------------------

  datatype TimeTier = Quick | Short | Medium | Long

  /** The tiers from shortest to longest. */
  function TierRank(t: TimeTier): nat
  {
    match t
    case Quick => 0
    case Short => 1
    case Medium => 2
    case Long => 3
  }

  /** `TIME_TIERS[tier][0]`: the most minutes the tier is meant for. */
  function TierMinutes(t: TimeTier): nat
  {
    match t
    case Quick => 5
    case Short => 15
    case Medium => 30
    case Long => 120
  }

  /** `TIME_TIERS[tier][1]`: the action types a tier offers, in order. */
  function TierTypes(t: TimeTier): seq<ActionType>
  {
    match t
    case Quick => [PhoneCall, SocialPost]
    case Short => [Email, Review, SocialPost, PhoneCall]
    case Medium => [PublicComment, Email, Review, SocialPost, PhoneCall, ContentCreation]
    case Long => [FoiaRequest, Testimony, ContentCreation, SeoArticle, OsintResearch,
                  ShareholderAction, PublicComment, Email, Review, SocialPost, PhoneCall]
  }

  /** `get_time_tier`: the shortest tier meant for at least the minutes
      available, or the longest tier when none is. */
  function GetTimeTier(minutes: int): (t: TimeTier)
    ensures minutes <= TierMinutes(t) || t == Long
    ensures forall u :: TierRank(u) < TierRank(t) ==> TierMinutes(u) < minutes
  {
    if minutes <= 5 then Quick
    else if minutes <= 15 then Short
    else if minutes <= 30 then Medium
    else Long
  }

  /** More time never lands in a shorter tier, and a longer tier offers
      every type a shorter one does. */
  lemma TiersGrowWithTime(m1: int, m2: int)
    requires m1 <= m2
    ensures TierRank(GetTimeTier(m1)) <= TierRank(GetTimeTier(m2))
    ensures forall a :: a in TierTypes(GetTimeTier(m1)) ==> a in TierTypes(GetTimeTier(m2))
  {
  }

  // ---------------------------------------------------------------------
  // Blueprints
  // ---------------------------------------------------------------------

  /** An entry of `ACTION_BLUEPRINTS` without its description template. */
  datatype Blueprint = Blueprint(minutes: nat, templateName: Option<string>, skills: seq<string>)

  function BlueprintOf(t: ActionType): Blueprint
  {
    match t
    case PhoneCall => Blueprint(5, Some("phone_scripts/congressional_call.txt"), [])
    case Email => Blueprint(15, Some("email_templates/corporate_ceo.txt"), ["writing"])
    case SocialPost => Blueprint(10, Some("social_templates/twitter_thread.txt"), ["social_media"])
    case PublicComment => Blueprint(30, Some("email_templates/public_comment.txt"), ["writing", "research"])
    case FoiaRequest => Blueprint(120, None, ["legal", "research"])
    case Review => Blueprint(15, Some("review_templates/google_review.txt"), [])
    case Testimony => Blueprint(120, None, ["writing", "research"])
    case ContentCreation => Blueprint(120, None, ["writing", "design"])
    case SeoArticle => Blueprint(180, None, ["writing", "research"])
    case OsintResearch => Blueprint(240, None, ["research", "data_analysis"])
    case ShareholderAction => Blueprint(240, Some("email_templates/investor_relations.txt"), ["research"])
    case SatelliteAnalysis => Blueprint(180, None, ["research", "data_analysis"])
    case CitizenSuit => Blueprint(480, None, ["legal", "research"])
    case Boycott => Blueprint(15, None, [])
  }

  /** A blueprint's `description_template`. */
  function DescriptionTemplate(t: ActionType): string
  {
    match t
    case PhoneCall =>
      "Call {target_name} at {phone_number}.\n\n" +
      "Use the provided phone script. Key points:\n" +
      "1. Identify yourself as a constituent/customer/stakeholder\n" +
      "2. State your specific ask clearly\n" +
      "3. Ask for a commitment or timeline\n" +
      "4. Log the response\n\n" +
      "Expected duration: 3-5 minutes including hold time."
    case Email =>
      "Send a personalized email to {target_name} ({target_email}).\n\n" +
      "Use the template as a starting point but personalize:\n" +
      "- Reference a specific incident, report, or finding\n" +
      "- Include your personal connection to the issue\n" +
      "- Make one clear, specific ask\n" +
      "- Be professional but direct\n\n" +
      "Personalizing emails 10x more effective than form letters."
    case SocialPost =>
      "Post about {campaign_name} on social media.\n\n" +
      "Effective social pressure tactics:\n" +
      "- Tag the company/official directly\n" +
      "- Include specific evidence (photos, data, documents)\n" +
      "- Use campaign hashtag: #{hashtag}\n" +
      "- Tag journalists and allied orgs for amplification\n" +
      "- Post during peak hours (9-11am, 7-9pm target timezone)\n\n" +
      "Social posts are most effective when coordinated with others."
    case PublicComment =>
      "Submit a public comment on {regulation_name}.\n\n" +
      "Docket: {docket_number}\n" +
      "Deadline: {comment_deadline}\n\n" +
      "Substantive comments that agencies must respond to:\n" +
      "- Cite specific data, studies, or documented conditions\n" +
      "- Reference the agency's own stated goals or legal mandates\n" +
      "- Propose specific regulatory language or standards\n" +
      "- Describe concrete harms from current policy\n\n" +
      "IMPORTANT: Each comment must be unique. Do not copy templates verbatim.\n" +
      "Agencies weigh substantive comments, not volume of form letters."
    case FoiaRequest =>
      "File a FOIA request with {agency_name}.\n\n" +
      "Requesting: {foia_subject}\n\n" +
      "Key elements for an effective FOIA:\n" +
      "- Be specific about records sought (dates, topics, officials)\n" +
      "- Request fee waiver citing public interest\n" +
      "- Request expedited processing if deadline-relevant\n" +
      "- Include all required elements per agency regulations\n" +
      "- File with the correct FOIA office for the records sought\n\n" +
      "Track your request number and follow up at 20-day mark."
    case Review =>
      "Post a factual review about {target_name}.\n\n" +
      "Review guidelines:\n" +
      "- Base every claim on documented facts\n" +
      "- Reference specific reports, inspections, or incidents\n" +
      "- Include dates and sources where possible\n" +
      "- Describe personal experience or documented conditions\n" +
      "- Stay factual -- emotional but accurate\n\n" +
      "Reviews that cite verifiable facts are harder to remove."
    case Testimony =>
      "Prepare testimony for {hearing_name}.\n\n" +
      "Hearing date: {hearing_date}\n" +
      "Committee: {committee_name}\n\n" +
      "Effective testimony structure:\n" +
      "1. Personal introduction and standing\n" +
      "2. One clear main point (repeat it)\n" +
      "3. Supporting evidence (3 specific examples max)\n" +
      "4. Concrete policy recommendation\n" +
      "5. Memorable closing statement\n\n" +
      "Keep to 3 minutes unless allocated more time.\n" +
      "Practice aloud. Bring printed copies for committee members."
    case ContentCreation =>
      "Create content for {campaign_name}.\n\n" +
      "Content type: {content_type}\n" +
      "Target audience: {audience}\n\n" +
      "Content should:\n" +
      "- Lead with the most compelling evidence\n" +
      "- Include a clear call to action\n" +
      "- Be shareable (under 3 min for video, scannable for text)\n" +
      "- Cite sources for all claims\n" +
      "- Use accessible language (8th grade reading level)"
    case SeoArticle =>
      "Write an SEO-optimized article targeting: '{target_keyword}'.\n\n" +
      "Goal: Rank on first page for searches about {topic}.\n\n" +
      "Article requirements:\n" +
      "- 1500-2500 words\n" +
      "- Primary keyword in title, H1, first paragraph, and conclusion\n" +
      "- 3-5 secondary keywords naturally integrated\n" +
      "- At least 5 authoritative outbound links\n" +
      "- Meta description under 160 characters\n" +
      "- Include original data, charts, or images\n\n" +
      "Publish on: {publication_target}"
    case OsintResearch =>
      "Conduct open-source research on {research_target}.\n\n" +
      "Research areas:\n" +
      "- Corporate filings (SEC EDGAR, state registrations)\n" +
      "- Permit records and inspection reports\n" +
      "- Environmental compliance databases\n" +
      "- Lobbying disclosures and political donations\n" +
      "- Social media presence of key executives\n" +
      "- News archive search for past incidents\n\n" +
      "Document all findings with source URLs and screenshots.\n" +
      "Use the evidence template for consistent formatting."
    case ShareholderAction =>
      "Take shareholder action regarding {target_name}.\n\n" +
      "Options based on share ownership:\n" +
      "- Direct inquiry to investor relations\n" +
      "- Proxy statement analysis and vote recommendation\n" +
      "- ESG rating agency submission\n" +
      "- Shareholder resolution drafting (requires $2K+ in shares)\n\n" +
      "Even non-shareholders can contact investor relations with\n" +
      "factual inquiries about ESG risks and material disclosures."
    case SatelliteAnalysis =>
      "Analyze satellite imagery of {facility_name}.\n\n" +
      "Location: {coordinates}\n\n" +
      "Look for:\n" +
      "- Facility expansion beyond permitted boundaries\n" +
      "- Waste lagoon conditions and overflow indicators\n" +
      "- Changes over time (compare historical imagery)\n" +
      "- Environmental impact on surrounding land/water\n\n" +
      "Tools: Google Earth Pro (free), Sentinel Hub, Planet Explorer\n" +
      "Document findings with timestamped screenshots."
    case CitizenSuit =>
      "Evaluate citizen suit potential against {target_name}.\n\n" +
      "Statute: {applicable_statute}\n" +
      "Violation: {violation_description}\n\n" +
      "Citizen suit checklist:\n" +
      "1. Confirm statutory standing (CWA, CAA, RCRA allow citizen suits)\n" +
      "2. Document ongoing or repeated violations\n" +
      "3. Verify 60-day notice requirement\n" +
      "4. Check for government diligent prosecution bar\n" +
      "5. Identify potential legal partners (environmental law clinics)\n\n" +
      "This is a research/evaluation task. Do not file without legal counsel."
    case Boycott =>
      "Participate in boycott of {target_name}.\n\n" +
      "Actions:\n" +
      "- Switch to alternatives: {alternatives}\n" +
      "- Share boycott information on social media\n" +
      "- Contact company to explain why you are boycotting\n" +
      "- Track and report your participation\n\n" +
      "Boycotts work when companies see measurable revenue impact."
  }

  /** The medium tier lists content creation, but its two hours never fit a
      medium budget; likewise a social post never fits the quick tier. */
  lemma TierTypesThatNeverFit(minutes: int)
    ensures GetTimeTier(minutes) == Medium ==> BlueprintOf(ContentCreation).minutes > minutes
    ensures GetTimeTier(minutes) == Quick ==> BlueprintOf(SocialPost).minutes > minutes
  {
  }

  // ---------------------------------------------------------------------
  // Template variables and descriptions
  // ---------------------------------------------------------------------

  /** `d.get(k, default)`. */
  function Get(m: map<string, string>, k: string, default: string): string
  {
    if k in m then m[k] else default
  }

  /** `x or ""` for an optional string. */
  function OrEmpty(o: Option<string>): string
  {
    if o.Some? then o.value else ""
  }

  predicate DistinctKeys(vars: seq<(string, string)>)
  {
    forall i, j :: 0 <= i < j < |vars| ==> vars[i].0 != vars[j].0
  }

  /** `_build_template_vars`: the campaign's name, goal and hashtag, and with
      a target its name, organization, role, e-mail, phone and social
      accounts, in that dictionary order with every value already `str()`-ed. */
  function TemplateVars(c: Campaign, target: Option<Target>): (vars: seq<(string, string)>)
    ensures DistinctKeys(vars)
    ensures |vars| == if target.Some? then 9 else 3
    ensures vars[2].0 == "hashtag" && '-' !in vars[2].1
  {
    ReplaceOneChar(c.slug, '-', "");
    var base := [("campaign_name", c.name), ("campaign_goal", c.goal), ("hashtag", ReplaceAll(c.slug, "-", ""))];
    if target.None? then base
    else
      var t := target.value;
      base + [
        ("target_name", t.name),
        ("target_org", OrEmpty(t.organization)),
        ("target_role", OrEmpty(t.titleRole)),
        ("target_email", Get(t.contacts, "email", "[email]")),
        ("phone_number", Get(t.contacts, "phone", "[phone]")),
        ("social", t.social)]
  }

  /** `{key}`. */
  function Placeholder(key: string): string
  {
    "{" + key + "}"
  }

  /** The template after replacing the placeholder of every variable in
      turn, each replacement working on the result of the one before. */
  function Filled(template: string, vars: seq<(string, string)>): string
  {
    if |vars| == 0 then template
    else
      var n := |vars| - 1;
      ReplaceAll(Filled(template, vars[..n]), Placeholder(vars[n].0), vars[n].1)
  }

  /** `_fill_description`. */
  method FillDescription(template: string, vars: seq<(string, string)>) returns (r: string)
    ensures r == Filled(template, vars)
  {
    r := template;
    for i := 0 to |vars|
      invariant r == Filled(template, vars[..i])
    {
      assert vars[..i + 1][..i] == vars[..i];
      r := ReplaceAll(r, Placeholder(vars[i].0), vars[i].1);
    }
    assert vars[..|vars|] == vars;
  }

  /** Placeholders of keys that are not variables are left as they are: a
      template holding no variable's placeholder comes back unchanged. */
  lemma {:induction false} FilledUntouched(template: string, vars: seq<(string, string)>)
    requires forall i :: 0 <= i < |vars| ==> !Contains(template, Placeholder(vars[i].0))
    ensures Filled(template, vars) == template
  {
    if |vars| > 0 {
      var n := |vars| - 1;
      FilledUntouched(template, vars[..n]);
      ReplaceAbsent(template, Placeholder(vars[n].0), vars[n].1);
    }
  }

  /** So a template without a `{` comes back unchanged. */
  lemma NoBracesNoChange(template: string, vars: seq<(string, string)>)
    requires '{' !in template
    ensures Filled(template, vars) == template
  {
    forall i | 0 <= i < |vars| ensures !Contains(template, Placeholder(vars[i].0)) {
      if Contains(template, Placeholder(vars[i].0)) {
        ContainsFirstChar(template, Placeholder(vars[i].0));
      }
    }
    FilledUntouched(template, vars);
  }

  /** Every character of a filled description comes from the template or
      from one of the values. */
  lemma {:induction false} FilledChars(template: string, vars: seq<(string, string)>, ch: char)
    requires ch in Filled(template, vars)
    ensures ch in template || exists i :: 0 <= i < |vars| && ch in vars[i].1
  {
    if |vars| > 0 {
      var n := |vars| - 1;
      ReplaceChars(Filled(template, vars[..n]), Placeholder(vars[n].0), vars[n].1, ch);
      if ch in Filled(template, vars[..n]) {
        FilledChars(template, vars[..n], ch);
        if !(ch in template) {
          var i :| 0 <= i < n && ch in vars[..n][i].1;
          assert vars[i] == vars[..n][i];
        }
      }
    }
  }

  /** A key without braces. */
  predicate PlainKey(key: string)
  {
    '{' !in key && '}' !in key
  }

  /** The placeholder of one plain key never starts the placeholder of
      another plain key, whatever follows it. */
  lemma PlaceholderNotPrefix(k1: string, k2: string, b: string)
    requires k1 != k2 && PlainKey(k1) && PlainKey(k2)
    ensures var p, q := Placeholder(k1), Placeholder(k2) + b;
      !(|p| <= |q| && q[..|p|] == p)
  {
    var p, q := Placeholder(k1), Placeholder(k2) + b;
    if |p| <= |q| {
      if |k1| < |k2| {
        assert q[..|p|][|k1| + 1] == k2[|k1|] != p[|k1| + 1];
      } else if |k1| > |k2| {
        assert q[..|p|][|k2| + 1] == '}' != k1[|k2|] == p[|k2| + 1];
      } else {
        var j :| 0 <= j < |k1| && k1[j] != k2[j];
        assert q[..|p|][j + 1] == k2[j] != k1[j] == p[j + 1];
      }
    }
  }

  /** Some variable has key `key`. */
  predicate HasKey(vars: seq<(string, string)>, key: string)
  {
    exists i :: 0 <= i < |vars| && vars[i].0 == key
  }

  /** One replacement step on a template holding the placeholder of `key`
      once, or already holding its value instead (`found`). */
  lemma PlaceholderStep(a: string, key: string, value: string, b: string, k: string, v: string, found: bool)
    requires '{' !in a && '{' !in b && PlainKey(key) && PlainKey(k) && '{' !in v
    requires k == key ==> v == value
    requires found ==> '{' !in value
    ensures var s := a + Placeholder(key) + b;
      ReplaceAll(if found then a + value + b else s, Placeholder(k), v)
        == if found || k == key then a + value + b else s
  {
    if found {
      ReplaceWithoutFirstChar(a + value + b, Placeholder(k), v);
    } else if k == key {
      ReplaceOne(a, b, Placeholder(key), v);
    } else {
      PlaceholderNotPrefix(k, key, b);
      ReplaceMissAt(a, Placeholder(key), b, Placeholder(k), v);
    }
  }

  /** Filling a template that holds the placeholder of `key` once, with no
      other `{`: the placeholder becomes the value of `key` when some
      variable has that key, and stays otherwise. Values without `{` cannot
      bring a placeholder back. */
  lemma {:induction false} FilledPlaceholder(
    a: string, key: string, value: string, b: string, vars: seq<(string, string)>)
    requires '{' !in a && '{' !in b && PlainKey(key)
    requires forall i :: 0 <= i < |vars| ==> PlainKey(vars[i].0) && '{' !in vars[i].1
    requires forall i :: 0 <= i < |vars| && vars[i].0 == key ==> vars[i].1 == value
    ensures Filled(a + Placeholder(key) + b, vars)
         == if HasKey(vars, key) then a + value + b else a + Placeholder(key) + b
  {
    if |vars| > 0 {
      var n := |vars| - 1;
      var init := vars[..n];
      assert forall i :: 0 <= i < n ==> init[i] == vars[i];
      FilledPlaceholder(a, key, value, b, init);
      var found := HasKey(init, key);
      if found {
        var i :| 0 <= i < n && init[i].0 == key;
        assert '{' !in value;
      }
      assert HasKey(vars, key) <==> found || vars[n].0 == key;
      PlaceholderStep(a, key, value, b, vars[n].0, vars[n].1, found);
    }
  }

  /** What a hole of `key` reads after filling with `vars`: the value of the
      variable with that key (the last one, should there be several), or the
      placeholder itself when no variable has the key. */
  function Hole(key: string, vars: seq<(string, string)>): string
  {
    if |vars| == 0 then Placeholder(key)
    else
      var n := |vars| - 1;
      if vars[n].0 == key then vars[n].1 else Hole(key, vars[..n])
  }

  /** A template written as texts and holes, `t0 + {k0} + t1 + {k1} + ... +
      tail`, with each hole `{ki}` read as `Hole(ki, vars)`; with no
      variables it is the template as written. */
  function Render(parts: seq<(string, string)>, tail: string, vars: seq<(string, string)>): string
    decreases |parts|
  {
    if |parts| == 0 then tail
    else parts[0].0 + Hole(parts[0].1, vars) + Render(parts[1..], tail, vars)
  }

  /** Texts without `{` between holes of plain keys. */
  predicate PlainParts(parts: seq<(string, string)>, tail: string)
  {
    '{' !in tail && forall i :: 0 <= i < |parts| ==> '{' !in parts[i].0 && PlainKey(parts[i].1)
  }

  /** Variables with plain keys and values without `{`. */
  predicate PlainValues(vars: seq<(string, string)>)
  {
    forall i :: 0 <= i < |vars| ==> PlainKey(vars[i].0) && '{' !in vars[i].1
  }

  /** Variables with plain keys whose values, all but the last one's, have
      no `{`: the last replacement's value is never scanned again. */
  predicate FillableValues(vars: seq<(string, string)>)
  {
    forall i :: 0 <= i < |vars| ==> PlainKey(vars[i].0) && (i < |vars| - 1 ==> '{' !in vars[i].1)
  }

  /** A hole of a key no variable has stays a placeholder. */
  lemma {:induction false} HoleAbsent(key: string, vars: seq<(string, string)>)
    requires !HasKey(vars, key)
    ensures Hole(key, vars) == Placeholder(key)
  {
    if |vars| > 0 {
      var n := |vars| - 1;
      var init := vars[..n];
      assert forall i :: 0 <= i < n ==> init[i] == vars[i];
      HoleAbsent(key, init);
    }
  }

  /** A hole of a key some variable has reads as a value, one of a key no
      variable has stays a placeholder. */
  lemma {:induction false} HoleShape(key: string, vars: seq<(string, string)>)
    requires PlainValues(vars)
    ensures if HasKey(vars, key) then '{' !in Hole(key, vars) else Hole(key, vars) == Placeholder(key)
  {
    if |vars| > 0 {
      var n := |vars| - 1;
      var init := vars[..n];
      assert forall i :: 0 <= i < n ==> init[i] == vars[i];
      HoleShape(key, init);
      assert HasKey(vars, key) <==> HasKey(init, key) || vars[n].0 == key;
    }
  }

  /** With distinct keys, a hole of a variable's key reads as that
      variable's value. */
  lemma {:induction false} HoleIsValue(key: string, vars: seq<(string, string)>, i: nat)
    requires DistinctKeys(vars) && i < |vars| && vars[i].0 == key
    ensures Hole(key, vars) == vars[i].1
  {
    var n := |vars| - 1;
    if i < n {
      var init := vars[..n];
      assert init[i] == vars[i];
      assert DistinctKeys(init);
      HoleIsValue(key, init, i);
    }
  }

  /** One more variable changes only the holes of its own key. */
  lemma HoleSnoc(key: string, init: seq<(string, string)>, k: string, v: string)
    ensures Hole(key, init + [(k, v)]) == if key == k then v else Hole(key, init)
  {
    assert (init + [(k, v)])[..|init|] == init;
  }

  /** `str.replace` on a placeholder followed by more text: the placeholder
      of `k` becomes `v`, that of any other plain key stays, and the scan
      goes on after it. */
  lemma ReplaceHeadPlaceholder(key: string, rest: string, k: string, v: string)
    requires PlainKey(key) && PlainKey(k)
    ensures ReplaceAll(Placeholder(key) + rest, Placeholder(k), v)
         == (if key == k then v else Placeholder(key)) + ReplaceAll(rest, Placeholder(k), v)
  {
    var s, pat := Placeholder(key) + rest, Placeholder(k);
    if key == k {
      assert s[..|pat|] == pat && s[|pat|..] == rest;
    } else {
      PlaceholderNotPrefix(k, key, rest);
      ReplaceMissStep(s, pat, v);
      var m := key + "}";
      assert s[0] == '{' && s[1..] == m + rest;
      ReplaceAfterPlain(m, rest, pat, v);
      var r := ReplaceAll(rest, pat, v);
      assert Placeholder(key) + r == ['{'] + (m + r);
    }
  }

  /** A template of texts and holes splits after its first hole. */
  lemma RenderCons(parts: seq<(string, string)>, tail: string, vars: seq<(string, string)>)
    requires |parts| > 0
    ensures Render(parts, tail, vars)
         == parts[0].0 + (Hole(parts[0].1, vars) + Render(parts[1..], tail, vars))
  {
  }

  /** `str.replace` on a text without `{`, then a hole read as `h`: a
      placeholder becomes `h2` (the value for `k`, else itself), a value
      `h2 == h` is kept, and the scan goes on after it. */
  lemma ReplaceHoleStep(t0: string, key: string, h: string, h2: string, rest: string, k: string, v: string)
    requires '{' !in t0 && PlainKey(key) && PlainKey(k)
    requires if h == Placeholder(key) then h2 == (if key == k then v else h) else '{' !in h && h2 == h
    ensures ReplaceAll(t0 + (h + rest), Placeholder(k), v) == t0 + (h2 + ReplaceAll(rest, Placeholder(k), v))
  {
    var pat := Placeholder(k);
    ReplaceAfterPlain(t0, h + rest, pat, v);
    if h == Placeholder(key) {
      ReplaceHeadPlaceholder(key, rest, k, v);
    } else {
      ReplaceAfterPlain(h, rest, pat, v);
    }
  }

  /** The hole of `key` before and after one more variable `(k, v)`, when
      no earlier variable has `k`. */
  lemma HoleBeforeAfter(key: string, init: seq<(string, string)>, k: string, v: string)
    requires PlainValues(init) && !HasKey(init, k)
    ensures var h, h2 := Hole(key, init), Hole(key, init + [(k, v)]);
      if h == Placeholder(key) then h2 == (if key == k then v else h) else '{' !in h && h2 == h
  {
    HoleShape(key, init);
    HoleSnoc(key, init, k, v);
    if HasKey(init, key) {
      var i :| 0 <= i < |init| && init[i].0 == key;
      assert '{' in Placeholder(key);
    }
  }

  /** Replacing the placeholder of a key no earlier variable had fills
      exactly the holes of that key. */
  lemma {:induction false} ReplaceRender(
    parts: seq<(string, string)>, tail: string, init: seq<(string, string)>, k: string, v: string)
    requires PlainParts(parts, tail) && PlainValues(init) && PlainKey(k) && !HasKey(init, k)
    ensures ReplaceAll(Render(parts, tail, init), Placeholder(k), v) == Render(parts, tail, init + [(k, v)])
    decreases |parts|
  {
    if |parts| == 0 {
      ReplaceWithoutFirstChar(tail, Placeholder(k), v);
    } else {
      var vars := init + [(k, v)];
      assert PlainParts(parts[1..], tail) by {
        assert forall i :: 0 <= i < |parts| - 1 ==> parts[1..][i] == parts[i + 1];
      }
      ReplaceRender(parts[1..], tail, init, k, v);
      RenderCons(parts, tail, init);
      RenderCons(parts, tail, vars);
      HoleBeforeAfter(parts[0].1, init, k, v);
      ReplaceHoleStep(parts[0].0, parts[0].1, Hole(parts[0].1, init), Hole(parts[0].1, vars),
                      Render(parts[1..], tail, init), k, v);
    }
  }

  /** The variables but the last have plain keys and values and distinct
      keys, and none of them has the last one's key. */
  lemma InitFacts(vars: seq<(string, string)>)
    requires |vars| > 0 && FillableValues(vars) && DistinctKeys(vars)
    ensures var n := |vars| - 1; var init := vars[..n];
      && PlainValues(init) && FillableValues(init) && PlainKey(vars[n].0)
      && DistinctKeys(init) && !HasKey(init, vars[n].0)
      && init + [(vars[n].0, vars[n].1)] == vars
  {
    var n := |vars| - 1;
    var init := vars[..n];
    assert forall i :: 0 <= i < n ==> init[i] == vars[i];
    assert forall i :: 0 <= i < n ==> init[i].0 != vars[n].0;
    assert init + [(vars[n].0, vars[n].1)] == vars;
  }

  /** Filling a template of texts and holes: every hole of a variable's key
      becomes that variable's value, and every other hole stays as written,
      as long as no value but the last brings a `{` in. */
  lemma {:induction false} FilledRender(parts: seq<(string, string)>, tail: string, vars: seq<(string, string)>)
    requires PlainParts(parts, tail) && FillableValues(vars) && DistinctKeys(vars)
    ensures Filled(Render(parts, tail, []), vars) == Render(parts, tail, vars)
  {
    if |vars| > 0 {
      var n := |vars| - 1;
      InitFacts(vars);
      FilledRender(parts, tail, vars[..n]);
      ReplaceRender(parts, tail, vars[..n], vars[n].0, vars[n].1);
    }
  }

  /** The keys of the template variables, in dictionary order. */
  const TemplateKeys: seq<string> := ["campaign_name", "campaign_goal", "hashtag", "target_name",
    "target_org", "target_role", "target_email", "phone_number", "social"]

  /** The template variables' keys are the first 3 or all 9 `TemplateKeys`,
      none of them with a brace. */
  lemma TemplateKeysPlain(c: Campaign, target: Option<Target>)
    ensures var vars := TemplateVars(c, target);
      |vars| <= |TemplateKeys|
      && (forall i :: 0 <= i < |vars| ==> vars[i].0 == TemplateKeys[i])
      && (forall i :: 0 <= i < |vars| ==> PlainKey(vars[i].0))
  {
    TemplateKeysArePlain();
  }

  lemma TemplateKeysArePlain()
    ensures forall i :: 0 <= i < |TemplateKeys| ==> PlainKey(TemplateKeys[i])
  {
    CampaignKeysArePlain();
    TargetKeysArePlain();
  }

  lemma CampaignKeysArePlain()
    ensures PlainKey("campaign_name") && PlainKey("campaign_goal") && PlainKey("hashtag")
    ensures PlainKey("target_name")
  {
  }

  lemma TargetKeysArePlain()
    ensures PlainKey("target_org") && PlainKey("target_role")
    ensures PlainKey("target_email") && PlainKey("phone_number") && PlainKey("social")
  {
  }

  /** With the generator's own variables, every hole of a template of texts
      and holes is filled: a hole of one of the variables' keys becomes that
      variable's value, and a hole of any other key stays as written, as long
      as no value but the last holds a `{`. The last value is `social` with a
      target, whose `str()` text always does, and `hashtag` without one. */
  lemma TemplateVarFilled(parts: seq<(string, string)>, tail: string, c: Campaign, target: Option<Target>)
    requires PlainParts(parts, tail)
    requires var vars := TemplateVars(c, target); forall j :: 0 <= j < |vars| - 1 ==> '{' !in vars[j].1
    ensures var vars := TemplateVars(c, target);
      && Filled(Render(parts, tail, []), vars) == Render(parts, tail, vars)
      && (forall i :: 0 <= i < |vars| ==> Hole(vars[i].0, vars) == vars[i].1)
      && (forall key :: !HasKey(vars, key) ==> Hole(key, vars) == Placeholder(key))
  {
    var vars := TemplateVars(c, target);
    TemplateKeysPlain(c, target);
    assert FillableValues(vars);
    FilledRender(parts, tail, vars);
    forall i | 0 <= i < |vars| ensures Hole(vars[i].0, vars) == vars[i].1 {
      HoleIsValue(vars[i].0, vars, i);
    }
    forall key | !HasKey(vars, key) ensures Hole(key, vars) == Placeholder(key) {
      HoleAbsent(key, vars);
    }
  }

  // ---------------------------------------------------------------------
  // Titles
  // ---------------------------------------------------------------------

  /** `type_labels`. */
  function Label(t: ActionType): string
  {
    match t
    case PhoneCall => "Call"
    case Email => "Email"
    case SocialPost => "Post about"
    case PublicComment => "Comment on"
    case FoiaRequest => "FOIA"
    case Review => "Review"
    case Testimony => "Testify on"
    case ShareholderAction => "Shareholder action:"
    case Boycott => "Boycott"
    case ContentCreation => "Create content:"
    case SeoArticle => "Write article:"
    case OsintResearch => "Research"
    case SatelliteAnalysis => "Analyze"
    case CitizenSuit => "Legal evaluation:"
  }

  /** No two types share a label. */
  lemma LabelsDistinct(a: ActionType, b: ActionType)
    requires Label(a) == Label(b)
    ensures a == b
  {
    assert Label(a)[0] == Label(b)[0];
    if |Label(a)| > 1 {
      assert Label(a)[1] == Label(b)[1];
    }
  }

  /** `_generate_title`: the type's label, a space, and the target's name,
      or the first 40 characters of the campaign's target summary. */
  function GenerateTitle(t: ActionType, c: Campaign, target: Option<Target>): (title: string)
    ensures |title| > |Label(t)| && title[..|Label(t)|] == Label(t) && title[|Label(t)|] == ' '
    ensures target.Some? ==> title[|Label(t)| + 1..] == target.value.name
    ensures target.None? ==> title[|Label(t)| + 1..] == Take(c.targetSummary, 40)
  {
    var subject := if target.Some? then target.value.name else Take(c.targetSummary, 40);
    var title := Label(t) + " " + subject;
    assert title[|Label(t)| + 1..] == subject;
    title
  }

  // ---------------------------------------------------------------------
  // Priority
  // ---------------------------------------------------------------------

  /** How much the campaign's status raises priority. */
  function Urgency(status: CampaignStatus): int
  {
    if status == Escalating then 2 else if status == Active then 1 else 0
  }

  /** How much a target's vulnerability raises priority; a missing or zero
      score counts as none. */
  function Leverage(target: Option<Target>): int
  {
    if target.Some? && target.value.vulnerabilityScore.Some? && target.value.vulnerabilityScore.value != 0.0 then
      var v := target.value.vulnerabilityScore.value;
      if v >= 8.0 then 2 else if v >= 6.0 then 1 else 0
    else 0
  }

  /** How much the type's impact raises priority: high-impact types one
      step, medium-impact types none, the rest are lowered one step. */
  function Impact(t: ActionType): int
  {
    if t in {Testimony, CitizenSuit, ShareholderAction, FoiaRequest} then 1
    else if t in {PublicComment, Email, OsintResearch} then 0
    else -1
  }

  /** `_calculate_priority`: 1 is the highest priority, 10 the lowest. */
  function CalculatePriority(t: ActionType, c: Campaign, target: Option<Target>): (p: int)
    ensures 1 <= p <= 6
  {
    Max(1, Min(10, 5 - Urgency(c.status) - Leverage(target) - Impact(t)))
  }

  /** A more urgent campaign, a more vulnerable target and a more impactful
      type each give at least as high a priority (a number no larger); the
      lowest number goes to the most powerful combination. */
  lemma PriorityMonotone(t1: ActionType, c1: Campaign, x1: Option<Target>, t2: ActionType, c2: Campaign, x2: Option<Target>)
    requires Urgency(c1.status) >= Urgency(c2.status)
    requires Leverage(x1) >= Leverage(x2)
    requires Impact(t1) >= Impact(t2)
    ensures CalculatePriority(t1, c1, x1) <= CalculatePriority(t2, c2, x2)
  {
  }

  /** A higher vulnerability score never lowers the leverage. */
  lemma LeverageMonotone(x1: Target, x2: Target)
    requires x1.vulnerabilityScore.Some? && x2.vulnerabilityScore.Some?
    requires x1.vulnerabilityScore.value >= x2.vulnerabilityScore.value >= 0.0
    ensures Leverage(Some(x1)) >= Leverage(Some(x2))
  {
  }

  // ---------------------------------------------------------------------
  // Action specifications
  // ---------------------------------------------------------------------

  /** `ActionSpec`. */
  datatype ActionSpec = ActionSpec(
    actionType: ActionType,
    title: string,
    description: string,
    templateName: Option<string>,
    templateVars: seq<(string, string)>,
    estimatedMinutes: int,
    priority: int,
    requiresSkills: seq<string>)

  function PriorityOf(s: ActionSpec): int
  {
    s.priority
  }

  /** The specification generated for one type and one target (or none),
      with the description filled in from `templates`. The specification
      functions below take the template table as a parameter, so that what
      is proved about them holds whatever the template texts; the methods
      pass `DescriptionTemplate`. */
  function MakeSpec(c: Campaign, t: ActionType, target: Option<Target>, templates: ActionType -> string): ActionSpec
  {
    var bp := BlueprintOf(t);
    var vars := TemplateVars(c, target);
    ActionSpec(t, GenerateTitle(t, c, target), Filled(templates(t), vars), bp.templateName,
               vars, bp.minutes, CalculatePriority(t, c, target), bp.skills)
  }

  /** The template variables as stored: every value a string. */
  function TextVars(vars: seq<(string, string)>): (r: seq<(string, VarValue)>)
    ensures |r| == |vars| && forall i :: 0 <= i < |vars| ==> r[i] == (vars[i].0, Text(vars[i].1))
  {
    if |vars| == 0 then [] else TextVars(vars[..|vars| - 1]) + [(vars[|vars| - 1].0, Text(vars[|vars| - 1].1))]
  }

  /** `generate_action_from_spec`: a stored action for the specification,
      available, without deadline and not completed. */
  function ActionFromSpec(spec: ActionSpec, campaignId: int): (a: Action)
    ensures a.campaignId == Some(campaignId)
    ensures a.status == Available && a.completedAt.None? && a.deadline.None?
    ensures (a.actionType, a.title, a.description, a.templateName, a.estimatedMinutes, a.priority) ==
            (spec.actionType, spec.title, spec.description, spec.templateName, spec.estimatedMinutes, spec.priority)
    ensures a.templateVars == TextVars(spec.templateVars)
  {
    Action(Some(campaignId), spec.actionType, spec.title, spec.description, spec.templateName,
           TextVars(spec.templateVars), spec.estimatedMinutes, spec.priority, Available, None, None)
  }

  /** Each specification carries its type, the blueprint's minutes and
      skills, and the priority of its type, campaign and target. */
  lemma MakeSpecFields(c: Campaign, t: ActionType, target: Option<Target>, templates: ActionType -> string)
    ensures MakeSpec(c, t, target, templates).actionType == t
    ensures MakeSpec(c, t, target, templates).estimatedMinutes == BlueprintOf(t).minutes
    ensures MakeSpec(c, t, target, templates).requiresSkills == BlueprintOf(t).skills
    ensures MakeSpec(c, t, target, templates).priority == CalculatePriority(t, c, target)
  {
  }

  /** The action types named by the campaign's tactics; tactics that are not
      action type values are ignored. */
  function ParsedTypes(tactics: seq<string>): set<ActionType>
  {
    if |tactics| == 0 then {}
    else
      var n := |tactics| - 1;
      var p := ParseActionType(tactics[n]);
      ParsedTypes(tactics[..n]) + (if p.Some? then {p.value} else {})
  }

  /** A type is parsed exactly when some tactic is its value. */
  lemma {:induction false} ParsedTypesExactly(tactics: seq<string>, a: ActionType)
    ensures a in ParsedTypes(tactics) <==> a.Value() in tactics
  {
    if |tactics| > 0 {
      var n := |tactics| - 1;
      ParsedTypesExactly(tactics[..n], a);
      assert tactics == tactics[..n] + [tactics[n]];
      ParseValueRoundTrip(a);
    }
  }

  /** The first loop of `generate_for_time`: collect the campaign's types. */
  method CampaignTypes(tactics: seq<string>) returns (types: set<ActionType>)
    ensures types == ParsedTypes(tactics)
  {
    types := {};
    for j := 0 to |tactics|
      invariant types == ParsedTypes(tactics[..j])
    {
      assert tactics[..j + 1][..j] == tactics[..j];
      var parsed := ParseActionType(tactics[j]);
      if parsed.Some? {
        types := types + {parsed.value};
      }
    }
    assert tactics[..|tactics|] == tactics;
  }

  /** The tier's types, kept in order, that the campaign uses; all of them
      when the campaign names none. */
  function AvailableTypes(eligible: seq<ActionType>, campaignTypes: set<ActionType>): (r: seq<ActionType>)
    ensures forall a :: a in r <==> a in eligible && (|campaignTypes| == 0 || a in campaignTypes)
  {
    if |campaignTypes| == 0 then eligible else KeepIn(eligible, campaignTypes)
  }

  function KeepIn(types: seq<ActionType>, keep: set<ActionType>): (r: seq<ActionType>)
    ensures forall a :: a in r <==> a in types && a in keep
  {
    if |types| == 0 then []
    else
      var n := |types| - 1;
      assert forall a :: a in types <==> a in types[..n] || a == types[n];
      KeepIn(types[..n], keep) + (if types[n] in keep then [types[n]] else [])
  }

  /** The participant has at least one of the skills. */
  predicate SharesSkill(have: seq<string>, need: seq<string>)
  {
    exists s :: s in need && s in have
  }

  /** No blueprint takes less than five minutes. */
  lemma BlueprintsTakeFiveMinutes(t: ActionType)
    ensures BlueprintOf(t).minutes >= 5
  {
  }

  /** A type is offered when its blueprint fits the time and, for a known
      participant, they have one of the skills it requires (if any). */
  predicate Fits(t: ActionType, minutes: int, participant: Option<Participant>)
  {
    BlueprintOf(t).minutes <= minutes &&
    (participant.None? || |BlueprintOf(t).skills| == 0 || SharesSkill(participant.value.skills, BlueprintOf(t).skills))
  }

  /** `(targets or [None])[:3]`. */
  function TargetChoices(targets: seq<Target>): (r: seq<Option<Target>>)
    ensures 1 <= |r| <= 3
    ensures |targets| == 0 ==> r == [None]
    ensures |targets| > 0 ==> |r| == Min(3, |targets|) && forall i :: 0 <= i < |r| ==> r[i] == Some(targets[i])
  {
    if |targets| == 0 then [None] else Wrap(Take(targets, 3))
  }

  function Wrap(ts: seq<Target>): (r: seq<Option<Target>>)
    ensures |r| == |ts| && forall i :: 0 <= i < |ts| ==> r[i] == Some(ts[i])
  {
    if |ts| == 0 then [] else Wrap(ts[..|ts| - 1]) + [Some(ts[|ts| - 1])]
  }

  /** The specifications for one type, one per target choice. */
  function SpecsForType(c: Campaign, t: ActionType, choices: seq<Option<Target>>, templates: ActionType -> string): (r: seq<ActionSpec>)
    ensures |r| == |choices|
  {
    if |choices| == 0 then []
    else SpecsForType(c, t, choices[..|choices| - 1], templates) + [MakeSpec(c, t, choices[|choices| - 1], templates)]
  }

  /** Position `k` of a type's specifications is made for target choice `k`. */
  lemma {:induction false} SpecsForTypeAt(c: Campaign, t: ActionType, choices: seq<Option<Target>>, k: nat, templates: ActionType -> string)
    requires k < |choices|
    ensures SpecsForType(c, t, choices, templates)[k] == MakeSpec(c, t, choices[k], templates)
  {
    if k < |choices| - 1 {
      SpecsForTypeAt(c, t, choices[..|choices| - 1], k, templates);
    }
  }

  lemma SpecsForTypeSnoc(c: Campaign, t: ActionType, choices: seq<Option<Target>>, k: nat, templates: ActionType -> string)
    requires k < |choices|
    ensures SpecsForType(c, t, choices[..k + 1], templates) ==
            SpecsForType(c, t, choices[..k], templates) + [MakeSpec(c, t, choices[k], templates)]
  {
    assert choices[..k + 1][..k] == choices[..k];
  }

  /** The body of the inner loop of `generate_for_time`: the
      specification for one type and target. */
  method SpecFor(c: Campaign, t: ActionType, target: Option<Target>, templates: ActionType -> string) returns (spec: ActionSpec)
    ensures spec == MakeSpec(c, t, target, templates)
  {
    var bp := BlueprintOf(t);
    var vars := TemplateVars(c, target);
    var description := FillDescription(templates(t), vars);
    spec := ActionSpec(t, GenerateTitle(t, c, target), description, bp.templateName, vars,
                       bp.minutes, CalculatePriority(t, c, target), bp.skills);
  }

  /** The inner loop of `generate_for_time`: one specification per target. */
  method SpecsFor(c: Campaign, t: ActionType, choices: seq<Option<Target>>, templates: ActionType -> string)
    returns (specs: seq<ActionSpec>)
    ensures specs == SpecsForType(c, t, choices, templates)
  {
    specs := [];
    for k := 0 to |choices|
      invariant specs == SpecsForType(c, t, choices[..k], templates)
    {
      SpecsForTypeSnoc(c, t, choices, k, templates);
      var spec := SpecFor(c, t, choices[k], templates);
      specs := specs + [spec];
    }
    assert choices[..|choices|] == choices;
  }

  /** The specifications of every offered type, type by type. */
  function Candidates(c: Campaign, types: seq<ActionType>, minutes: int, choices: seq<Option<Target>>,
                      participant: Option<Participant>, templates: ActionType -> string): seq<ActionSpec>
  {
    if |types| == 0 then []
    else
      var n := |types| - 1;
      Candidates(c, types[..n], minutes, choices, participant, templates) +
      (if Fits(types[n], minutes, participant) then SpecsForType(c, types[n], choices, templates) else [])
  }

  /** The types offered for the time and the campaign, in tier order. */
  function Offered(c: Campaign, minutes: int): seq<ActionType>
  {
    AvailableTypes(TierTypes(GetTimeTier(minutes)), ParsedTypes(c.tactics))
  }

  /** Every specification `generate_for_time` considers, before sorting. */
  function AllCandidates(c: Campaign, minutes: int, targets: seq<Target>, participant: Option<Participant>,
                         templates: ActionType -> string): seq<ActionSpec>
  {
    Candidates(c, Offered(c, minutes), minutes, TargetChoices(targets), participant, templates)
  }

  /** What `generate_for_time` returns: the candidates, sorted by priority,
      cut to `maxActions`. */
  function ForTime(c: Campaign, minutes: int, targets: seq<Target>, participant: Option<Participant>, maxActions: int,
                   templates: ActionType -> string): seq<ActionSpec>
  {
    SliceTo(SortBy(AllCandidates(c, minutes, targets, participant, templates), PriorityOf), maxActions)
  }

  lemma CandidatesSnoc(c: Campaign, types: seq<ActionType>, i: nat, minutes: int, choices: seq<Option<Target>>,
                       participant: Option<Participant>, templates: ActionType -> string)
    requires i < |types|
    ensures Candidates(c, types[..i + 1], minutes, choices, participant, templates) ==
            Candidates(c, types[..i], minutes, choices, participant, templates) +
            (if Fits(types[i], minutes, participant) then SpecsForType(c, types[i], choices, templates) else [])
  {
    assert types[..i + 1][..i] == types[..i];
  }

  /** The body of the outer loop of `generate_for_time`: nothing for a
      type whose blueprint takes longer than the time or needs skills the
      participant lacks, else one specification per target choice. */
  method TypeSpecs(c: Campaign, t: ActionType, minutes: int, choices: seq<Option<Target>>,
                   participant: Option<Participant>, templates: ActionType -> string) returns (more: seq<ActionSpec>)
    ensures more == if Fits(t, minutes, participant) then SpecsForType(c, t, choices, templates) else []
  {
    var bp := BlueprintOf(t);
    if bp.minutes > minutes {
      return [];
    }
    if participant.Some? && |bp.skills| > 0 && !SharesSkill(participant.value.skills, bp.skills) {
      return [];
    }
    more := SpecsFor(c, t, choices, templates);
  }

  /** `generate_for_time`; no or empty `targets` both mean no target. */
  method GenerateForTime(c: Campaign, minutes: int, targets: seq<Target>, participant: Option<Participant>, maxActions: int)
    returns (r: seq<ActionSpec>)
    ensures r == ForTime(c, minutes, targets, participant, maxActions, DescriptionTemplate)
  {
    var eligible := TierTypes(GetTimeTier(minutes));
    var campaignTypes := CampaignTypes(c.tactics);
    var available := AvailableTypes(eligible, campaignTypes);
    var choices := TargetChoices(targets);
    var specs: seq<ActionSpec> := [];
    for i := 0 to |available|
      invariant specs == Candidates(c, available[..i], minutes, choices, participant, DescriptionTemplate)
    {
      CandidatesSnoc(c, available, i, minutes, choices, participant, DescriptionTemplate);
      var more := TypeSpecs(c, available[i], minutes, choices, participant, DescriptionTemplate);
      specs := specs + more;
    }
    assert available[..|available|] == available;
    r := SliceTo(SortBy(specs, PriorityOf), maxActions);
  }

  // ---------------------------------------------------------------------
  // Properties of the generated specifications
  // ---------------------------------------------------------------------

  /** A specification of one of the `types` that fits, with the blueprint's
      minutes and skills. */
  predicate SpecFits(x: ActionSpec, types: seq<ActionType>, minutes: int, participant: Option<Participant>)
  {
    x.actionType in types && Fits(x.actionType, minutes, participant) &&
    x.estimatedMinutes == BlueprintOf(x.actionType).minutes && x.requiresSkills == BlueprintOf(x.actionType).skills
  }

  /** Every candidate is a specification of a type that fits. */
  lemma {:induction false} CandidatesSound(c: Campaign, types: seq<ActionType>, minutes: int,
                                           choices: seq<Option<Target>>, participant: Option<Participant>, templates: ActionType -> string)
    ensures forall x :: x in Candidates(c, types, minutes, choices, participant, templates) ==> SpecFits(x, types, minutes, participant)
  {
    if |types| > 0 {
      var n := |types| - 1;
      var prev := Candidates(c, types[..n], minutes, choices, participant, templates);
      CandidatesSound(c, types[..n], minutes, choices, participant, templates);
      forall x | x in Candidates(c, types, minutes, choices, participant, templates)
        ensures SpecFits(x, types, minutes, participant)
      {
        if x in prev {
          assert SpecFits(x, types[..n], minutes, participant);
          assert x.actionType in types;
        } else {
          var k :| 0 <= k < |choices| && SpecsForType(c, types[n], choices, templates)[k] == x;
          SpecsForTypeAt(c, types[n], choices, k, templates);
          MakeSpecFields(c, types[n], choices[k], templates);
        }
      }
    }
  }

  /** Every fitting type yields a candidate for each target choice. */
  lemma {:induction false} CandidatesComplete(c: Campaign, types: seq<ActionType>, minutes: int,
                                              choices: seq<Option<Target>>, participant: Option<Participant>,
                                              t: ActionType, target: Option<Target>, templates: ActionType -> string)
    requires t in types && Fits(t, minutes, participant) && target in choices
    ensures MakeSpec(c, t, target, templates) in Candidates(c, types, minutes, choices, participant, templates)
  {
    var n := |types| - 1;
    if types[n] == t {
      var k :| 0 <= k < |choices| && choices[k] == target;
      SpecsForTypeAt(c, t, choices, k, templates);
      assert SpecsForType(c, t, choices, templates)[k] in SpecsForType(c, t, choices, templates);
    } else {
      assert t in types[..n] by {
        var i :| 0 <= i < |types| && types[i] == t;
        assert types[..n][i] == t;
      }
      CandidatesComplete(c, types[..n], minutes, choices, participant, t, target, templates);
    }
  }

  /** At most one candidate per type and target choice. */
  lemma {:induction false} CandidatesCount(c: Campaign, types: seq<ActionType>, minutes: int,
                                           choices: seq<Option<Target>>, participant: Option<Participant>, templates: ActionType -> string)
    ensures |Candidates(c, types, minutes, choices, participant, templates)| <= |choices| * |types|
  {
    if |types| > 0 {
      var n := |types| - 1;
      CandidatesCount(c, types[..n], minutes, choices, participant, templates);
      MulSucc(|choices|, n);
    }
  }

  /** `generate_for_time` returns, most urgent first, at most `maxActions`
      specifications (Python slicing for a negative bound); each one fits
      the time, is of a type the time tier and the campaign offer, asks for
      a skill the participant has, and takes its minutes and skills from
      the blueprint. */
  lemma ForTimeProperties(c: Campaign, minutes: int, targets: seq<Target>, participant: Option<Participant>, maxActions: int, templates: ActionType -> string)
    ensures SortedBy(ForTime(c, minutes, targets, participant, maxActions, templates), PriorityOf)
    ensures maxActions >= 0 ==> |ForTime(c, minutes, targets, participant, maxActions, templates)| <= maxActions
    ensures forall x :: x in ForTime(c, minutes, targets, participant, maxActions, templates) ==>
      x.estimatedMinutes <= minutes &&
      x.actionType in TierTypes(GetTimeTier(minutes)) &&
      (|ParsedTypes(c.tactics)| > 0 ==> x.actionType in ParsedTypes(c.tactics)) &&
      (participant.Some? && |x.requiresSkills| > 0 ==> SharesSkill(participant.value.skills, x.requiresSkills)) &&
      x.estimatedMinutes == BlueprintOf(x.actionType).minutes && x.requiresSkills == BlueprintOf(x.actionType).skills
  {
    var cands := AllCandidates(c, minutes, targets, participant, templates);
    var sorted := SortBy(cands, PriorityOf);
    var r := SliceTo(sorted, maxActions);
    SortFacts(cands, PriorityOf);
    CandidatesSound(c, Offered(c, minutes), minutes, TargetChoices(targets), participant, templates);
    forall x | x in r
      ensures SpecFits(x, Offered(c, minutes), minutes, participant)
    {
      assert x in multiset(cands) by {
        assert x in sorted;
      }
    }
  }

  /** The specifications `generate_for_time` leaves out are no more urgent
      than any it returns, and with room for all it returns every candidate. */
  lemma ForTimeKeepsMostUrgent(c: Campaign, minutes: int, targets: seq<Target>, participant: Option<Participant>,
                               maxActions: int, templates: ActionType -> string)
    ensures forall x, y :: (x in ForTime(c, minutes, targets, participant, maxActions, templates) &&
                            y in AllCandidates(c, minutes, targets, participant, templates) &&
                            y !in ForTime(c, minutes, targets, participant, maxActions, templates)) ==> PriorityOf(x) <= PriorityOf(y)
    ensures maxActions >= |AllCandidates(c, minutes, targets, participant, templates)| ==>
      multiset(ForTime(c, minutes, targets, participant, maxActions, templates)) ==
      multiset(AllCandidates(c, minutes, targets, participant, templates))
  {
    SortedSliceKeepsLeast(AllCandidates(c, minutes, targets, participant, templates), PriorityOf, maxActions);
  }

  /** Every type the tier and the campaign offer, when it fits, yields a
      candidate for each target choice. */
  lemma ForTimeComplete(c: Campaign, minutes: int, targets: seq<Target>, participant: Option<Participant>,
                        t: ActionType, target: Option<Target>, templates: ActionType -> string)
    requires t in TierTypes(GetTimeTier(minutes))
    requires |ParsedTypes(c.tactics)| == 0 || t in ParsedTypes(c.tactics)
    requires Fits(t, minutes, participant)
    requires target in TargetChoices(targets)
    ensures MakeSpec(c, t, target, templates) in AllCandidates(c, minutes, targets, participant, templates)
  {
    CandidatesComplete(c, Offered(c, minutes), minutes, TargetChoices(targets), participant, t, target, templates);
  }

  /** Under five minutes nothing is offered. */
  lemma NothingUnderFiveMinutes(c: Campaign, minutes: int, targets: seq<Target>, participant: Option<Participant>,
                                maxActions: int, templates: ActionType -> string)
    requires minutes < 5
    ensures ForTime(c, minutes, targets, participant, maxActions, templates) == []
  {
    var cands := AllCandidates(c, minutes, targets, participant, templates);
    CandidatesSound(c, Offered(c, minutes), minutes, TargetChoices(targets), participant, templates);
    if |cands| > 0 {
      assert SpecFits(cands[0], Offered(c, minutes), minutes, participant);
      BlueprintsTakeFiveMinutes(cands[0].actionType);
    }
    assert cands == [];
  }

  // ---------------------------------------------------------------------
  // Suggesting one action
  // ---------------------------------------------------------------------

  predicate IsRunning(c: Campaign)
  {
    c.status == Active || c.status == Escalating
  }

  /** What one campaign contributes to a suggestion: for a running
      campaign, up to three specifications for the participant's weekly
      minutes, skills and no target. */
  function Pool(p: Participant, c: Campaign, templates: ActionType -> string): seq<ActionSpec>
  {
    if IsRunning(c) then ForTime(c, p.availabilityMinutesPerWeek, [], Some(p), 3, templates) else []
  }

  /** The pools of the campaigns, campaign by campaign. */
  function Pools(p: Participant, campaigns: seq<Campaign>, templates: ActionType -> string): (r: seq<seq<ActionSpec>>)
    ensures |r| == |campaigns|
  {
    if |campaigns| == 0 then []
    else
      var n := |campaigns| - 1;
      Pools(p, campaigns[..n], templates) + [Pool(p, campaigns[n], templates)]
  }

  lemma {:induction false} PoolsAt(p: Participant, campaigns: seq<Campaign>, i: nat, templates: ActionType -> string)
    requires i < |campaigns|
    ensures Pools(p, campaigns, templates)[i] == Pool(p, campaigns[i], templates)
  {
    if i < |campaigns| - 1 {
      PoolsAt(p, campaigns[..|campaigns| - 1], i, templates);
    }
  }

  /** Every specification `suggest_next_action` collects, in order. */
  function AllSuggestions(p: Participant, campaigns: seq<Campaign>, templates: ActionType -> string): seq<ActionSpec>
  {
    Flatten(Pools(p, campaigns, templates))
  }

  /** What `suggest_next_action` returns. */
  function Suggestion(p: Participant, campaigns: seq<Campaign>, templates: ActionType -> string): Option<ActionSpec>
  {
    var all := AllSuggestions(p, campaigns, templates);
    if |all| == 0 then None
    else
      SortHead(all, PriorityOf);
      Some(SortBy(all, PriorityOf)[0])
  }

  /** `suggest_next_action`. */
  method SuggestNextAction(p: Participant, campaigns: seq<Campaign>) returns (r: Option<ActionSpec>)
    ensures r == Suggestion(p, campaigns, DescriptionTemplate)
  {
    var all: seq<ActionSpec> := [];
    for i := 0 to |campaigns|
      invariant all == AllSuggestions(p, campaigns[..i], DescriptionTemplate)
    {
      assert campaigns[..i + 1][..i] == campaigns[..i];
      assert Pools(p, campaigns[..i + 1], DescriptionTemplate) == Pools(p, campaigns[..i], DescriptionTemplate) + [Pool(p, campaigns[i], DescriptionTemplate)];
      var c := campaigns[i];
      if c.status != Active && c.status != Escalating {
        continue;
      }
      var specs := GenerateForTime(c, p.availabilityMinutesPerWeek, [], Some(p), 3);
      all := all + specs;
    }
    assert campaigns[..|campaigns|] == campaigns;
    if |all| == 0 {
      return None;
    }
    SortHead(all, PriorityOf);
    var sorted := SortBy(all, PriorityOf);
    r := Some(sorted[0]);
  }

  /** The pooled specifications are exactly those of the campaigns' pools. */
  lemma AllSuggestionsFrom(p: Participant, campaigns: seq<Campaign>, x: ActionSpec, templates: ActionType -> string)
    ensures x in AllSuggestions(p, campaigns, templates) <==> exists i :: 0 <= i < |campaigns| && x in Pool(p, campaigns[i], templates)
  {
    FlattenMembership(Pools(p, campaigns, templates), x);
    forall i | 0 <= i < |campaigns| ensures Pools(p, campaigns, templates)[i] == Pool(p, campaigns[i], templates) {
      PoolsAt(p, campaigns, i, templates);
    }
  }

  /** `suggest_next_action` suggests nothing exactly when no running
      campaign offers the participant anything; otherwise it suggests one of
      their specifications, of the highest priority among all of them, and
      of those the first in campaign order. */
  lemma SuggestionProperties(p: Participant, campaigns: seq<Campaign>, templates: ActionType -> string)
    ensures Suggestion(p, campaigns, templates).None? <==> forall i :: 0 <= i < |campaigns| ==> Pool(p, campaigns[i], templates) == []
    ensures Suggestion(p, campaigns, templates).Some? ==>
      (exists i :: 0 <= i < |campaigns| && Suggestion(p, campaigns, templates).value in Pool(p, campaigns[i], templates)) &&
      (forall i, x :: 0 <= i < |campaigns| && x in Pool(p, campaigns[i], templates) ==> Suggestion(p, campaigns, templates).value.priority <= x.priority)
    ensures Suggestion(p, campaigns, templates).Some? ==>
      exists j :: 0 <= j < |AllSuggestions(p, campaigns, templates)| && AllSuggestions(p, campaigns, templates)[j] == Suggestion(p, campaigns, templates).value &&
        forall j' :: 0 <= j' < j ==> AllSuggestions(p, campaigns, templates)[j'].priority > Suggestion(p, campaigns, templates).value.priority
  {
    var all := AllSuggestions(p, campaigns, templates);
    if |all| == 0 {
      forall i | 0 <= i < |campaigns| ensures Pool(p, campaigns[i], templates) == [] {
        var f := Pool(p, campaigns[i], templates);
        if |f| > 0 {
          AllSuggestionsFrom(p, campaigns, f[0], templates);
        }
      }
    } else {
      SortHead(all, PriorityOf);
      var s := SortBy(all, PriorityOf)[0];
      AllSuggestionsFrom(p, campaigns, s, templates);
      forall i, x | 0 <= i < |campaigns| && x in Pool(p, campaigns[i], templates) ensures s.priority <= x.priority {
        AllSuggestionsFrom(p, campaigns, x, templates);
      }
      assert all[0] in all;
      AllSuggestionsFrom(p, campaigns, all[0], templates);
    }
  }
}
