/**
 The ideal-customer-profile record that the generator returns, and the
 three fixed profiles it chooses between. Record fields are the camelCase
 forms of the object literals' keys in src/lib/icp-generator.ts
 (`jobTitles` for `job_titles`); filter dimension names are kept exactly
 as the literals write them, and `filterLogic` keeps its entries in the
 order the literal writes them.
 */
module Profile {

  /** One decision-maker sub-segment of a profile. */
  datatype Persona = Persona(
    title: string,
    jobTitles: seq<string>,
    companyStage: string,
    industry: seq<string>,
    teamSize: string,
    region: seq<string>,
    painPoints: seq<string>,
    growthSignals: seq<string>
  )

  /** A search-filter value: a single text or an ordered list of texts. */
  datatype FilterValue = One(text: string) | Many(texts: seq<string>)

  /** One entry of `filter_logic`: a filter dimension and its value. */
  datatype Filter = Filter(dimension: string, value: FilterValue)

  datatype CustomerProfile = CustomerProfile(
    personas: seq<Persona>,
    filterLogic: seq<Filter>,
    sampleKeywords: seq<string>,
    intentSignals: seq<string>
  )

  /** The persona titles of a profile, in order. */
  function Titles(personas: seq<Persona>): (r: seq<string>)
    ensures |r| == |personas|
    ensures forall i :: 0 <= i < |personas| ==> r[i] == personas[i].title
  {
    if personas == [] then [] else [personas[0].title] + Titles(personas[1..])
  }

  /** The filter dimension names of a profile, in order. */
  function Dimensions(filters: seq<Filter>): (r: seq<string>)
    ensures |r| == |filters|
    ensures forall i :: 0 <= i < |filters| ==> r[i] == filters[i].dimension
  {
    if filters == [] then [] else [filters[0].dimension] + Dimensions(filters[1..])
  }

  /** The profile for LinkedIn and outreach tools. */
  const LinkedInProfile := CustomerProfile(
    [
      Persona(
        "Startup Founder / CEO",
        ["Founder", "Co-Founder", "CEO", "Chief Executive Officer"],
        "Pre-seed to Series A",
        ["SaaS", "Tech", "B2B Software", "Fintech"],
        "1-50",
        ["US", "UK", "Western Europe", "Canada"],
        [
          "Struggling with lead generation and pipeline building",
          "Wants to scale outbound but lacks experienced SDR team",
          "Wasting time on manual cold outreach with low response rates",
          "Need to prove ROI on sales activities to investors"
        ],
        [
          "Recently raised funding or participating in accelerator programs",
          "Hiring sales development representatives or account executives",
          "Actively using LinkedIn Sales Navigator or similar tools",
          "Posting about sales challenges or hiring on social media"
        ]
      ),
      Persona(
        "Head of Sales / Sales Manager",
        ["Head of Sales", "VP Sales", "Sales Director", "Sales Development Manager"],
        "Series A to Series B",
        ["SaaS", "B2B Software", "Professional Services"],
        "25-200",
        ["US", "UK", "Western Europe", "Australia"],
        [
          "Sales team underperforming on outbound prospecting metrics",
          "Need better lead-to-meeting conversion rates",
          "Looking to automate and scale initial outreach processes",
          "Pressure to increase pipeline velocity and deal size"
        ],
        [
          "Recent expansion of sales team or new sales hiring",
          "Investment in new sales tools or technology stack",
          "Attending sales conferences or posting about sales enablement",
          "Company showing signs of rapid growth or recent funding"
        ]
      )
    ],
    [
      Filter("job_title_contains", Many(["founder", "ceo", "head of sales", "vp sales", "sales director", "sales development"])),
      Filter("company_size_range", One("1-200")),
      Filter("industry_keywords", Many(["SaaS", "B2B software", "Software", "Technology", "AI tools"])),
      Filter("geography", Many(["United States", "United Kingdom", "Germany", "France", "Netherlands", "Canada", "Australia"])),
      Filter("company_growth_stage", Many(["Seed", "Series A", "Series B", "Early Stage"]))
    ],
    ["linkedin outreach", "cold email", "sales prospecting", "AI sales assistant", "lead generation", "sales automation"],
    [
      "Using tools like Outreach.io, SalesLoft, or Apollo.io",
      "Recently posted job openings for SDRs or sales roles",
      "Subscribes to sales-focused content or newsletters",
      "Engages with sales methodology content on LinkedIn",
      "Company has recent funding announcements or growth milestones"
    ]
  )

  /** The profile for B2B SaaS and software products. */
  const SaasProfile := CustomerProfile(
    [
      Persona(
        "SaaS Founder / Product Leader",
        ["Founder", "CEO", "Product Manager", "Head of Product"],
        "Seed to Series B",
        ["SaaS", "Software", "B2B Technology"],
        "5-100",
        ["US", "Europe", "Canada"],
        [
          "Need to accelerate product-market fit validation",
          "Struggling with user acquisition and retention",
          "Looking for ways to improve product adoption metrics",
          "Need better customer feedback and insights"
        ],
        [
          "Recently launched product or major feature updates",
          "Actively hiring product or engineering teams",
          "Participating in product management communities",
          "Seeking customer development and user research tools"
        ]
      ),
      Persona(
        "Marketing Director / Growth Lead",
        ["Marketing Director", "Head of Growth", "VP Marketing", "Growth Manager"],
        "Series A to Series C",
        ["SaaS", "Technology", "Digital Services"],
        "20-500",
        ["US", "UK", "EU", "Australia"],
        [
          "Need to scale marketing efforts and improve CAC/LTV",
          "Looking for better attribution and analytics tools",
          "Struggling with multi-channel campaign management",
          "Need to prove marketing ROI to executive team"
        ],
        [
          "Increasing marketing budget or team expansion",
          "Testing new marketing channels and strategies",
          "Attending growth and marketing conferences",
          "Recently implemented new marketing tech stack"
        ]
      )
    ],
    [
      Filter("job_title_contains", Many(["founder", "ceo", "product manager", "marketing director", "head of growth"])),
      Filter("company_size_range", One("5-500")),
      Filter("industry_keywords", Many(["SaaS", "Software", "B2B", "Technology", "Digital"])),
      Filter("geography", Many(["United States", "United Kingdom", "Germany", "Canada", "Australia", "France"])),
      Filter("company_type", Many(["Private", "Startup", "Scale-up"]))
    ],
    ["B2B SaaS", "product analytics", "growth hacking", "customer success", "SaaS metrics"],
    [
      "Using analytics tools like Mixpanel, Amplitude, or Google Analytics",
      "Active in product management or growth communities",
      "Recently published content about product development",
      "Company showing rapid user growth or feature releases",
      "Attending SaaS or product conferences"
    ]
  )

  /** The generic B2B profile, returned when no keyword matches. */
  const DefaultProfile := CustomerProfile(
    [
      Persona(
        "Business Decision Maker",
        ["CEO", "Founder", "Director", "VP", "Manager"],
        "Growth stage",
        ["Technology", "Professional Services", "B2B"],
        "10-200",
        ["US", "Europe"],
        [
          "Need to improve operational efficiency",
          "Looking for scalable business solutions",
          "Seeking competitive advantages in the market",
          "Want to reduce costs while maintaining quality"
        ],
        [
          "Recent funding or business expansion",
          "New leadership appointments",
          "Investment in new technology or tools",
          "Active hiring and team growth"
        ]
      )
    ],
    [
      Filter("job_title_contains", Many(["ceo", "founder", "director", "vp", "manager", "head of"])),
      Filter("company_size_range", One("10-200")),
      Filter("industry_keywords", Many(["Technology", "Software", "Professional Services", "B2B"])),
      Filter("geography", Many(["United States", "United Kingdom", "Germany", "Canada"])),
      Filter("company_growth_indicators", Many(["Funding", "Hiring", "Expansion"]))
    ],
    ["business solution", "enterprise software", "automation", "efficiency"],
    [
      "Recently posted about business challenges",
      "Active in industry-specific communities",
      "Company showing signs of growth or change",
      "Investment in new business tools or processes"
    ]
  )

  /**
   The three fixed profiles are pairwise different, so the profile a call
   returns tells which branch was taken.
   */
  lemma ProfilesDistinct()
    ensures LinkedInProfile != SaasProfile
    ensures LinkedInProfile != DefaultProfile
    ensures SaasProfile != DefaultProfile
  {
    assert |LinkedInProfile.sampleKeywords| == 6;
    assert |SaasProfile.sampleKeywords| == 5;
    assert |DefaultProfile.sampleKeywords| == 4;
  }

  /** The LinkedIn profile: its personas, filter dimensions and list sizes. */
  lemma LinkedInProfileShape()
    ensures Titles(LinkedInProfile.personas) == ["Startup Founder / CEO", "Head of Sales / Sales Manager"]
    ensures Dimensions(LinkedInProfile.filterLogic) ==
      ["job_title_contains", "company_size_range", "industry_keywords", "geography", "company_growth_stage"]
    ensures |LinkedInProfile.sampleKeywords| == 6 && |LinkedInProfile.intentSignals| == 5
  {
  }

  /** The SaaS profile: its personas, filter dimensions and list sizes. */
  lemma SaasProfileShape()
    ensures Titles(SaasProfile.personas) == ["SaaS Founder / Product Leader", "Marketing Director / Growth Lead"]
    ensures Dimensions(SaasProfile.filterLogic) ==
      ["job_title_contains", "company_size_range", "industry_keywords", "geography", "company_type"]
    ensures |SaasProfile.sampleKeywords| == 5 && |SaasProfile.intentSignals| == 5
  {
  }

  /** The default profile: its persona, filter dimensions and list sizes. */
  lemma DefaultProfileShape()
    ensures Titles(DefaultProfile.personas) == ["Business Decision Maker"]
    ensures Dimensions(DefaultProfile.filterLogic) ==
      ["job_title_contains", "company_size_range", "industry_keywords", "geography", "company_growth_indicators"]
    ensures |DefaultProfile.sampleKeywords| == 4 && |DefaultProfile.intentSignals| == 4
  {
  }
}
