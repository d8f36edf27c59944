/**
 `generateICP`: lower-cases the product description, tests three keyword
 groups by substring search, and returns one of the three fixed profiles,
 the first matching group winning.
 */
module IcpGenerator {
  import opened Text
  import opened Profile

  /** The arguments of the `includes` calls, group by group, in source order. */
  const SaasKeywords: seq<string> := ["saas", "b2b", "software"]
  const LinkedInKeywords: seq<string> := ["linkedin", "outreach", "prospecting"]
  const AIKeywords: seq<string> := ["ai", "artificial intelligence", "machine learning"]

  /**
   The nine keywords are written in lower case, so each is its own folding
   and matches the folded description whatever case the user typed.
   */
  lemma KeywordsAreLowerCase()
    ensures |SaasKeywords| == |LinkedInKeywords| == |AIKeywords| == 3
    ensures forall k | k in SaasKeywords + LinkedInKeywords + AIKeywords :: Lower(k) == k
  {
    forall k | k in SaasKeywords + LinkedInKeywords + AIKeywords ensures Lower(k) == k {
      assert IsLowerCase(k);
      LowerOfLowerCase(k);
    }
  }

  /** The three flags the generator computes before choosing a profile. */
  datatype Signals = Signals(isB2BSaaS: bool, isLinkedInTool: bool, isAITool: bool)

  /** Evaluates each keyword group on the lower-cased description. */
  function Classify(description: string): (sig: Signals)
    ensures sig.isB2BSaaS <==> MentionsAny(Lower(description), SaasKeywords)
    ensures sig.isLinkedInTool <==> MentionsAny(Lower(description), LinkedInKeywords)
    ensures sig.isAITool <==> MentionsAny(Lower(description), AIKeywords)
  {
    var text := Lower(description);
    Signals(
      IncludesAny(text, SaasKeywords),
      IncludesAny(text, LinkedInKeywords),
      IncludesAny(text, AIKeywords))
  }

  /** The if/return chain: LinkedIn first, then SaaS, then the default. */
  function SelectProfile(sig: Signals): (p: CustomerProfile)
    ensures p == LinkedInProfile || p == SaasProfile || p == DefaultProfile
  {
    if sig.isLinkedInTool then LinkedInProfile
    else if sig.isB2BSaaS then SaasProfile
    else DefaultProfile
  }

  /** The generator: one of three fixed profiles for every description. */
  function GenerateICP(description: string): (p: CustomerProfile)
    ensures p == LinkedInProfile <==> MentionsAny(Lower(description), LinkedInKeywords)
    ensures p == SaasProfile <==>
      !MentionsAny(Lower(description), LinkedInKeywords) && MentionsAny(Lower(description), SaasKeywords)
    ensures p == DefaultProfile <==>
      !MentionsAny(Lower(description), LinkedInKeywords) && !MentionsAny(Lower(description), SaasKeywords)
  {
    ProfilesDistinct();
    SelectProfile(Classify(description))
  }

  /** A description with both LinkedIn and SaaS keywords gets the LinkedIn profile. */
  lemma LinkedInBeatsSaas(description: string)
    requires MentionsAny(Lower(description), LinkedInKeywords)
    requires MentionsAny(Lower(description), SaasKeywords)
    ensures GenerateICP(description) == LinkedInProfile
    ensures GenerateICP(description) != SaasProfile
  {
    ProfilesDistinct();
  }

  /** Descriptions that agree up to case get the same profile. */
  lemma CaseInsensitive(s: string, t: string)
    requires Lower(s) == Lower(t)
    ensures GenerateICP(s) == GenerateICP(t)
  {
  }

  /** Lower-casing the description beforehand changes nothing. */
  lemma LowerFirstChangesNothing(description: string)
    ensures GenerateICP(Lower(description)) == GenerateICP(description)
  {
    LowerIdempotent(description);
    CaseInsensitive(Lower(description), description);
  }

  /** The AI flag never takes part in the choice. */
  lemma AIFlagIgnored(sig: Signals, isAITool: bool)
    ensures SelectProfile(sig.(isAITool := isAITool)) == SelectProfile(sig)
  {
  }

  /**
   Two descriptions that agree on the LinkedIn and SaaS keyword groups get
   the same profile, whatever either says about AI.
   */
  lemma OnlyLinkedInAndSaasMatter(s: string, t: string)
    requires MentionsAny(Lower(s), LinkedInKeywords) <==> MentionsAny(Lower(t), LinkedInKeywords)
    requires MentionsAny(Lower(s), SaasKeywords) <==> MentionsAny(Lower(t), SaasKeywords)
    ensures GenerateICP(s) == GenerateICP(t)
  {
    ProfilesDistinct();
  }

  /** The empty description gets the default profile; there is no error. */
  lemma EmptyDescriptionGetsDefault()
    ensures GenerateICP("") == DefaultProfile
  {
    assert Lower("") == "";
    assert !IncludesAny("", LinkedInKeywords);
    assert !IncludesAny("", SaasKeywords);
  }

  /** The LinkedIn and SaaS profiles have two personas, the default one. */
  lemma PersonaCount(description: string)
    ensures |GenerateICP(description).personas| == if GenerateICP(description) == DefaultProfile then 1 else 2
  {
    ProfilesDistinct();
  }
}
