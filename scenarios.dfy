/**
 Worked inputs for the generator: each names a description and the
 profile it gets. Each scenario takes the description as a parameter that
 its `requires` fixes to the literal. Stated about the literal itself, the
 verifier would try to evaluate the folding and every search over the
 whole string and exhaust its resources; a parameter keeps those terms
 symbolic. For the same reason the longer descriptions are written as
 concatenations, so that the keyword deciding the branch stands on its own
 and the rest is checked piece by piece.
 */
module IcpScenarios {
  import opened Text
  import opened Profile
  import opened IcpGenerator

  /** A word whose folding is a keyword makes any text around it mention that keyword group. */
  lemma KeywordBetween(head: string, word: string, tail: string, keywords: seq<string>)
    requires Lower(word) in keywords
    ensures MentionsAny(Lower(head + word + tail), keywords)
  {
    LowerAppend(head, word);
    LowerAppend(head + word, tail);
    OccursBetween(Lower(head), Lower(word), Lower(tail));
  }

  /** A description with every keyword group gets the LinkedIn profile. */
  lemma AllGroupsGetLinkedIn(s: string)
    requires s == "AI-powered " + "LinkedIn" + " outreach tool for B2B SaaS founders"
    ensures GenerateICP(s) == LinkedInProfile
  {
    assert Lower("LinkedIn") == "linkedin";
    KeywordBetween("AI-powered ", "LinkedIn", " outreach tool for B2B SaaS founders", LinkedInKeywords);
  }

  /** No character of `s` is one of `letters`. */
  predicate Avoids(s: string, letters: string) {
    forall i :: 0 <= i < |s| ==> s[i] !in letters
  }

  /** Two strings that avoid some letters concatenate to one that avoids them. */
  lemma AvoidsAppend(a: string, b: string, letters: string)
    requires Avoids(a, letters) && Avoids(b, letters)
    ensures Avoids(a + b, letters)
  {
    forall i | 0 <= i < |a + b| ensures (a + b)[i] !in letters {
      if i >= |a| {
        assert (a + b)[i] == b[i - |a|];
      }
    }
  }

  /** A description with neither case of 'k' nor of 'c' mentions no LinkedIn keyword. */
  lemma NoLinkedInLetters(s: string)
    requires Avoids(s, "kKcC")
    ensures !MentionsAny(Lower(s), LinkedInKeywords)
  {
    LowerAvoids(s, 'k');
    LowerAvoids(s, 'c');
    MissingCharNeverOccurs(Lower(s), "linkedin", 'k');
    MissingCharNeverOccurs(Lower(s), "outreach", 'c');
    MissingCharNeverOccurs(Lower(s), "prospecting", 'c');
  }

  /** A description with neither case of 'k', 'h', 's' or 'b' gets the default profile. */
  lemma NoKeywordLettersGetsDefault(s: string)
    requires Avoids(s, "kKhHsSbB")
    ensures GenerateICP(s) == DefaultProfile
  {
    LowerAvoids(s, 'k');
    LowerAvoids(s, 'h');
    LowerAvoids(s, 's');
    LowerAvoids(s, 'b');
    MissingCharNeverOccurs(Lower(s), "linkedin", 'k');
    MissingCharNeverOccurs(Lower(s), "outreach", 'h');
    MissingCharNeverOccurs(Lower(s), "prospecting", 's');
    MissingCharNeverOccurs(Lower(s), "saas", 's');
    MissingCharNeverOccurs(Lower(s), "b2b", 'b');
    MissingCharNeverOccurs(Lower(s), "software", 's');
  }

  /**
   A SaaS keyword between two texts, none of the three having either case
   of 'k' or 'c', gets the SaaS profile.
   */
  lemma SaasWordWithoutLinkedInLetters(head: string, word: string, tail: string)
    requires Lower(word) in SaasKeywords
    requires Avoids(head, "kKcC") && Avoids(word, "kKcC") && Avoids(tail, "kKcC")
    ensures GenerateICP(head + word + tail) == SaasProfile
  {
    KeywordBetween(head, word, tail, SaasKeywords);
    AvoidsAppend(head, word, "kKcC");
    AvoidsAppend(head + word, tail, "kKcC");
    NoLinkedInLetters(head + word + tail);
  }

  /** A SaaS description without LinkedIn keywords gets the SaaS profile. */
  lemma SaasDescriptionGetsSaas(s: string)
    requires s == "Our " + "B2B" + " SaaS platform helps growth teams"
    ensures GenerateICP(s) == SaasProfile
  {
    assert Lower("B2B") == "b2b";
    assert Avoids("Our ", "kKcC");
    assert Avoids("B2B", "kKcC");
    assert Avoids(" SaaS platform helps growth teams", "kKcC");
    SaasWordWithoutLinkedInLetters("Our ", "B2B", " SaaS platform helps growth teams");
  }

  /** A description with no keyword of either group gets the default profile. */
  lemma GenericDescriptionGetsDefault(s: string)
    requires s == "A generic productivity app"
    ensures GenerateICP(s) == DefaultProfile
  {
    assert Avoids(s, "kKhHsSbB");
    NoKeywordLettersGetsDefault(s);
  }

  /** Upper- and lower-case spellings of a description get the same profile. */
  lemma CaseDoesNotMatter(s: string, t: string)
    requires s == "LINKEDIN tool" && t == "linkedin tool"
    ensures GenerateICP(s) == GenerateICP(t) == LinkedInProfile
  {
    assert Lower(s) == t;
    assert Lower(t) == t;
    assert MatchesAt(t, "linkedin", 0);
    assert "linkedin" in LinkedInKeywords;
  }

  /** "ai" raises the AI flag, yet gets the same profile as the empty description. */
  lemma AIFlagAloneChangesNothing(s: string)
    requires s == "ai"
    ensures Classify(s).isAITool && !Classify("").isAITool
    ensures GenerateICP(s) == GenerateICP("") == DefaultProfile
  {
    assert Lower(s) == s;
    assert MatchesAt(s, "ai", 0);
    assert "ai" in AIKeywords;
    forall k | k in LinkedInKeywords + SaasKeywords ensures !Occurs(s, k) {
      TooLongNeverOccurs(s, k);
    }
    EmptyDescriptionGetsDefault();
  }
}
