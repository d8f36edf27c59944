# ICP generator: keyword classifier and profile selector

This project models `generateICP` from icp-genius, a browser tool that takes a
free-text product description and returns an ideal customer profile (ICP).
The generator folds the description to lower case. It then tests three
keyword groups by substring search:

- `isLinkedInTool`: "linkedin", "outreach" or "prospecting";
- `isB2BSaaS`: "saas", "b2b" or "software";
- `isAITool`: "ai", "artificial intelligence" or "machine learning".

It returns one of three fixed profiles, and the first matching group wins:
the LinkedIn/outreach profile, then the B2B SaaS profile, then the generic
default profile. The AI flag is computed but never read.

Modules:

- `Text` (`text.dfy`): ASCII case folding (`Lower`), substring search
  (`Includes`, proved equal to the ghost predicate `Occurs`, "some position
  holds the needle"), and the left-to-right `||` of several searches
  (`IncludesAny`, proved equal to `MentionsAny`).
- `Profile` (`profile.dfy`): the `Persona`, `Filter` and `CustomerProfile`
  records and the three profile constants, transcribed field by field from
  the object literals. `filter_logic` becomes an ordered list of
  (dimension, value) entries, so the literal's key order is kept.
- `IcpGenerator` (`icp_generator.dfy`): the three flags (`Classify`), the
  if/return chain (`SelectProfile`), `GenerateICP`, and the lemmas for
  priority, case insensitivity, the dead AI flag, the empty description and
  the persona counts.
- `IcpScenarios` (`scenarios.dfy`): worked descriptions with the profile each
  one gets.

`GenerateICP` is total and has no error path. Its three if-and-only-if
postconditions, together with `ProfilesDistinct`, say that every description
gets exactly one of the three profiles.

## Model

| member | source | states |
|---|---|---|
| `Text.Lower` | src/lib/icp-generator.ts:8-18 | `toLowerCase` keeps the length, folds each character independently, and leaves no ASCII capital in the result |
| `Text.LowerIdempotent` | src/lib/icp-generator.ts:8-18 | folding an already folded description changes nothing |
| `Text.Includes` | src/lib/icp-generator.ts:8-18 | `hay.includes(needle)` is true exactly when `needle` occurs at some position of `hay` (the empty needle occurs in every string) |
| `Text.IncludesAny` | src/lib/icp-generator.ts:8-18 | the `||` chain of `includes` calls is true exactly when some keyword of the group occurs in the text |
| `IcpGenerator.KeywordsAreLowerCase` | src/lib/icp-generator.ts:8-18 | the three keyword groups (`SaasKeywords`, `LinkedInKeywords`, `AIKeywords`) hold three keywords each, and every keyword is its own lower case, so it can match the folded description whatever case was typed |
| `IcpGenerator.Classify` | src/lib/icp-generator.ts:8-18 | each flag is true exactly when the lower-cased description contains a keyword of that flag's group |
| `IcpGenerator.SelectProfile` | src/lib/icp-generator.ts:20-182 | the if/return chain always returns one of the three fixed profiles |
| `IcpGenerator.GenerateICP` | src/lib/icp-generator.ts:4-183 | the result is the LinkedIn profile exactly when a LinkedIn keyword occurs; it is the SaaS profile exactly when no LinkedIn keyword occurs and a SaaS keyword does; it is the default profile exactly when neither group occurs |
| `Profile.LinkedInProfileShape` | src/lib/icp-generator.ts:21-79 | the constant `LinkedInProfile` has the personas "Startup Founder / CEO" and "Head of Sales / Sales Manager", the five filter dimensions in the literal's order ending with `company_growth_stage`, six sample keywords and five intent signals |
| `Profile.SaasProfileShape` | src/lib/icp-generator.ts:83-141 | the constant `SaasProfile` has the personas "SaaS Founder / Product Leader" and "Marketing Director / Growth Lead", the five filter dimensions in the literal's order ending with `company_type`, five sample keywords and five intent signals |
| `Profile.DefaultProfileShape` | src/lib/icp-generator.ts:145-182 | the constant `DefaultProfile` has the one persona "Business Decision Maker", the five filter dimensions in the literal's order ending with `company_growth_indicators`, four sample keywords and four intent signals |
| `Profile.ProfilesDistinct` | src/lib/icp-generator.ts:20-182 | the three profile literals are pairwise different, so the returned profile identifies the branch taken |
| `IcpGenerator.LinkedInBeatsSaas` | src/lib/icp-generator.ts:20-82 | a description matching both the LinkedIn and the SaaS groups gets the LinkedIn profile and never the SaaS one |
| `IcpGenerator.CaseInsensitive` | src/lib/icp-generator.ts:8-18 | two descriptions with the same lower-case form get the same profile |
| `IcpGenerator.LowerFirstChangesNothing` | src/lib/icp-generator.ts:8-18 | `generateICP(s) == generateICP(lower(s))` for every description |
| `IcpGenerator.AIFlagIgnored` | src/lib/icp-generator.ts:16-182 | changing only the AI flag never changes the selected profile |
| `IcpGenerator.OnlyLinkedInAndSaasMatter` | src/lib/icp-generator.ts:8-182 | two descriptions that agree on the LinkedIn and SaaS groups get the same profile, whatever they say about AI |
| `IcpGenerator.EmptyDescriptionGetsDefault` | src/lib/icp-generator.ts:4-183 | the empty description gets the default profile, without error |
| `IcpGenerator.PersonaCount` | src/lib/icp-generator.ts:22-166 | the LinkedIn and SaaS profiles carry two personas each; the default profile carries one |
| `IcpScenarios.AllGroupsGetLinkedIn` | src/lib/icp-generator.ts:12-80 | "AI-powered LinkedIn outreach tool for B2B SaaS founders" gets the LinkedIn profile |
| `IcpScenarios.SaasDescriptionGetsSaas` | src/lib/icp-generator.ts:8-142 | "Our B2B SaaS platform helps growth teams" gets the SaaS profile |
| `IcpScenarios.GenericDescriptionGetsDefault` | src/lib/icp-generator.ts:8-182 | "A generic productivity app" gets the default profile |
| `IcpScenarios.CaseDoesNotMatter` | src/lib/icp-generator.ts:8-20 | "LINKEDIN tool" and "linkedin tool" both get the LinkedIn profile |
| `IcpScenarios.AIFlagAloneChangesNothing` | src/lib/icp-generator.ts:16-182 | "ai" raises the AI flag and the empty description does not, yet both get the default profile |
| `IcpScenarios.NoKeywordLettersGetsDefault` | src/lib/icp-generator.ts:8-182 | a description in which 'k', 'h', 's' and 'b' appear in neither case cannot contain any LinkedIn or SaaS keyword, so it gets the default profile |

## Left out

- `Text.Lower`: models ASCII case folding only. JavaScript's `toLowerCase` folds all of Unicode. It can change the length (U+0130 becomes two characters) and can map non-ASCII characters onto keyword letters (the Kelvin sign U+212A becomes 'k'). Such descriptions may be classified differently here.
- The generator calls `toLowerCase()` once per `includes` test, up to nine times per call (the `||` chains short-circuit). It is a pure function of the same string, so the model folds once.
- Every persona field is present in all three literals. The model therefore makes every field required and does not model optional fields.
- Returning a fresh object per call is not modelled. Dafny datatypes are immutable values, so no caller can change a shared template.
- src/components/ICPGenerator.tsx: React state, the simulated 2-second delay, toasts and the busy flag are user-interface plumbing. The non-empty `input.trim()` check there is made by the caller. The generator itself accepts the empty string, and `EmptyDescriptionGetsDefault` covers that case.
- src/components/ICPOutput.tsx: rendering, clipboard, file download and label formatting are I/O. The JSON text is produced by the library call `JSON.stringify`, which is not part of this model, so no serialisation round trip is stated.
- Identical inputs give identical outputs because `GenerateICP` is a Dafny function. No separate lemma states this.
- The default profile is returned for every description without a LinkedIn or SaaS keyword, the empty one included.
