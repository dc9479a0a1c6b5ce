/** The claim side of the verifier (src/wiki_grounding/verifier.py): verdicts and
    their confidence gate, relation-name normalisation, the claim parser and entity
    grounding. The regular-expression engine, `str.title()` and the hierarchy
    queries of a profile are not modelled; they are handed in as an environment. */
module Claims {
  import opened Base
  import opened Text
  import opened Entities
  import opened KnowledgeStore

  datatype VerificationStatus = Supported | Contradicted | Unverifiable | Plausible

  datatype ClaimType = AttributionClaim | LocationClaim | TemporalClaim | PropertyClaim | RelationClaim

  /** Below this confidence SUPPORTED and CONTRADICTED are reported as UNVERIFIABLE. */
  const ConfidenceThreshold: real := 0.6

  datatype VerificationResult = VerificationResult(
    claim: string,
    status: VerificationStatus,
    claimType: Option<ClaimType>,
    confidence: real,
    subjectEntity: Option<EntityProfile>,
    objectEntity: Option<EntityProfile>,
    supportingEvidence: seq<string>,
    contradictingEvidence: seq<string>,
    correction: Option<string>,
    abstentionReason: Option<string>)
  {
    predicate IsConfident()
    {
      confidence >= ConfidenceThreshold
    }

    /** The status after the confidence gate: only SUPPORTED and CONTRADICTED are
        gated, and only below the threshold. */
    function EffectiveStatus(): (s: VerificationStatus)
      ensures s == status || s == Unverifiable
      ensures s != status <==> (status == Supported || status == Contradicted) && confidence < ConfidenceThreshold
      ensures s == Supported || s == Contradicted ==> IsConfident()
      ensures status == Plausible || status == Unverifiable ==> s == status
    {
      if (status == Supported || status == Contradicted) && !IsConfident() then Unverifiable
      else status
    }
  }

  /** The uninterpreted parts of the verifier's world. `matcher(pattern, text)` is
      `re.match(Regex(pattern), text, re.IGNORECASE)` giving the capture groups;
      `title` is `str.title()`; `isDescendantOf` and `navigateFromZero` are the
      profile's hierarchy queries, whose definitions are not part of this model. */
  datatype Env = Env(
    matcher: (Pattern, string) -> Option<seq<string>>,
    title: string -> string,
    isDescendantOf: (EntityProfile, string, GroundingDimension) -> bool,
    navigateFromZero: (EntityProfile, GroundingDimension) -> seq<string>)

  // ---------------------------------------------------------------------------
  // Relation names
  // ---------------------------------------------------------------------------

  /** `s.replace(c, "")`. */
  function Remove(s: string, c: char): (r: string)
    ensures c !in r
    ensures forall i :: 0 <= i < |r| ==> r[i] in s
    ensures c !in s ==> r == s
  {
    if s == [] then []
    else if s[0] == c then Remove(s[1..], c)
    else [s[0]] + Remove(s[1..], c)
  }

  predicate NoUpper(s: string)
  {
    forall i :: 0 <= i < |s| ==> !('A' <= s[i] <= 'Z')
  }

  /** `rel.lower().replace("_", "").replace("-", "").replace(" ", "")`. */
  function NormalizeRelation(rel: string): string
  {
    Remove(Remove(Remove(Lower(rel), '_'), '-'), ' ')
  }

  /** A normalised name has no separators and no upper-case letters. */
  lemma NormalizedIsClean(rel: string)
    ensures '_' !in NormalizeRelation(rel) && '-' !in NormalizeRelation(rel) && ' ' !in NormalizeRelation(rel)
    ensures NoUpper(NormalizeRelation(rel))
  {
    var n := NormalizeRelation(rel);
    forall i | 0 <= i < |n|
      ensures !('A' <= n[i] <= 'Z')
    {
      assert n[i] in Lower(rel);
    }
  }

  /** A name without separators or upper-case letters is its own normal form. */
  lemma CleanIsNormalized(s: string)
    requires '_' !in s && '-' !in s && ' ' !in s && NoUpper(s)
    ensures NormalizeRelation(s) == s
  {
    assert Lower(s) == s;
  }

  /** Normalising twice is normalising once. */
  lemma NormalizeIdempotent(rel: string)
    ensures NormalizeRelation(NormalizeRelation(rel)) == NormalizeRelation(rel)
  {
    NormalizedIsClean(rel);
    CleanIsNormalized(NormalizeRelation(rel));
  }

  /** Claim verbs to the relation names that count as that verb. */
  const ClaimToRelations: map<string, seq<string>> := map[
    "created" := ["creator_of", "created", "invented", "RelatedTo"],
    "wrote" := ["author_of", "wrote", "RelatedTo"],
    "invented" := ["inventor_of", "invented", "created", "RelatedTo"],
    "discovered" := ["discoverer_of", "discovered", "RelatedTo"],
    "founded" := ["founder_of", "founded", "RelatedTo"],
    "built" := ["builder_of", "built", "constructed", "RelatedTo"],
    "capital" := ["capital_of", "AtLocation", "PartOf"],
    "located" := ["located_in", "part_of", "AtLocation", "PartOf"]
  ]

  /** Normalised relation names that express location. */
  const LocationRelations: set<string> := {"atlocation", "partof", "locatedin", "isin", "part_of", "located_in", "in"}

  // ---------------------------------------------------------------------------
  // Parsing
  // ---------------------------------------------------------------------------

  /** The claim patterns, named after the phrase each recognises. */
  datatype Pattern =
    | VerbPattern | RoleOfPattern | InPattern | CapitalOfPattern
    | BornInPattern | HappenedInPattern | IsAPattern | WasAPattern

  /** The regular expression of each pattern, matched case-insensitively. */
  function Regex(p: Pattern): string
  {
    match p
    case VerbPattern => @"(.+?)\s+(created|wrote|invented|developed|discovered|founded|built)\s+(.+)"
    case RoleOfPattern => @"(.+?)\s+is\s+the\s+(creator|inventor|author|founder)\s+of\s+(.+)"
    case InPattern => @"(.+?)\s+is\s+(in|located in|situated in)\s+(.+)"
    case CapitalOfPattern => @"(.+?)\s+is\s+the\s+capital\s+of\s+(.+)"
    case BornInPattern => @"(.+?)\s+was\s+born\s+in\s+(\d{4})"
    case HappenedInPattern => @"(.+?)\s+(happened|occurred)\s+in\s+(\d{4})"
    case IsAPattern => @"(.+?)\s+is\s+(?:a|an)\s+(.+)"
    case WasAPattern => @"(.+?)\s+was\s+(?:a|an)\s+(.+)"
  }

  /** The claim patterns in the order they are tried: two per claim type, in the
      order ATTRIBUTION, LOCATION, TEMPORAL, PROPERTY. */
  const RelationPatterns: seq<(ClaimType, Pattern)> := [
    (AttributionClaim, VerbPattern),
    (AttributionClaim, RoleOfPattern),
    (LocationClaim, InPattern),
    (LocationClaim, CapitalOfPattern),
    (TemporalClaim, BornInPattern),
    (TemporalClaim, HappenedInPattern),
    (PropertyClaim, IsAPattern),
    (PropertyClaim, WasAPattern)
  ]

  /** A parsed claim: type, subject, relation and object text. */
  datatype ParsedClaim = ParsedClaim(claimType: ClaimType, subject: string, relation: string, obj: string)

  /** The triple read off the groups of a match with at least two groups: the
      relation is the stripped second group only when there are more than two. */
  function TripleOf(claimType: ClaimType, groups: seq<string>): (p: ParsedClaim)
    requires |groups| >= 2
    ensures p.claimType == claimType
    ensures p.subject == Strip(groups[0]) && p.obj == Strip(groups[|groups| - 1])
    ensures |groups| == 2 ==> p.relation == ""
    ensures |groups| > 2 ==> p.relation == Strip(groups[1])
  {
    ParsedClaim(claimType, Strip(groups[0]), if |groups| > 2 then Strip(groups[1]) else "", Strip(groups[|groups| - 1]))
  }

  /** A pattern matches the text with at least two groups. */
  predicate Usable(env: Env, text: string, pattern: (ClaimType, Pattern))
  {
    var m := env.matcher(pattern.1, text);
    m.Some? && |m.value| >= 2
  }

  /** The text the patterns see: stripped, then trailing dots removed. */
  function CleanClaim(claim: string): string
  {
    StripTrailingDots(Strip(claim))
  }

  /** The index of the first pattern that matches the text with at least two
      groups: the nested loops over the families and their patterns. */
  function FirstUsable(env: Env, text: string): Option<nat>
  {
    Find(RelationPatterns, (pat: (ClaimType, Pattern)) => Usable(env, text, pat))
  }

  /** The triple the `i`-th pattern gives when it is usable. */
  function TripleAt(env: Env, text: string, i: nat): ParsedClaim
    requires i < |RelationPatterns| && Usable(env, text, RelationPatterns[i])
  {
    TripleOf(RelationPatterns[i].0, env.matcher(RelationPatterns[i].1, text).value)
  }

  /** `_parse_claim(claim)`. */
  function ParseClaim(env: Env, claim: string): Option<ParsedClaim>
  {
    var text := CleanClaim(claim);
    match FirstUsable(env, text)
    case Some(i) => Some(TripleAt(env, text, i))
    case None => None
  }

  /** A claim parses iff some pattern matches its cleaned text with at least two
      groups, and then the earliest such pattern decides type, subject, relation and
      object. */
  lemma ParseClaimFirstMatch(env: Env, claim: string)
    ensures ParseClaim(env, claim).None? <==>
              forall i :: 0 <= i < |RelationPatterns| ==> !Usable(env, CleanClaim(claim), RelationPatterns[i])
    ensures ParseClaim(env, claim).Some? ==>
              exists i :: 0 <= i < |RelationPatterns| && Usable(env, CleanClaim(claim), RelationPatterns[i])
                && (forall j :: 0 <= j < i ==> !Usable(env, CleanClaim(claim), RelationPatterns[j]))
                && ParseClaim(env, claim).value == TripleAt(env, CleanClaim(claim), i)
  {
    var text := CleanClaim(claim);
    var f := FirstUsable(env, text);
    if f.Some? {
      assert ParseClaim(env, claim).value == TripleAt(env, text, f.value);
    }
  }

  /** A claim that an attribution pattern matches usably parses as ATTRIBUTION,
      whatever the later families would say. */
  lemma AttributionFirst(env: Env, claim: string)
    requires Usable(env, CleanClaim(claim), RelationPatterns[0]) || Usable(env, CleanClaim(claim), RelationPatterns[1])
    ensures ParseClaim(env, claim).Some? && ParseClaim(env, claim).value.claimType == AttributionClaim
  {
    var text := CleanClaim(claim);
    var i := FirstUsable(env, text).value;
    assert i <= 1;
    assert RelationPatterns[0].0 == AttributionClaim && RelationPatterns[1].0 == AttributionClaim;
  }

  /** A claim parses as PROPERTY only when no ATTRIBUTION, LOCATION or TEMPORAL
      pattern matched usably. */
  lemma PropertyLast(env: Env, claim: string)
    requires ParseClaim(env, claim).Some? && ParseClaim(env, claim).value.claimType == PropertyClaim
    ensures forall i :: 0 <= i < 6 ==> !Usable(env, CleanClaim(claim), RelationPatterns[i])
  {
    var text := CleanClaim(claim);
    var i := FirstUsable(env, text).value;
    assert RelationPatterns[i].0 == PropertyClaim;
    PropertyPatternsLast(i);
  }

  /** The PROPERTY patterns are the last two. */
  lemma PropertyPatternsLast(i: nat)
    requires i < |RelationPatterns| && RelationPatterns[i].0 == PropertyClaim
    ensures i >= 6
  {
  }

  // ---------------------------------------------------------------------------
  // Grounding
  // ---------------------------------------------------------------------------

  /** The leading articles, in the order they are tried. */
  const Articles: seq<string> := ["the ", "a ", "an ", "The ", "A ", "An "]

  /** Whether `s` starts with the article `a`. */
  predicate HasArticle(s: string, a: string)
  {
    StartsWith(s, a)
  }

  /** Drops the first article of the list that the text starts with, if any. */
  function StripArticle(s: string): string
  {
    match Find(Articles, (a: string) => HasArticle(s, a))
    case Some(i) => s[|Articles[i]|..]
    case None => s
  }

  /** At most one article is dropped, and it is the first of the list that the
      text starts with; "the " is the first tried. */
  lemma StripArticleCases(s: string)
    ensures StripArticle(s) == s || exists i :: 0 <= i < |Articles| && HasArticle(s, Articles[i]) && StripArticle(s) == s[|Articles[i]|..]
    ensures (forall i :: 0 <= i < |Articles| ==> !HasArticle(s, Articles[i])) ==> StripArticle(s) == s
    ensures HasArticle(s, "the ") ==> StripArticle(s) == s[4..]
  {
    var f := Find(Articles, (a: string) => HasArticle(s, a));
    if HasArticle(s, "the ") {
      assert Articles[0] == "the ";
      assert f == Some(0);
    }
  }

  /** The mention with surrounding whitespace and at most one article removed. */
  function Normalized(mention: string): string
  {
    StripArticle(Strip(mention))
  }

  /** The spellings tried, in order of preference: the normalised form first when
      normalising changed the mention, the mention itself first otherwise. */
  function Variants(env: Env, mention: string): (v: seq<string>)
    ensures |v| == 3 && mention in v && Normalized(mention) in v
    ensures mention != Normalized(mention) ==>
              v == [Normalized(mention), env.title(Normalized(mention)), mention]
    ensures mention == Normalized(mention) ==> v == [mention, mention, env.title(mention)]
  {
    var normalized := Normalized(mention);
    if mention != normalized then [normalized, env.title(normalized), mention]
    else [mention, normalized, env.title(normalized)]
  }

  /** The searches in the order they are made: for each variant the exact search,
      then the substring search, each limited to 5. */
  function Lookups(store: Store, variants: seq<string>): (l: seq<seq<EntityProfile>>)
    ensures |l| == 2 * |variants|
    ensures forall k :: 0 <= k < |variants| ==>
              l[2 * k] == store.SearchExact(variants[k], 5) && l[2 * k + 1] == store.Search(variants[k], 5)
  {
    if variants == [] then []
    else [store.SearchExact(variants[0], 5), store.Search(variants[0], 5)] + Lookups(store, variants[1..])
  }

  /** The best hit of the first non-empty search. */
  function FirstHit(lookups: seq<seq<EntityProfile>>): (r: Option<EntityProfile>)
    ensures r.None? <==> forall i :: 0 <= i < |lookups| ==> lookups[i] == []
  {
    match Find(lookups, (l: seq<EntityProfile>) => l != [])
    case Some(i) => Some(lookups[i][0])
    case None => None
  }

  /** `_ground_entity(mention)`. */
  function GroundSpec(env: Env, store: Store, mention: string): Option<EntityProfile>
  {
    FirstHit(Lookups(store, Variants(env, mention)))
  }

  /** Grounding fails exactly when every search of every variant is empty. */
  lemma GroundNoneIff(env: Env, store: Store, mention: string)
    ensures GroundSpec(env, store, mention).None? <==>
              forall v :: v in Variants(env, mention) ==> store.SearchExact(v, 5) == [] && store.Search(v, 5) == []
  {
    var variants := Variants(env, mention);
    var lookups := Lookups(store, variants);
    if GroundSpec(env, store, mention).None? {
      forall v | v in variants
        ensures store.SearchExact(v, 5) == [] && store.Search(v, 5) == []
      {
        var k :| 0 <= k < |variants| && variants[k] == v;
        assert lookups[2 * k] == [] && lookups[2 * k + 1] == [];
      }
    } else {
      var i :| 0 <= i < |lookups| && lookups[i] != [];
      var k := if i < 2 then 0 else if i < 4 then 1 else 2;
      assert i == 2 * k || i == 2 * k + 1;
      assert variants[k] in variants;
    }
  }

  /** For the preferred variant the exact search wins over the substring search,
      and a hit there decides the grounding. */
  lemma GroundExactFirst(env: Env, store: Store, mention: string)
    ensures var v := Variants(env, mention)[0];
      (store.SearchExact(v, 5) != [] ==> GroundSpec(env, store, mention) == Some(store.SearchExact(v, 5)[0]))
      && (store.SearchExact(v, 5) == [] && store.Search(v, 5) != [] ==>
            GroundSpec(env, store, mention) == Some(store.Search(v, 5)[0]))
  {
    FirstVariantDecides(store, Variants(env, mention));
  }

  /** The searches for the first of any list of variants come first. */
  lemma FirstVariantDecides(store: Store, variants: seq<string>)
    requires variants != []
    ensures var v := variants[0];
      (store.SearchExact(v, 5) != [] ==> FirstHit(Lookups(store, variants)) == Some(store.SearchExact(v, 5)[0]))
      && (store.SearchExact(v, 5) == [] && store.Search(v, 5) != [] ==>
            FirstHit(Lookups(store, variants)) == Some(store.Search(v, 5)[0]))
  {
    var lookups := Lookups(store, variants);
    assert lookups[0] == store.SearchExact(variants[0], 5) && lookups[1] == store.Search(variants[0], 5);
    if lookups[0] != [] {
      FindAt(lookups, (l: seq<EntityProfile>) => l != [], 0);
    } else if lookups[1] != [] {
      FindAt(lookups, (l: seq<EntityProfile>) => l != [], 1);
    }
  }

  /** The article loop: the first article the stripped mention starts with is cut
      off, and the loop stops there. */
  method NormalizeMention(mention: string) returns (normalized: string)
    ensures normalized == Normalized(mention)
  {
    normalized := Strip(mention);
    var hit := FindFirst(Articles, (a: string) => HasArticle(normalized, a));
    if hit.Some? {
      normalized := normalized[|Articles[hit.value]|..];
    }
  }

  /** The variant loop: exact search, then substring search, for each variant in
      turn; the first hit is returned. */
  method SearchVariants(store: Store, variants: seq<string>) returns (r: Option<EntityProfile>)
    ensures r == FirstHit(Lookups(store, variants))
  {
    ghost var lookups := Lookups(store, variants);
    for k := 0 to |variants|
      invariant forall j :: 0 <= j < 2 * k ==> lookups[j] == []
    {
      var exact := store.SearchExact(variants[k], 5);
      if exact != [] {
        assert lookups[2 * k] == exact;
        return Some(exact[0]);
      }
      var fuzzy := store.Search(variants[k], 5);
      if fuzzy != [] {
        assert lookups[2 * k + 1] == fuzzy;
        return Some(fuzzy[0]);
      }
      assert lookups[2 * k] == [] && lookups[2 * k + 1] == [];
    }
    r := None;
  }

  /** Grounds a mention: the article loop, the order of the variants, then the
      variant loop. */
  method GroundEntity(env: Env, store: Store, mention: string) returns (r: Option<EntityProfile>)
    ensures r == GroundSpec(env, store, mention)
  {
    var normalized := NormalizeMention(mention);
    var variants := [mention, normalized, env.title(normalized)];
    if mention != normalized {
      variants := [normalized, env.title(normalized), mention];
    }
    r := SearchVariants(store, variants);
  }
}
