/** Claim verification (src/wiki_grounding/verifier.py): each parsed claim type has
    a cascade of checks against the store, from hierarchy positions through link
    rows to anchors, and the first check that fires decides the verdict and its
    fixed confidence. Temporal and relation claims fall back on spreading
    activation from the subject. */
module Verifier {
  import opened Base
  import opened Text
  import opened Entities
  import opened KnowledgeStore
  import opened Spreading
  import opened Claims

  /** A verdict about a grounded subject, with no abstention reason. */
  function Verdict(claim: string, status: VerificationStatus, claimType: ClaimType, confidence: real,
                   subject: EntityProfile, objectEntity: Option<EntityProfile>,
                   supporting: seq<string>, contradicting: seq<string>, correction: Option<string>)
    : VerificationResult
  {
    VerificationResult(claim, status, Some(claimType), confidence, Some(subject), objectEntity,
                       supporting, contradicting, correction, None)
  }

  /** The `f"{rel}: {label}"` evidence line for a related tuple. */
  function Evidence(x: Related): string
  {
    x.relation + ": " + x.profile.entity.name
  }

  // ---------------------------------------------------------------------------
  // Attribution
  // ---------------------------------------------------------------------------

  /** The relation names that count as the claimed verb; an unknown verb stands
      for itself, lower-cased. */
  function RelationTypes(relation: string): (types: seq<string>)
    ensures |types| >= 1
  {
    var key := Lower(relation);
    if key in ClaimToRelations then ClaimToRelations[key] else [key]
  }

  /** A stored relation names the claimed one: equal after normalisation, or one
      of the relation types occurs in it lower-cased. */
  predicate NamesRelation(rel: string, types: seq<string>)
  {
    (exists i :: 0 <= i < |types| && NormalizeRelation(types[i]) == NormalizeRelation(rel))
    || (exists i :: 0 <= i < |types| && IsSubstring(types[i], Lower(rel)))
  }

  /** For support, a generic `RelatedTo` link also counts. */
  predicate SupportsRelation(rel: string, types: seq<string>)
  {
    NamesRelation(rel, types) || NormalizeRelation(rel) == "relatedto"
  }

  /** The related entity is the claimed object: the grounded object itself, or an
      entity whose label contains the object text. */
  predicate IsObject(x: Related, objectStr: string, objectEntity: Option<EntityProfile>)
  {
    (objectEntity.Some? && x.profile.entity.id == objectEntity.value.entity.id)
    || IsSubstring(Lower(objectStr), Lower(x.profile.entity.name))
  }

  predicate Supports(x: Related, types: seq<string>, objectStr: string, objectEntity: Option<EntityProfile>)
  {
    SupportsRelation(x.relation, types) && IsObject(x, objectStr, objectEntity)
  }

  /** The evidence lines of the supporting tuples, in order. */
  function SupportingEvidence(related: seq<Related>, types: seq<string>, objectStr: string,
                              objectEntity: Option<EntityProfile>): seq<string>
  {
    FilterMap(related, (x: Related) => Supports(x, types, objectStr, objectEntity), Evidence)
  }

  /** A tuple into the object from an entity other than the subject under a
      matching relation (the generic `RelatedTo` does not count here). */
  predicate Contradicts(x: Related, types: seq<string>, subject: EntityProfile)
  {
    NamesRelation(x.relation, types) && x.profile.entity.id != subject.entity.id
  }

  /** The second half of `_verify_attribution`, for a grounded object and no
      supporting evidence: the first incoming tuple of the object that
      contradicts decides. */
  function ContradictionOutcome(store: Store, claim: string, subject: EntityProfile, relation: string,
                                types: seq<string>, objectStr: string, objectEntity: EntityProfile)
    : (r: VerificationResult)
    ensures r.claim == claim && r.claimType == Some(AttributionClaim) && r.subjectEntity == Some(subject)
    ensures r.objectEntity == Some(objectEntity)
    ensures r.status == Contradicted || r.status == Unverifiable
    ensures r.status == Contradicted ==> r.confidence == 0.85
    ensures r.status == Unverifiable ==> r.confidence == 0.4 && r.contradictingEvidence == [] && r.correction == None
  {
    var objectRelated := store.GetRelated(objectEntity.entity.id, Incoming, 50);
    match Find(objectRelated, (x: Related) => Contradicts(x, types, subject))
    case Some(i) =>
      var other := objectRelated[i];
      Verdict(claim, Contradicted, AttributionClaim, 0.85, subject, Some(objectEntity), [], [Evidence(other)],
              Some(objectStr + " was " + relation + " by " + other.profile.entity.name))
    case None => Verdict(claim, Unverifiable, AttributionClaim, 0.4, subject, Some(objectEntity), [], [], None)
  }

  /** `_verify_attribution`: supported by a matching outgoing link of the subject
      to the object; contradicted by a matching incoming link of the object from
      another entity; otherwise unverifiable. */
  function AttributionOutcome(store: Store, claim: string, subject: EntityProfile, relation: string,
                              objectStr: string, objectEntity: Option<EntityProfile>): (r: VerificationResult)
    ensures r.claim == claim && r.claimType == Some(AttributionClaim) && r.subjectEntity == Some(subject)
    ensures r.objectEntity == objectEntity
    ensures r.status != Plausible
    ensures r.status == Supported ==> r.confidence == 0.9 && r.supportingEvidence != []
    ensures r.status == Contradicted ==> r.confidence == 0.85
    ensures r.status == Unverifiable ==> r.confidence == 0.4 && r.supportingEvidence == []
  {
    var related := store.GetRelated(subject.entity.id, Outgoing, 100);
    var types := RelationTypes(relation);
    var supporting := SupportingEvidence(related, types, objectStr, objectEntity);
    if supporting != [] then
      Verdict(claim, Supported, AttributionClaim, 0.9, subject, objectEntity, supporting, [], None)
    else if objectEntity.Some? then
      ContradictionOutcome(store, claim, subject, relation, types, objectStr, objectEntity.value)
    else Verdict(claim, Unverifiable, AttributionClaim, 0.4, subject, objectEntity, [], [], None)
  }

  /** The contradiction half in terms of the incoming tuples of the object:
      CONTRADICTED exactly when one of them contradicts, and then the first such
      tuple gives the evidence and the correction. */
  lemma ContradictionVerdicts(store: Store, claim: string, subject: EntityProfile, relation: string,
                              types: seq<string>, objectStr: string, objectEntity: EntityProfile)
    ensures var r := ContradictionOutcome(store, claim, subject, relation, types, objectStr, objectEntity);
      var incoming := store.GetRelated(objectEntity.entity.id, Incoming, 50);
      (r.status == Contradicted <==> exists k :: 0 <= k < |incoming| && Contradicts(incoming[k], types, subject))
      && (r.status == Contradicted ==>
            exists k :: 0 <= k < |incoming| && Contradicts(incoming[k], types, subject)
              && (forall j :: 0 <= j < k ==> !Contradicts(incoming[j], types, subject))
              && r.contradictingEvidence == [Evidence(incoming[k])]
              && r.correction == Some(objectStr + " was " + relation + " by " + incoming[k].profile.entity.name))
  {
    var r := ContradictionOutcome(store, claim, subject, relation, types, objectStr, objectEntity);
    var incoming := store.GetRelated(objectEntity.entity.id, Incoming, 50);
    var found := Find(incoming, (x: Related) => Contradicts(x, types, subject));
    if found.Some? {
      var k := found.value;
      assert Contradicts(incoming[k], types, subject);
      assert r.status == Contradicted && r.contradictingEvidence == [Evidence(incoming[k])];
    } else {
      assert r.status == Unverifiable;
    }
  }

  /** The verdicts of an attribution check in terms of the link rows: SUPPORTED
      exactly when some outgoing tuple of the subject supports the claim;
      CONTRADICTED exactly when none does, the object is grounded and some incoming
      tuple of the object names the relation from another entity, and then the
      correction names the first such entity. */
  lemma AttributionVerdicts(store: Store, claim: string, subject: EntityProfile, relation: string,
                            objectStr: string, objectEntity: Option<EntityProfile>)
    ensures var r := AttributionOutcome(store, claim, subject, relation, objectStr, objectEntity);
      var related := store.GetRelated(subject.entity.id, Outgoing, 100);
      var types := RelationTypes(relation);
      var supported := exists k :: 0 <= k < |related| && Supports(related[k], types, objectStr, objectEntity);
      (r.status == Supported <==> supported)
      && (r.status == Supported ==> r.supportingEvidence == SupportingEvidence(related, types, objectStr, objectEntity))
      && (r.status == Contradicted ==> !supported && objectEntity.Some?)
      && (objectEntity.None? && !supported ==> r.status == Unverifiable && r.confidence == 0.4)
      && (objectEntity.Some? && !supported ==>
            r == ContradictionOutcome(store, claim, subject, relation, types, objectStr, objectEntity.value))
  {
  }

  /** The evidence loop of `_verify_attribution`. */
  method CollectSupporting(related: seq<Related>, types: seq<string>, objectStr: string,
                           objectEntity: Option<EntityProfile>)
    returns (supporting: seq<string>)
    ensures supporting == SupportingEvidence(related, types, objectStr, objectEntity)
  {
    ghost var p := (x: Related) => Supports(x, types, objectStr, objectEntity);
    supporting := [];
    for i := 0 to |related|
      invariant supporting == FilterMap(related[..i], p, Evidence)
    {
      FilterMapStep(related, i, p, Evidence);
      var x := related[i];
      if SupportsRelation(x.relation, types) {
        if objectEntity.Some? && x.profile.entity.id == objectEntity.value.entity.id {
          supporting := supporting + [Evidence(x)];
        } else if IsSubstring(Lower(objectStr), Lower(x.profile.entity.name)) {
          supporting := supporting + [Evidence(x)];
        }
      }
    }
    assert related[..|related|] == related;
  }

  /** The contradiction loop of `_verify_attribution`. */
  method FindContradiction(store: Store, claim: string, subject: EntityProfile, relation: string,
                           types: seq<string>, objectStr: string, objectEntity: EntityProfile)
    returns (r: VerificationResult)
    ensures r == ContradictionOutcome(store, claim, subject, relation, types, objectStr, objectEntity)
  {
    var objectRelated := store.GetRelated(objectEntity.entity.id, Incoming, 50);
    var found := FindFirst(objectRelated, (x: Related) => Contradicts(x, types, subject));
    if found.Some? {
      var other := objectRelated[found.value];
      r := Verdict(claim, Contradicted, AttributionClaim, 0.85, subject, Some(objectEntity), [], [Evidence(other)],
                   Some(objectStr + " was " + relation + " by " + other.profile.entity.name));
    } else {
      r := Verdict(claim, Unverifiable, AttributionClaim, 0.4, subject, Some(objectEntity), [], [], None);
    }
  }

  /** `_verify_attribution`. */
  method VerifyAttribution(store: Store, claim: string, subject: EntityProfile, relation: string,
                           objectStr: string, objectEntity: Option<EntityProfile>)
    returns (r: VerificationResult)
    ensures r == AttributionOutcome(store, claim, subject, relation, objectStr, objectEntity)
  {
    var related := store.GetRelated(subject.entity.id, Outgoing, 100);
    var types := RelationTypes(relation);
    var supporting := CollectSupporting(related, types, objectStr, objectEntity);
    if supporting != [] {
      return Verdict(claim, Supported, AttributionClaim, 0.9, subject, objectEntity, supporting, [], None);
    }
    if objectEntity.Some? {
      r := FindContradiction(store, claim, subject, relation, types, objectStr, objectEntity.value);
    } else {
      r := Verdict(claim, Unverifiable, AttributionClaim, 0.4, subject, objectEntity, [], [], None);
    }
  }

  // ---------------------------------------------------------------------------
  // Location
  // ---------------------------------------------------------------------------

  /** `path[-3:]`. */
  function LastThree(path: seq<string>): (r: seq<string>)
    ensures |r| == Min(3, |path|) && r == path[|path| - |r|..]
  {
    if |path| <= 3 then path else path[|path| - 3..]
  }

  /** A link of the subject that places it in the claimed location. */
  predicate LocatesIn(x: Related, objectStr: string, objectEntity: Option<EntityProfile>)
  {
    NormalizeRelation(x.relation) in LocationRelations && IsObject(x, objectStr, objectEntity)
  }

  /** A geographic anchor whose label contains the claimed location. */
  predicate GeographicAnchor(a: AnchorRef, objectStr: string)
  {
    a.category == Some("GEOGRAPHY") && IsSubstring(Lower(objectStr), Lower(a.anchorLabel))
  }

  /** The checks of `_verify_location` for a subject without a SPATIAL position:
      location links first (label match before identity match), then geographic
      anchors. */
  function LocationFallback(store: Store, claim: string, subject: EntityProfile, objectStr: string,
                            objectEntity: Option<EntityProfile>): (r: VerificationResult)
    ensures r.claim == claim && r.claimType == Some(LocationClaim) && r.objectEntity == objectEntity
    ensures r.subjectEntity == Some(subject)
    ensures r.status != Contradicted
    ensures r.status == Supported ==> r.confidence == 0.75 || r.confidence == 0.85
    ensures r.status == Plausible ==> r.confidence == 0.6
    ensures r.status == Unverifiable ==> r.confidence == 0.3
  {
    Fallback(store.GetRelated(subject.entity.id, Outgoing, 50), store.entityAnchors(subject.entity.id),
             claim, subject, objectStr, objectEntity)
  }

  /** The fallback checks over the first 50 outgoing tuples of the subject and its
      anchors. */
  function Fallback(related: seq<Related>, anchors: seq<AnchorRef>, claim: string, subject: EntityProfile,
                    objectStr: string, objectEntity: Option<EntityProfile>): (r: VerificationResult)
    ensures r.claim == claim && r.claimType == Some(LocationClaim) && r.objectEntity == objectEntity
    ensures r.subjectEntity == Some(subject)
    ensures r.status != Contradicted
    ensures r.status == Supported ==> r.confidence == 0.75 || r.confidence == 0.85
    ensures r.status == Plausible ==> r.confidence == 0.6
    ensures r.status == Unverifiable ==> r.confidence == 0.3
  {
    match Find(related, (x: Related) => LocatesIn(x, objectStr, objectEntity))
    case Some(i) =>
      var x := related[i];
      if IsSubstring(Lower(objectStr), Lower(x.profile.entity.name)) then
        Verdict(claim, Supported, LocationClaim, 0.75, subject, objectEntity, [Evidence(x)], [], None)
      else
        Verdict(claim, Supported, LocationClaim, 0.85, subject, objectEntity, [Evidence(x) + " (exact match)"], [], None)
    case None =>
      match Find(anchors, (a: AnchorRef) => GeographicAnchor(a, objectStr))
      case Some(j) =>
        Verdict(claim, Plausible, LocationClaim, 0.6, subject, objectEntity, ["Geographic anchor: " + anchors[j].anchorLabel], [], None)
      case None => Verdict(claim, Unverifiable, LocationClaim, 0.3, subject, objectEntity, [], [], None)
  }

  /** `_verify_location`: the SPATIAL hierarchy decides whenever the subject has a
      SPATIAL position; otherwise the fallbacks decide. */
  function LocationOutcome(env: Env, store: Store, claim: string, subject: EntityProfile, objectStr: string,
                           objectEntity: Option<EntityProfile>): (r: VerificationResult)
    ensures r.claim == claim && r.claimType == Some(LocationClaim) && r.subjectEntity == Some(subject)
    ensures r.objectEntity == objectEntity
    ensures r.status == Supported ==> r.confidence >= 0.75
    ensures r.status == Contradicted ==> r.confidence == 0.8
    ensures r.status == Plausible ==> r.confidence == 0.6
    ensures r.status == Unverifiable ==> r.confidence == 0.3
  {
    if env.isDescendantOf(subject, objectStr, Spatial) then
      var evidence := if subject.GetPosition(Spatial).Some?
                      then ["SPATIAL hierarchy: " + Join(env.navigateFromZero(subject, Spatial), " > ")] else [];
      Verdict(claim, Supported, LocationClaim, 0.95, subject, objectEntity, evidence, [], None)
    else
      match subject.GetPosition(Spatial)
      case Some(pos) =>
        Verdict(claim, Contradicted, LocationClaim, 0.8, subject, objectEntity, [],
                ["SPATIAL hierarchy: " + Join(pos.pathNodes, " > ")],
                Some(subject.entity.name + " is located in " + Join(LastThree(pos.pathNodes), " > ")))
      case None => LocationFallback(store, claim, subject, objectStr, objectEntity)
  }

  /** The location link that decides the fallback: the first outgoing tuple (of
      the first 50) whose relation is a location relation and whose entity is the
      claimed location. */
  ghost predicate FirstLocationLink(related: seq<Related>, objectStr: string,
                                    objectEntity: Option<EntityProfile>, k: int)
  {
    0 <= k < |related| && LocatesIn(related[k], objectStr, objectEntity)
    && forall i :: 0 <= i < k ==> !LocatesIn(related[i], objectStr, objectEntity)
  }

  /** The confidence a location link earns: 0.75 when its label contains the
      claimed location, 0.85 when only the grounded identity matches. */
  function LinkConfidence(x: Related, objectStr: string): real
  {
    if IsSubstring(Lower(objectStr), Lower(x.profile.entity.name)) then 0.75 else 0.85
  }

  /** The location cascade: a SPATIAL ancestor supports with 0.95; a SPATIAL
      position without that ancestor contradicts with 0.8, with the last three
      nodes of its path as the correction; a subject without a SPATIAL position
      is supported by a location link, else plausible (0.6) by a geographic
      anchor, else unverifiable (0.3). */
  lemma LocationCascade(env: Env, store: Store, claim: string, subject: EntityProfile, objectStr: string,
                        objectEntity: Option<EntityProfile>)
    ensures var r := LocationOutcome(env, store, claim, subject, objectStr, objectEntity);
      var pos := subject.GetPosition(Spatial);
      var desc := env.isDescendantOf(subject, objectStr, Spatial);
      var related := store.GetRelated(subject.entity.id, Outgoing, 50);
      var anchors := store.entityAnchors(subject.entity.id);
      var linked := exists k :: 0 <= k < |related| && LocatesIn(related[k], objectStr, objectEntity);
      var anchored := exists j :: 0 <= j < |anchors| && GeographicAnchor(anchors[j], objectStr);
      (desc <==> r.status == Supported && r.confidence == 0.95)
      && (r.status == Contradicted <==> !desc && pos.Some?)
      && (r.status == Contradicted ==>
            r.confidence == 0.8
            && r.correction == Some(subject.entity.name + " is located in " + Join(LastThree(pos.value.pathNodes), " > ")))
      && (r.status == Supported && r.confidence != 0.95 <==> !desc && pos.None? && linked)
      && (!desc && pos.None? && linked ==>
            exists k :: FirstLocationLink(related, objectStr, objectEntity, k)
                        && r.confidence == LinkConfidence(related[k], objectStr))
      && (r.status == Plausible <==> !desc && pos.None? && !linked && anchored)
      && (r.status == Unverifiable <==> !desc && pos.None? && !linked && !anchored)
  {
    if !env.isDescendantOf(subject, objectStr, Spatial) && subject.GetPosition(Spatial).None? {
      LocationFallbackCases(store, claim, subject, objectStr, objectEntity);
    }
  }

  /** The fallback checks in both directions: SUPPORTED exactly when some location
      link names the claimed location, with the confidence of the first such link;
      PLAUSIBLE exactly when there is none but a geographic anchor matches;
      UNVERIFIABLE otherwise. */
  lemma LocationFallbackCases(store: Store, claim: string, subject: EntityProfile, objectStr: string,
                              objectEntity: Option<EntityProfile>)
    ensures var r := LocationFallback(store, claim, subject, objectStr, objectEntity);
      var related := store.GetRelated(subject.entity.id, Outgoing, 50);
      var anchors := store.entityAnchors(subject.entity.id);
      FallbackOutcome(r, related, anchors, objectStr, objectEntity)
  {
    FallbackCases(store.GetRelated(subject.entity.id, Outgoing, 50), store.entityAnchors(subject.entity.id),
                  claim, subject, objectStr, objectEntity);
  }

  /** What the fallback checks decide, in both directions: SUPPORTED exactly when
      some location link names the claimed location, with the confidence of the
      first such link; PLAUSIBLE exactly when there is none but a geographic anchor
      matches, with the first such anchor as evidence; UNVERIFIABLE otherwise. */
  ghost predicate FallbackOutcome(r: VerificationResult, related: seq<Related>, anchors: seq<AnchorRef>,
                                  objectStr: string, objectEntity: Option<EntityProfile>)
  {
    var linked := exists k :: 0 <= k < |related| && LocatesIn(related[k], objectStr, objectEntity);
    var anchored := exists j :: 0 <= j < |anchors| && GeographicAnchor(anchors[j], objectStr);
    (r.status == Supported <==> linked)
    && (linked ==>
          exists k :: FirstLocationLink(related, objectStr, objectEntity, k)
                      && r.confidence == LinkConfidence(related[k], objectStr)
                      && |r.supportingEvidence| == 1
                      && r.supportingEvidence[0] == Evidence(related[k]) + (if r.confidence == 0.85 then " (exact match)" else ""))
    && (r.status == Plausible <==> !linked && anchored)
    && (r.status == Plausible ==>
          exists j :: 0 <= j < |anchors| && GeographicAnchor(anchors[j], objectStr)
                      && (forall i :: 0 <= i < j ==> !GeographicAnchor(anchors[i], objectStr))
                      && r.supportingEvidence == ["Geographic anchor: " + anchors[j].anchorLabel])
    && (r.status == Unverifiable <==> !linked && !anchored)
  }

  /** The fallback checks over given tuples and anchors decide as `FallbackOutcome` says. */
  lemma FallbackCases(related: seq<Related>, anchors: seq<AnchorRef>, claim: string, subject: EntityProfile,
                      objectStr: string, objectEntity: Option<EntityProfile>)
    ensures FallbackOutcome(Fallback(related, anchors, claim, subject, objectStr, objectEntity),
                            related, anchors, objectStr, objectEntity)
  {
    var hit := Find(related, (x: Related) => LocatesIn(x, objectStr, objectEntity));
    if hit.Some? {
      FallbackLinked(related, anchors, claim, subject, objectStr, objectEntity, hit.value);
    } else {
      FallbackUnlinked(related, anchors, claim, subject, objectStr, objectEntity);
    }
  }

  /** A location link decides the fallback: SUPPORTED by the first such link. */
  lemma FallbackLinked(related: seq<Related>, anchors: seq<AnchorRef>, claim: string, subject: EntityProfile,
                       objectStr: string, objectEntity: Option<EntityProfile>, k: nat)
    requires Find(related, (x: Related) => LocatesIn(x, objectStr, objectEntity)) == Some(k)
    ensures FallbackOutcome(Fallback(related, anchors, claim, subject, objectStr, objectEntity),
                            related, anchors, objectStr, objectEntity)
  {
    var r := Fallback(related, anchors, claim, subject, objectStr, objectEntity);
    var e := Evidence(related[k]);
    if IsSubstring(Lower(objectStr), Lower(related[k].profile.entity.name)) {
      assert r.confidence == 0.75 && r.supportingEvidence == [e];
      assert e + "" == e;
    } else {
      assert r.confidence == 0.85 && r.supportingEvidence == [e + " (exact match)"];
    }
    assert FirstLocationLink(related, objectStr, objectEntity, k);
  }

  /** Without a location link, the first geographic anchor makes the claim
      PLAUSIBLE, and without one it is UNVERIFIABLE. */
  lemma FallbackUnlinked(related: seq<Related>, anchors: seq<AnchorRef>, claim: string, subject: EntityProfile,
                         objectStr: string, objectEntity: Option<EntityProfile>)
    requires Find(related, (x: Related) => LocatesIn(x, objectStr, objectEntity)).None?
    ensures FallbackOutcome(Fallback(related, anchors, claim, subject, objectStr, objectEntity),
                            related, anchors, objectStr, objectEntity)
  {
    var anchor := Find(anchors, (a: AnchorRef) => GeographicAnchor(a, objectStr));
    if anchor.Some? {
      assert GeographicAnchor(anchors[anchor.value], objectStr);
    }
  }

  /** The two loops of the fallback checks of `_verify_location`. */
  method VerifyLocationFallback(store: Store, claim: string, subject: EntityProfile, objectStr: string,
                                objectEntity: Option<EntityProfile>)
    returns (r: VerificationResult)
    ensures r == LocationFallback(store, claim, subject, objectStr, objectEntity)
  {
    var related := store.GetRelated(subject.entity.id, Outgoing, 50);
    var hit := FindFirst(related, (x: Related) => LocatesIn(x, objectStr, objectEntity));
    if hit.Some? {
      var x := related[hit.value];
      if IsSubstring(Lower(objectStr), Lower(x.profile.entity.name)) {
        return Verdict(claim, Supported, LocationClaim, 0.75, subject, objectEntity, [Evidence(x)], [], None);
      }
      return Verdict(claim, Supported, LocationClaim, 0.85, subject, objectEntity,
                     [Evidence(x) + " (exact match)"], [], None);
    }
    var anchors := store.entityAnchors(subject.entity.id);
    var anchor := FindFirst(anchors, (a: AnchorRef) => GeographicAnchor(a, objectStr));
    if anchor.Some? {
      return Verdict(claim, Plausible, LocationClaim, 0.6, subject, objectEntity,
                     ["Geographic anchor: " + anchors[anchor.value].anchorLabel], [], None);
    }
    r := Verdict(claim, Unverifiable, LocationClaim, 0.3, subject, objectEntity, [], [], None);
  }

  /** `_verify_location`. */
  method VerifyLocation(env: Env, store: Store, claim: string, subject: EntityProfile, objectStr: string,
                        objectEntity: Option<EntityProfile>)
    returns (r: VerificationResult)
    ensures r == LocationOutcome(env, store, claim, subject, objectStr, objectEntity)
  {
    if env.isDescendantOf(subject, objectStr, Spatial) {
      var spatial := subject.GetPosition(Spatial);
      var evidence := if spatial.Some?
                      then ["SPATIAL hierarchy: " + Join(env.navigateFromZero(subject, Spatial), " > ")] else [];
      return Verdict(claim, Supported, LocationClaim, 0.95, subject, objectEntity, evidence, [], None);
    }
    var spatial := subject.GetPosition(Spatial);
    if spatial.Some? {
      var nodes := spatial.value.pathNodes;
      return Verdict(claim, Contradicted, LocationClaim, 0.8, subject, objectEntity, [],
                     ["SPATIAL hierarchy: " + Join(nodes, " > ")],
                     Some(subject.entity.name + " is located in " + Join(LastThree(nodes), " > ")));
    }
    r := VerifyLocationFallback(store, claim, subject, objectStr, objectEntity);
  }

  // ---------------------------------------------------------------------------
  // Property
  // ---------------------------------------------------------------------------

  /** A property value that contains the claimed property. */
  predicate PropertyHit(kv: (string, string), propertyStr: string)
  {
    IsSubstring(Lower(propertyStr), Lower(kv.1))
  }

  /** A KNOWN_FOR anchor whose label contains the claimed property. */
  predicate KnownForAnchor(a: AnchorRef, propertyStr: string)
  {
    a.category == Some("KNOWN_FOR") && IsSubstring(Lower(propertyStr), Lower(a.anchorLabel))
  }

  /** The description check: a non-empty description containing the property. */
  predicate DescriptionHit(subject: EntityProfile, propertyStr: string)
  {
    subject.entity.description.Some? && subject.entity.description.value != ""
    && IsSubstring(Lower(propertyStr), Lower(subject.entity.description.value))
  }

  /** The last two checks of `_verify_property`: property values, then KNOWN_FOR
      anchors. */
  function PropertyFallback(store: Store, claim: string, subject: EntityProfile, propertyStr: string)
    : (r: VerificationResult)
    ensures r.claim == claim && r.claimType == Some(PropertyClaim) && r.objectEntity == None
    ensures r.subjectEntity == Some(subject)
    ensures r.status != Contradicted
    ensures r.status == Supported ==> r.confidence == 0.75
    ensures r.status == Plausible ==> r.confidence == 0.65
    ensures r.status == Unverifiable ==> r.confidence == 0.3
  {
    match Find(subject.properties, (kv: (string, string)) => PropertyHit(kv, propertyStr))
    case Some(i) =>
      var kv := subject.properties[i];
      Verdict(claim, Supported, PropertyClaim, 0.75, subject, None, [kv.0 + ": " + kv.1], [], None)
    case None =>
      var anchors := store.entityAnchors(subject.entity.id);
      match Find(anchors, (a: AnchorRef) => KnownForAnchor(a, propertyStr))
      case Some(j) =>
        Verdict(claim, Plausible, PropertyClaim, 0.65, subject, None, ["Known for: " + anchors[j].anchorLabel], [], None)
      case None => Verdict(claim, Unverifiable, PropertyClaim, 0.3, subject, None, [], [], None)
  }

  /** `_verify_property`: TAXONOMIC ancestor, DOMAIN ancestor, description,
      property values, KNOWN_FOR anchors, in that order. */
  function PropertyOutcome(env: Env, store: Store, claim: string, subject: EntityProfile, propertyStr: string)
    : (r: VerificationResult)
    ensures r.claim == claim && r.claimType == Some(PropertyClaim) && r.subjectEntity == Some(subject)
    ensures r.objectEntity == None
    ensures r.status != Contradicted
    ensures r.status == Supported ==> r.confidence >= 0.75
    ensures r.status == Plausible ==> r.confidence == 0.65
    ensures r.status == Unverifiable ==> r.confidence == 0.3
  {
    if env.isDescendantOf(subject, propertyStr, Taxonomic) then
      Verdict(claim, Supported, PropertyClaim, 0.9, subject, None,
              ["TAXONOMIC hierarchy: " + Join(env.navigateFromZero(subject, Taxonomic), " > ")], [], None)
    else if env.isDescendantOf(subject, propertyStr, Domain) then
      Verdict(claim, Supported, PropertyClaim, 0.85, subject, None,
              ["DOMAIN hierarchy: " + Join(env.navigateFromZero(subject, Domain), " > ")], [], None)
    else if DescriptionHit(subject, propertyStr) then
      Verdict(claim, Supported, PropertyClaim, 0.8, subject, None,
              ["Description: " + subject.entity.description.value], [], None)
    else PropertyFallback(store, claim, subject, propertyStr)
  }

  /** The property cascade never contradicts, and each check fires exactly when
      every earlier one failed: 0.9 the TAXONOMIC hierarchy, 0.85 the DOMAIN
      hierarchy, 0.8 the description, 0.75 a property value (the first matching
      one is the evidence), PLAUSIBLE 0.65 a KNOWN_FOR anchor, and UNVERIFIABLE
      0.3 when nothing matches. */
  lemma PropertyCascade(env: Env, store: Store, claim: string, subject: EntityProfile, propertyStr: string)
    ensures var r := PropertyOutcome(env, store, claim, subject, propertyStr);
      var tax := env.isDescendantOf(subject, propertyStr, Taxonomic);
      var dom := env.isDescendantOf(subject, propertyStr, Domain);
      var described := DescriptionHit(subject, propertyStr);
      var props := subject.properties;
      var anchors := store.entityAnchors(subject.entity.id);
      var valued := exists i :: 0 <= i < |props| && PropertyHit(props[i], propertyStr);
      var known := exists j :: 0 <= j < |anchors| && KnownForAnchor(anchors[j], propertyStr);
      r.status != Contradicted
      && (tax <==> r.status == Supported && r.confidence == 0.9)
      && (!tax && dom <==> r.status == Supported && r.confidence == 0.85)
      && (!tax && !dom && described <==> r.status == Supported && r.confidence == 0.8)
      && (!tax && !dom && !described && valued <==> r.status == Supported && r.confidence == 0.75)
      && (!tax && !dom && !described && valued ==>
            exists i :: 0 <= i < |props| && PropertyHit(props[i], propertyStr)
                        && (forall h :: 0 <= h < i ==> !PropertyHit(props[h], propertyStr))
                        && r.supportingEvidence == [props[i].0 + ": " + props[i].1])
      && (!tax && !dom && !described && !valued && known <==> r.status == Plausible)
      && (r.status == Plausible ==> r.confidence == 0.65)
      && (!tax && !dom && !described && !valued && !known <==> r.status == Unverifiable)
      && (r.status == Unverifiable ==> r.confidence == 0.3)
  {
    var props := subject.properties;
    var hit := Find(props, (kv: (string, string)) => PropertyHit(kv, propertyStr));
    if hit.Some? {
      assert PropertyHit(props[hit.value], propertyStr);
    }
  }

  /** The two loops of the last checks of `_verify_property`. */
  method VerifyPropertyFallback(store: Store, claim: string, subject: EntityProfile, propertyStr: string)
    returns (r: VerificationResult)
    ensures r == PropertyFallback(store, claim, subject, propertyStr)
  {
    var hit := FindFirst(subject.properties, (kv: (string, string)) => PropertyHit(kv, propertyStr));
    if hit.Some? {
      var (key, value) := subject.properties[hit.value];
      return Verdict(claim, Supported, PropertyClaim, 0.75, subject, None, [key + ": " + value], [], None);
    }
    var anchors := store.entityAnchors(subject.entity.id);
    var anchor := FindFirst(anchors, (a: AnchorRef) => KnownForAnchor(a, propertyStr));
    if anchor.Some? {
      return Verdict(claim, Plausible, PropertyClaim, 0.65, subject, None,
                     ["Known for: " + anchors[anchor.value].anchorLabel], [], None);
    }
    r := Verdict(claim, Unverifiable, PropertyClaim, 0.3, subject, None, [], [], None);
  }

  /** `_verify_property`. */
  method VerifyProperty(env: Env, store: Store, claim: string, subject: EntityProfile, propertyStr: string)
    returns (r: VerificationResult)
    ensures r == PropertyOutcome(env, store, claim, subject, propertyStr)
  {
    if env.isDescendantOf(subject, propertyStr, Taxonomic) {
      var path := env.navigateFromZero(subject, Taxonomic);
      return Verdict(claim, Supported, PropertyClaim, 0.9, subject, None, ["TAXONOMIC hierarchy: " + Join(path, " > ")], [], None);
    }
    if env.isDescendantOf(subject, propertyStr, Domain) {
      var path := env.navigateFromZero(subject, Domain);
      return Verdict(claim, Supported, PropertyClaim, 0.85, subject, None, ["DOMAIN hierarchy: " + Join(path, " > ")], [], None);
    }
    if subject.entity.description.Some? && subject.entity.description.value != "" {
      var description := subject.entity.description.value;
      if IsSubstring(Lower(propertyStr), Lower(description)) {
        return Verdict(claim, Supported, PropertyClaim, 0.8, subject, None, ["Description: " + description], [], None);
      }
    }
    r := VerifyPropertyFallback(store, claim, subject, propertyStr);
  }

  // ---------------------------------------------------------------------------
  // Generic (temporal and relation claims)
  // ---------------------------------------------------------------------------

  /** `_verify_generic` given the results of spreading from the subject: the
      object's activation, if it was reached, makes the claim plausible. */
  function GenericOutcome(claim: string, claimType: ClaimType, subject: EntityProfile,
                          objectEntity: Option<EntityProfile>, results: seq<ActivationResult>)
    : (r: VerificationResult)
    ensures r.claim == claim && r.subjectEntity == Some(subject)
    ensures r.status == Plausible || r.status == Unverifiable
    ensures r.status == Plausible ==> r.objectEntity == objectEntity && r.claimType == Some(claimType)
    ensures r.status == Plausible <==>
              objectEntity.Some? && exists k :: 0 <= k < |results| && results[k].entity.entity.id == objectEntity.value.entity.id
    ensures r.status == Plausible ==>
              exists k :: 0 <= k < |results| && results[k].entity.entity.id == objectEntity.value.entity.id
                && (forall j :: 0 <= j < k ==> results[j].entity.entity.id != objectEntity.value.entity.id)
                && r.confidence == results[k].activation
                && r.supportingEvidence == ["Activation path: " + Join(results[k].path, " -> ")]
    ensures objectEntity.None? ==>
              r.status == Unverifiable && r.confidence == 0.2 && r.claimType == Some(claimType) && r.objectEntity == None
    ensures objectEntity.Some? && r.status == Unverifiable ==>
              r.confidence == 0.3 && r.claimType == Some(AttributionClaim) && r.objectEntity == objectEntity
  {
    if objectEntity.None? then
      VerificationResult(claim, Unverifiable, Some(claimType), 0.2, Some(subject), None, [], [], None, None)
    else
      match Find(results, (x: ActivationResult) => x.entity.entity.id == objectEntity.value.entity.id)
      case Some(i) =>
        Verdict(claim, Plausible, claimType, results[i].activation, subject, objectEntity,
                ["Activation path: " + Join(results[i].path, " -> ")], [], None)
      case None => Verdict(claim, Unverifiable, AttributionClaim, 0.3, subject, objectEntity, [], [], None)
  }

  /** `r` is what `_verify_generic` returns: without an object, without spreading;
      with one, from the output of spreading from the subject alone with activation
      1.0 under the default configuration (anchors on), that output being the
      selection from a run of the search in which only the order among entries of
      equal activation is left open. */
  ghost predicate GenericVerdict(store: Store, claim: string, claimType: ClaimType, subject: EntityProfile,
                                 objectEntity: Option<EntityProfile>, r: VerificationResult)
    : (b: bool)
    ensures b ==> r.claim == claim && r.subjectEntity == Some(subject)
    ensures b ==> r.status == Plausible || r.status == Unverifiable
  {
    if objectEntity.None? then r == GenericOutcome(claim, claimType, subject, None, [])
    else exists results: seq<ActivationResult> ::
      SpreadOutput(store, DefaultConfig(), true, [(subject.entity.id, 1.0)], results)
      && (forall k :: 0 <= k < |results| ==> results[k].entity.entity.id != subject.entity.id)
      && r == GenericOutcome(claim, claimType, subject, objectEntity, results)
  }

  /** `_verify_generic`: spread from the subject and look for the object. */
  method VerifyGeneric(store: Store, claim: string, claimType: ClaimType, subject: EntityProfile,
                       objectEntity: Option<EntityProfile>)
    returns (r: VerificationResult)
    requires store.Valid()
    ensures GenericVerdict(store, claim, claimType, subject, objectEntity, r)
  {
    if objectEntity.None? {
      return VerificationResult(claim, Unverifiable, Some(claimType), 0.2, Some(subject), None, [], [], None, None);
    }
    var target := objectEntity.value.entity.id;
    var results := Spread(store, DefaultConfig(), subject.entity.id, 1.0, None);
    assert DefaultConfig().useAnchors;
    var hit := FindFirst(results, (x: ActivationResult) => x.entity.entity.id == target);
    if hit.Some? {
      var i := hit.value;
      r := Verdict(claim, Plausible, claimType, results[i].activation, subject, objectEntity,
                   ["Activation path: " + Join(results[i].path, " -> ")], [], None);
    } else {
      r := Verdict(claim, Unverifiable, AttributionClaim, 0.3, subject, objectEntity, [], [], None);
    }
    assert r == GenericOutcome(claim, claimType, subject, objectEntity, results);
  }

  /** A PLAUSIBLE generic outcome reports the activation of the object's entry in
      the results, so it is at least any bound on every activation. */
  lemma GenericPlausibleActivation(claim: string, claimType: ClaimType, subject: EntityProfile,
                                   objectEntity: Option<EntityProfile>, results: seq<ActivationResult>,
                                   bound: real)
    requires forall k :: 0 <= k < |results| ==> results[k].activation >= bound
    requires GenericOutcome(claim, claimType, subject, objectEntity, results).status == Plausible
    ensures objectEntity.Some?
    ensures exists k :: 0 <= k < |results| && results[k].entity.entity.id == objectEntity.value.entity.id
              && GenericOutcome(claim, claimType, subject, objectEntity, results).confidence == results[k].activation
    ensures GenericOutcome(claim, claimType, subject, objectEntity, results).confidence >= bound
  {
    var i := Find(results, (x: ActivationResult) => x.entity.entity.id == objectEntity.value.entity.id).value;
    assert results[i].entity.entity.id == objectEntity.value.entity.id;
  }

  /** Every activation a spread from the subject reports reaches the threshold. */
  lemma SpreadAboveThreshold(store: Store, subject: EntityProfile, results: seq<ActivationResult>)
    requires store.Valid() && SpreadOutput(store, DefaultConfig(), true, [(subject.entity.id, 1.0)], results)
    ensures forall k :: 0 <= k < |results| ==> results[k].activation >= 0.15
  {
    forall k | 0 <= k < |results|
      ensures results[k].activation >= 0.15
    {
      SpreadOutputPaths(store, DefaultConfig(), true, [(subject.entity.id, 1.0)], results, k);
    }
  }

  /** A PLAUSIBLE generic verdict reports the object's activation, which is at least
      the default threshold 0.15. */
  lemma GenericPlausibleAboveThreshold(store: Store, claim: string, claimType: ClaimType, subject: EntityProfile,
                                       objectEntity: Option<EntityProfile>, r: VerificationResult)
    requires store.Valid() && GenericVerdict(store, claim, claimType, subject, objectEntity, r)
    requires r.status == Plausible
    ensures objectEntity.Some? && r.objectEntity == objectEntity && r.claimType == Some(claimType)
    ensures r.confidence >= 0.15
  {
    var results: seq<ActivationResult> :| SpreadOutput(store, DefaultConfig(), true, [(subject.entity.id, 1.0)], results)
                   && r == GenericOutcome(claim, claimType, subject, objectEntity, results);
    SpreadAboveThreshold(store, subject, results);
    GenericPlausibleActivation(claim, claimType, subject, objectEntity, results, 0.15);
  }

  /** The result list is full (`maxResults` long) of entities other than the
      object, each at least `act` active. */
  ghost predicate CrowdedOut(results: seq<ActivationResult>, maxResults: nat, objectId: string, act: real)
  {
    |results| == maxResults
    && (forall k :: 0 <= k < |results| ==> results[k].entity.entity.id != objectId)
    && forall k :: 0 <= k < |results| ==> results[k].activation >= act
  }

  /** When the object is reached from the subject by one of its first 20 outgoing
      links and that link passes on at least the default threshold 0.15, the
      generic verdict is PLAUSIBLE, unless spreading returned a full list of 50
      entities, each at least as active, without the object. */
  lemma GenericNeighborPlausible(store: Store, claim: string, claimType: ClaimType, subject: EntityProfile,
                                 objectEntity: EntityProfile, r: VerificationResult, x: Related)
    requires store.Valid() && GenericVerdict(store, claim, claimType, subject, Some(objectEntity), r)
    requires x in store.GetRelated(subject.entity.id, Outgoing, 20)
    requires x.profile.entity.id == objectEntity.entity.id && objectEntity.entity.id != subject.entity.id
    requires LinkActivation(DefaultConfig(), SourceEntry(subject.entity.id, 1.0), x) >= 0.15
    ensures r.status == Plausible || exists results: seq<ActivationResult> ::
              SpreadOutput(store, DefaultConfig(), true, [(subject.entity.id, 1.0)], results)
              && CrowdedOut(results, 50, objectEntity.entity.id, LinkActivation(DefaultConfig(), SourceEntry(subject.entity.id, 1.0), x))
  {
    var results: seq<ActivationResult> :| SpreadOutput(store, DefaultConfig(), true, [(subject.entity.id, 1.0)], results)
                   && r == GenericOutcome(claim, claimType, subject, Some(objectEntity), results);
    var cfg := DefaultConfig();
    assert cfg.threshold == 0.15 && cfg.maxDepth == 2 && cfg.maxResults == 50;
    if r.status != Plausible {
      NeighborCrowdedOut(store, cfg, claim, claimType, subject, objectEntity, results, x);
    }
  }

  /** Under any configuration: when spreading from the subject alone does not make
      the claim plausible though a direct link tuple to the object passes the
      threshold, the result list is full of entities at least as active. */
  lemma NeighborCrowdedOut(store: Store, cfg: SpreadingConfig, claim: string, claimType: ClaimType,
                           subject: EntityProfile, objectEntity: EntityProfile, results: seq<ActivationResult>, x: Related)
    requires store.Valid() && SpreadOutput(store, cfg, true, [(subject.entity.id, 1.0)], results)
    requires 1.0 >= cfg.threshold && cfg.maxDepth >= 1 && cfg.maxResults >= 1
    requires x in store.GetRelated(subject.entity.id, Outgoing, 20)
    requires x.profile.entity.id == objectEntity.entity.id && objectEntity.entity.id != subject.entity.id
    requires LinkActivation(cfg, SourceEntry(subject.entity.id, 1.0), x) >= cfg.threshold
    requires GenericOutcome(claim, claimType, subject, Some(objectEntity), results).status != Plausible
    ensures CrowdedOut(results, cfg.maxResults, objectEntity.entity.id, LinkActivation(cfg, SourceEntry(subject.entity.id, 1.0), x))
  {
    DirectNeighborReported(store, cfg, true, subject.entity.id, 1.0, results, x);
    GenericUnreached(claim, claimType, subject, objectEntity, results);
  }

  /** A generic verdict that is not PLAUSIBLE found no result for the object. */
  lemma GenericUnreached(claim: string, claimType: ClaimType, subject: EntityProfile, objectEntity: EntityProfile,
                         results: seq<ActivationResult>)
    requires GenericOutcome(claim, claimType, subject, Some(objectEntity), results).status != Plausible
    ensures forall k :: 0 <= k < |results| ==> results[k].entity.entity.id != objectEntity.entity.id
  {
  }

  /** Spreading never reports its source, so a generic claim whose object grounds
      to the subject itself is unverifiable, with the ATTRIBUTION fallback type. */
  lemma GenericSelfObject(store: Store, claim: string, claimType: ClaimType, subject: EntityProfile,
                          r: VerificationResult)
    requires GenericVerdict(store, claim, claimType, subject, Some(subject), r)
    ensures r.status == Unverifiable && r.confidence == 0.3 && r.claimType == Some(AttributionClaim)
  {
  }

  // ---------------------------------------------------------------------------
  // verify
  // ---------------------------------------------------------------------------

  /** The verdict for a claim no pattern parses. */
  function ParseFailure(claim: string): VerificationResult
  {
    VerificationResult(claim, Unverifiable, None, 0.0, None, None, [], [], None, None)
  }

  /** The verdict for a parsed claim whose subject does not ground. */
  function Ungrounded(claim: string, claimType: ClaimType): VerificationResult
  {
    VerificationResult(claim, Unverifiable, Some(claimType), 0.3, None, None, [], [], None, None)
  }

  /** The grounded object: only a non-empty object text is grounded. */
  function ObjectOf(env: Env, store: Store, p: ParsedClaim): Option<EntityProfile>
  {
    if p.obj != "" then GroundSpec(env, store, p.obj) else None
  }

  /** `r` is what the check for the claim's type returns for a grounded subject. */
  ghost predicate CheckVerdict(env: Env, store: Store, claim: string, p: ParsedClaim, subject: EntityProfile,
                               objectEntity: Option<EntityProfile>, r: VerificationResult)
    : (b: bool)
    ensures b ==> r.claim == claim && r.subjectEntity == Some(subject)
    ensures b && (r.status == Supported || r.status == Contradicted) ==> r.confidence >= 0.75
    ensures b && (p.claimType == TemporalClaim || p.claimType == RelationClaim) ==>
              r.status == Plausible || r.status == Unverifiable
  {
    match p.claimType
    case AttributionClaim => r == AttributionOutcome(store, claim, subject, p.relation, p.obj, objectEntity)
    case LocationClaim => r == LocationOutcome(env, store, claim, subject, p.obj, objectEntity)
    case PropertyClaim => r == PropertyOutcome(env, store, claim, subject, p.obj)
    case _ => GenericVerdict(store, claim, p.claimType, subject, objectEntity, r)
  }

  /** `r` is what `verify` returns for a parsed claim: unverifiable when the
      subject does not ground, the check of its type otherwise. */
  ghost predicate ParsedVerdict(env: Env, store: Store, claim: string, p: ParsedClaim, r: VerificationResult)
    : (b: bool)
    ensures b ==> r.claim == claim
    ensures b && (r.status == Supported || r.status == Contradicted) ==> r.confidence >= 0.75
  {
    match GroundSpec(env, store, p.subject)
    case None => r == Ungrounded(claim, p.claimType)
    case Some(subject) => CheckVerdict(env, store, claim, p, subject, ObjectOf(env, store, p), r)
  }

  /** `r` is a result `verify(claim)` can return: parse, ground subject and object,
      then dispatch on the claim type. */
  ghost predicate IsVerdict(env: Env, store: Store, claim: string, r: VerificationResult)
    : (b: bool)
    ensures b ==> r.claim == claim
    ensures b && (r.status == Supported || r.status == Contradicted) ==> r.confidence >= 0.75
  {
    match ParseClaim(env, claim)
    case None => r == ParseFailure(claim)
    case Some(p) => ParsedVerdict(env, store, claim, p, r)
  }

  /** The dispatch of `verify` after grounding. */
  method Check(env: Env, store: Store, claim: string, p: ParsedClaim, subject: EntityProfile,
               objectEntity: Option<EntityProfile>)
    returns (r: VerificationResult)
    requires store.Valid()
    ensures CheckVerdict(env, store, claim, p, subject, objectEntity, r)
  {
    match p.claimType {
      case AttributionClaim =>
        r := VerifyAttribution(store, claim, subject, p.relation, p.obj, objectEntity);
      case LocationClaim =>
        r := VerifyLocation(env, store, claim, subject, p.obj, objectEntity);
      case PropertyClaim =>
        r := VerifyProperty(env, store, claim, subject, p.obj);
      case _ =>
        r := VerifyGeneric(store, claim, p.claimType, subject, objectEntity);
    }
  }

  /** `verify(claim)`. */
  method Verify(env: Env, store: Store, claim: string) returns (r: VerificationResult)
    requires store.Valid()
    ensures IsVerdict(env, store, claim, r)
  {
    var parsed := ParseClaim(env, claim);
    if parsed.None? {
      return ParseFailure(claim);
    }
    var p := parsed.value;
    var subject := GroundEntity(env, store, p.subject);
    var objectEntity := None;
    if p.obj != "" {
      objectEntity := GroundEntity(env, store, p.obj);
    }
    assert objectEntity == ObjectOf(env, store, p);
    if subject.None? {
      return Ungrounded(claim, p.claimType);
    }
    r := Check(env, store, claim, p, subject.value, objectEntity);
  }

  /** `rs` holds one verdict of `verify` per claim, in order. */
  ghost predicate AllVerdicts(env: Env, store: Store, claims: seq<string>, rs: seq<VerificationResult>)
  {
    Pointwise(claims, rs, (c: string, r: VerificationResult) => IsVerdict(env, store, c, r))
  }

  /** The verdict at each position is a verdict for the claim at that position. */
  lemma AllVerdictsAt(env: Env, store: Store, claims: seq<string>, rs: seq<VerificationResult>, k: nat)
    requires AllVerdicts(env, store, claims, rs) && k < |claims|
    ensures |rs| == |claims| && IsVerdict(env, store, claims[k], rs[k])
  {
  }

  /** `verify_batch(claims)`: one verdict per claim, in order. */
  method VerifyBatch(env: Env, store: Store, claims: seq<string>) returns (rs: seq<VerificationResult>)
    requires store.Valid()
    ensures |rs| == |claims|
    ensures AllVerdicts(env, store, claims, rs)
  {
    ghost var verdict := (c: string, r: VerificationResult) => IsVerdict(env, store, c, r);
    rs := [];
    for i := 0 to |claims|
      invariant Pointwise(claims[..i], rs, verdict)
    {
      var r := Verify(env, store, claims[i]);
      PointwiseSnoc(claims, rs, verdict, i, r);
      rs := rs + [r];
    }
    assert claims[..|claims|] == claims;
  }

  /** Every verdict of `verify` is about its claim, and every SUPPORTED or
      CONTRADICTED one carries a confidence of at least 0.75, so the confidence
      gate never changes it: the effective status of every verdict is its status. */
  lemma VerdictsPassTheGate(env: Env, store: Store, claim: string, r: VerificationResult)
    requires IsVerdict(env, store, claim, r)
    ensures r.claim == claim
    ensures r.status == Supported || r.status == Contradicted ==> r.confidence >= 0.75
    ensures r.EffectiveStatus() == r.status
  {
  }

  /** Temporal and relation claims are never decided: at best they are plausible. */
  lemma TemporalNeverDecided(env: Env, store: Store, claim: string, r: VerificationResult)
    requires IsVerdict(env, store, claim, r)
    requires ParseClaim(env, claim).Some?
    requires ParseClaim(env, claim).value.claimType == TemporalClaim || ParseClaim(env, claim).value.claimType == RelationClaim
    ensures r.status == Plausible || r.status == Unverifiable
  {
  }

  /** A claim that does not parse is unverifiable with confidence 0 and no type; a
      parsed claim whose subject does not ground is unverifiable with confidence
      0.3 and keeps its type; otherwise the verdict names the grounded subject. */
  lemma EarlyExits(env: Env, store: Store, claim: string, r: VerificationResult)
    requires IsVerdict(env, store, claim, r)
    ensures ParseClaim(env, claim).None? ==> r.status == Unverifiable && r.confidence == 0.0 && r.claimType == None
    ensures ParseClaim(env, claim).Some? ==>
              var p := ParseClaim(env, claim).value;
              var subject := GroundSpec(env, store, p.subject);
              (subject.None? ==>
                 r.status == Unverifiable && r.confidence == 0.3 && r.claimType == Some(p.claimType)
                 && r.subjectEntity == None)
              && (subject.Some? ==> r.subjectEntity == subject)
  {
  }
}
