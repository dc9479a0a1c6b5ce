# Wiki grounding: claim verification, spreading activation and EPA encoding in Dafny

This project models the core of a system that verifies free-text factual
claims against stored entity knowledge (entities from Wikipedia/Wikidata,
their positions in five dimension trees, EPA affect values, typed links
between entities and shared "anchors").

- **Verifier** (`verifier.dfy`, `claims.dfy`). A claim is parsed against an
  ordered list of patterns into (type, subject, relation, object). Subject
  and object are grounded by label search. The claim type then selects a
  fixed cascade of checks. The first check that fires decides the status
  (SUPPORTED, CONTRADICTED, PLAUSIBLE, UNVERIFIABLE) and its fixed
  confidence. A confidence gate turns weak SUPPORTED/CONTRADICTED verdicts
  into UNVERIFIABLE.
- **Spreading activation** (`spreading.dfy`, `sorting.dfy`). This is a
  best-first search from source entities over direct links (layer 1) and
  shared anchors (layer 2). It keeps, for each entity, the best activation
  with its path, relations and per-bank totals. It returns the non-source
  entities sorted by activation and cut to `max_results`.
- **Value types** (`entities.dfy`). These are the dimensions, the balanced
  ternary values, positions with their formatted path, EPA values, and
  profile lookup and summary.
- **EPA encoding** (`epa.dfy`). This is a table-driven weighted sum of
  semantic primitives per axis, followed by a symmetric ternary threshold,
  plus the per-type defaults.
- **Store contract** (`knowledge_store.dfy`).
  - Entity profiles are a map and the link table is a sequence of rows.
  - `get_related` is written out: per-direction `LIMIT`, rows whose other end
    has no profile are skipped, incoming rows get the `inverse_` tag, and the
    combination is cut to `limit`.
  - Label search and the anchor queries are functions supplied with the
    store.
- **Helpers** (`base.dfy`, `text.dfy`). These hold small generic pieces
  (option, truncation, first-match search, filtering) and the Python string
  operations the core uses.

Design notes:

- **Imperative code is modelled as methods.** Each method with loops
  (grounding, the verifier's check loops, the spreading loop, the EPA
  accumulation) is a `method` whose `ensures` ties its result to a
  specification function. The properties are proved about that function.
- **Spreading has several valid outcomes.** Where the search allows more than
  one outcome (equal activations in the queue), its result is specified as
  "some run of the search". The verifier's outcome for temporal and relation
  claims is specified the same way.
- **Uninterpreted parts are passed in as an `Env` value.** These are the regex
  engine, `str.title()`, and the hierarchy queries `is_descendant_of` and
  `navigate_from_zero`. The hierarchy queries are called by the verifier but
  not defined in `entity.py`.

## Model

| member | source | states |
|---|---|---|
| `Claims.VerificationResult.EffectiveStatus` | src/wiki_grounding/verifier.py:68-83 | the gate changes the status only for SUPPORTED/CONTRADICTED below 0.6 confidence, and then to UNVERIFIABLE; PLAUSIBLE and UNVERIFIABLE pass unchanged; a gated SUPPORTED/CONTRADICTED is confident |
| `Claims.Remove` | src/wiki_grounding/verifier.py:138 | `replace(c, "")` leaves no `c`, keeps only characters of the input, and is the identity when `c` is absent |
| `Claims.NormalizedIsClean` | src/wiki_grounding/verifier.py:133-138 | a normalised relation name contains no `_`, `-`, space or upper-case letter |
| `Claims.CleanIsNormalized` | src/wiki_grounding/verifier.py:133-138 | a name without separators or upper-case letters is its own normal form |
| `Claims.NormalizeIdempotent` | src/wiki_grounding/verifier.py:133-138 | normalising twice equals normalising once |
| `Claims.TripleOf` | src/wiki_grounding/verifier.py:232-237 | from the match groups: subject = stripped first group, object = stripped last group, relation = stripped second group for 3+ groups and `""` for exactly two |
| `Claims.ParseClaimFirstMatch` | src/wiki_grounding/verifier.py:220-239 | a claim parses iff some pattern matches its stripped, dot-trimmed text with at least two groups; the earliest such pattern decides the tuple |
| `Claims.AttributionFirst` | src/wiki_grounding/verifier.py:98-115 | a usable attribution pattern makes the claim ATTRIBUTION, whatever later families match |
| `Claims.PropertyLast` | src/wiki_grounding/verifier.py:98-115 | a claim parses as PROPERTY only if none of the six ATTRIBUTION/LOCATION/TEMPORAL patterns was usable |
| `Claims.StripArticleCases` | src/wiki_grounding/verifier.py:243-248 | at most one article is removed, it is the first in list order that the text starts with, nothing is removed when none matches, and "the " wins |
| `Claims.Variants` | src/wiki_grounding/verifier.py:250-253 | the variants are exactly `[normalized, normalized.title(), mention]` when normalising changed the mention, and `[mention, normalized, normalized.title()]` otherwise |
| `Claims.Lookups` | src/wiki_grounding/verifier.py:255-264 | for each variant, in order, the exact search and then the substring search, each with limit 5 |
| `Claims.FirstHit` | src/wiki_grounding/verifier.py:255-266 | no result iff every lookup is empty |
| `Claims.GroundNoneIff` | src/wiki_grounding/verifier.py:241-266 | grounding fails exactly when both searches of every variant are empty |
| `Claims.GroundExactFirst` | src/wiki_grounding/verifier.py:255-264 | for the preferred variant an exact hit decides, and the substring search decides only when the exact search is empty |
| `Claims.NormalizeMention` | src/wiki_grounding/verifier.py:243-248 | the article loop computes the stripped mention without its first matching article |
| `Claims.SearchVariants` | src/wiki_grounding/verifier.py:255-266 | the variant loop returns the best hit of the first non-empty search in lookup order |
| `Claims.GroundEntity` | src/wiki_grounding/verifier.py:241-266 | `_ground_entity` returns exactly the specified first hit over the ordered variants |
| `Verifier.ContradictionOutcome` | src/wiki_grounding/verifier.py:316-348 | the contradiction half of attribution yields CONTRADICTED with 0.85, or UNVERIFIABLE with 0.4 and no contradicting evidence or correction; it is typed ATTRIBUTION and keeps the grounded object |
| `Verifier.AttributionOutcome` | src/wiki_grounding/verifier.py:272-348 | attribution is never PLAUSIBLE; SUPPORTED carries 0.9 and some evidence, CONTRADICTED 0.85, UNVERIFIABLE 0.4 without supporting evidence; claim, type, subject and object are kept |
| `Verifier.ContradictionVerdicts` | src/wiki_grounding/verifier.py:316-338 | CONTRADICTED iff some incoming tuple of the object names the relation (without the `relatedto` fallback) and comes from another entity; the first such tuple gives the evidence and the correction `"<object> was <relation> by <holder>"` |
| `Verifier.AttributionVerdicts` | src/wiki_grounding/verifier.py:282-348 | SUPPORTED iff some outgoing tuple of the subject matches the relation (normalised name, substring or `relatedto`) and the object (id or label substring); CONTRADICTED only without support and with a grounded object |
| `Verifier.CollectSupporting` | src/wiki_grounding/verifier.py:289-303 | the evidence loop appends `"<rel>: <label>"` for exactly the supporting tuples, in order |
| `Verifier.FindContradiction` | src/wiki_grounding/verifier.py:317-338 | the incoming-tuple loop computes the contradiction outcome |
| `Verifier.VerifyAttribution` | src/wiki_grounding/verifier.py:272-348 | `_verify_attribution` computes the attribution outcome |
| `Verifier.LastThree` | src/wiki_grounding/verifier.py:393 | `path[-3:]` is the suffix of length min(3, len) |
| `Verifier.LocationFallback` | src/wiki_grounding/verifier.py:396-447 | the link and anchor checks never contradict; SUPPORTED carries 0.75 or 0.85, PLAUSIBLE 0.6 and UNVERIFIABLE 0.3 |
| `Verifier.LocationOutcome` | src/wiki_grounding/verifier.py:350-447 | location verdicts keep claim, type, subject and object; SUPPORTED carries at least 0.75, CONTRADICTED 0.8, PLAUSIBLE 0.6 and UNVERIFIABLE 0.3 |
| `Verifier.LocationCascade` | src/wiki_grounding/verifier.py:364-447 | each branch as an iff: SUPPORTED 0.95 iff a SPATIAL ancestor; CONTRADICTED (0.8, correction from the last three path nodes) iff no such ancestor but a SPATIAL position; otherwise link-based SUPPORTED iff a location link names the object, with the confidence of the first such link; PLAUSIBLE iff no link but a GEOGRAPHY anchor matches; UNVERIFIABLE iff neither |
| `Verifier.LocationFallbackCases` | src/wiki_grounding/verifier.py:396-438 | SUPPORTED iff some location tuple names the object, with the first such tuple giving 0.75 on a label match and 0.85 (with "(exact match)") otherwise; PLAUSIBLE iff there is none but a GEOGRAPHY anchor matches, the first one giving the evidence; UNVERIFIABLE iff neither |
| `Verifier.VerifyLocationFallback` | src/wiki_grounding/verifier.py:396-447 | the two loops compute the fallback outcome |
| `Verifier.VerifyLocation` | src/wiki_grounding/verifier.py:350-447 | `_verify_location` computes the location outcome |
| `Verifier.PropertyFallback` | src/wiki_grounding/verifier.py:498-529 | the property-value and KNOWN_FOR checks never contradict; SUPPORTED carries 0.75, PLAUSIBLE 0.65 and UNVERIFIABLE 0.3 |
| `Verifier.PropertyOutcome` | src/wiki_grounding/verifier.py:449-529 | property verdicts never contradict and carry no object; SUPPORTED carries at least 0.75, PLAUSIBLE 0.65 and UNVERIFIABLE 0.3 |
| `Verifier.PropertyCascade` | src/wiki_grounding/verifier.py:462-529 | each branch as an iff, first hit wins: 0.9 iff TAXONOMIC descendant, 0.85 iff DOMAIN but not TAXONOMIC, 0.8 iff neither and the description matches, 0.75 iff none of those and a property value matches (the first one as evidence), PLAUSIBLE 0.65 iff no value but a KNOWN_FOR anchor matches, UNVERIFIABLE 0.3 iff nothing matches |
| `Verifier.VerifyPropertyFallback` | src/wiki_grounding/verifier.py:498-529 | the two loops compute the property fallback outcome |
| `Verifier.VerifyProperty` | src/wiki_grounding/verifier.py:449-529 | `_verify_property` computes the property outcome |
| `Verifier.GenericOutcome` | src/wiki_grounding/verifier.py:540-571 | PLAUSIBLE iff the object is grounded and among the spread results, with the first such result giving the confidence and the path evidence; without an object UNVERIFIABLE 0.2 keeping the claim type; a grounded object that is not found gives UNVERIFIABLE 0.3 typed ATTRIBUTION |
| `Verifier.GenericVerdict` | src/wiki_grounding/verifier.py:531-571 | a generic verdict is the outcome for the output of some run of the search from the subject at 1.0 with anchors on, under the default configuration; it is about its claim and subject and is PLAUSIBLE or UNVERIFIABLE |
| `Verifier.VerifyGeneric` | src/wiki_grounding/verifier.py:531-571 | `_verify_generic` returns the generic outcome for the output of a run of the search from the subject with the default configuration |
| `Verifier.GenericPlausibleActivation` | src/wiki_grounding/verifier.py:552-562 | a PLAUSIBLE generic verdict has as confidence the activation of the object's result entry |
| `Verifier.SpreadAboveThreshold` | src/wiki_grounding/spreading.py:211-214 | every activation spreading from a subject reports is at least the default threshold 0.15 |
| `Verifier.GenericPlausibleAboveThreshold` | src/wiki_grounding/verifier.py:550-562 | a PLAUSIBLE generic verdict names the object and has confidence at least 0.15 |
| `Verifier.GenericSelfObject` | src/wiki_grounding/verifier.py:550-571 | an object that grounds to the subject itself is never found by spreading, so the verdict is UNVERIFIABLE 0.3 typed ATTRIBUTION |
| `Verifier.GenericNeighborPlausible` | src/wiki_grounding/verifier.py:540-562 | an object reached from the subject by one of its first 20 outgoing tuples passing at least 0.15 makes the verdict PLAUSIBLE, unless the 50 results are all at least as active as that tuple |
| `Verifier.NeighborCrowdedOut` | src/wiki_grounding/verifier.py:540-562 | for any configuration, a non-PLAUSIBLE verdict despite a passing direct tuple to the object means the result list is full of entities at least as active |
| `Verifier.GenericUnreached` | src/wiki_grounding/verifier.py:550-571 | a verdict other than PLAUSIBLE means no result names the object |
| `Verifier.CheckVerdict` | src/wiki_grounding/verifier.py:194-210 | the dispatch verdict names claim and subject, decided verdicts carry at least 0.75, and TEMPORAL/RELATION claims are at most PLAUSIBLE |
| `Verifier.ParsedVerdict` | src/wiki_grounding/verifier.py:180-192 | an ungrounded subject gives UNVERIFIABLE, otherwise the dispatch verdict |
| `Verifier.IsVerdict` | src/wiki_grounding/verifier.py:161-210 | every verdict of `verify` is about its claim and decided verdicts carry at least 0.75 |
| `Verifier.Check` | src/wiki_grounding/verifier.py:194-210 | the dispatch on claim type returns the verdict of the matching check |
| `Verifier.Verify` | src/wiki_grounding/verifier.py:161-210 | `verify` parses, grounds subject and (non-empty) object, and dispatches |
| `Verifier.AllVerdictsAt` | src/wiki_grounding/verifier.py:212-214 | the batch has one result per claim and position k holds a verdict for claim k |
| `Verifier.VerifyBatch` | src/wiki_grounding/verifier.py:212-214 | `verify_batch` returns one verdict per claim, in order |
| `Verifier.VerdictsPassTheGate` | src/wiki_grounding/verifier.py:74-83 | the confidence gate never changes a verdict of `verify`: its effective status is its status |
| `Verifier.TemporalNeverDecided` | src/wiki_grounding/verifier.py:206-210 | a TEMPORAL or RELATION claim is only ever PLAUSIBLE or UNVERIFIABLE |
| `Verifier.EarlyExits` | src/wiki_grounding/verifier.py:171-192 | a parse failure gives UNVERIFIABLE 0.0 with no type; an ungrounded subject gives UNVERIFIABLE 0.3 keeping the type; otherwise the verdict names the grounded subject |
| `Spreading.BankTotals.Add` | src/wiki_grounding/spreading.py:268-269 | adding to a bank increases exactly that bank by the amount |
| `Spreading.AnchorToBank` | src/wiki_grounding/spreading.py:37-43 | GEOGRAPHY to SPATIAL, HISTORY to TEMPORAL, TYPE to SUBSTANTIVES, every other or missing category to MENTAL (each an iff) |
| `Spreading.SpreadingConfig.GetWeight` | src/wiki_grounding/spreading.py:93-95 | the configured weight, 0.5 for an unlisted relation |
| `Spreading.NewConfig` | src/wiki_grounding/spreading.py:59-91 | the fields are kept, and an empty weight map is replaced by the non-empty default table |
| `Spreading.DefaultWeightsBounded` | src/wiki_grounding/spreading.py:72-95 | under the default table every weight lies in [0.5, 1.0], an unlisted relation weighs 0.5 and `same_as` 1.0 |
| `Spreading.LinkHopKeepsBanks` | src/wiki_grounding/spreading.py:216-223 | a link hop extends the path by the neighbour and the relations by the relation, and copies every bank unchanged; by `SpreadOutputHop` this holds of every link-reached result |
| `Spreading.AnchorHopFeedsOneBank` | src/wiki_grounding/spreading.py:262-272 | an anchor hop records `anchor:<label>` and adds exactly its activation to the category's bank, leaving the others; by `SpreadOutputHop` this holds of every anchor-reached result |
| `Spreading.IndexOfMax` | src/wiki_grounding/spreading.py:188 | the first entry of highest activation |
| `Spreading.PopMax` | src/wiki_grounding/spreading.py:188-189 | the popped entry has maximal activation and the rest loses exactly one entry |
| `Spreading.Offer` | src/wiki_grounding/spreading.py:216-229 | the state becomes `OfferNext`: the trace is recorded iff the entity is new or strictly improved, the id is appended to the key order iff new, and the entry is queued only if also unvisited; the search invariant is kept and no activation decreases |
| `Spreading.OfferNextOk` | src/wiki_grounding/spreading.py:216-229 | offering a well-formed trace keeps the search invariant and never lowers a recorded activation |
| `Spreading.EnterSources` | src/wiki_grounding/spreading.py:180-184 | every source is recorded with a one-node path, no relations and zero banks, and queued |
| `Spreading.SpreadLinks` | src/wiki_grounding/spreading.py:204-229 | layer 1 computes `LinkOffers` over the first 20 outgoing tuples of the expanded entity, keeps the search invariant (every path a chain of link or anchor hops from a source, at most max_depth long) and never lowers an activation |
| `Spreading.OfferLinks` | src/wiki_grounding/spreading.py:206-229 | the loop over the tuples computes `LinkOffers` and keeps the search invariant |
| `Spreading.OfferLink` | src/wiki_grounding/spreading.py:206-229 | one tuple is offered with activation `activation * decay * weight(relation) * weight` exactly when that reaches the threshold, as a link hop; otherwise nothing changes |
| `Spreading.OfferMember` | src/wiki_grounding/spreading.py:247-278 | one member other than the expanded entity is offered with activation `activation * anchor_decay * anchor_weight * rel_weight` exactly when that reaches the threshold, as an anchor hop; otherwise nothing changes |
| `Spreading.SpreadAnchor` | src/wiki_grounding/spreading.py:240-278 | one anchor's members compute `AnchorOffers`, keep the search invariant and never lower an activation |
| `Spreading.SpreadAnchors` | src/wiki_grounding/spreading.py:234-278 | layer 2 computes `AnchorsOffers` over the first max_anchors anchors, keeps the search invariant and never lowers an activation |
| `Spreading.Step` | src/wiki_grounding/spreading.py:187-278 | one iteration pops the first entry of highest activation, becomes `StepNext`, adds exactly that entity to `visited`, names the expanded entry (the popped one exactly when unvisited, below max_depth and at or above the threshold), and when nothing is expanded changes only the queue (minus the popped entry) and `visited` |
| `Spreading.Propagate` | src/wiki_grounding/spreading.py:170-278 | the loop returns the last state of a run of steps from the sources, which ends when the queue is empty or 2*max_results entities were popped; the invariant holds, and no entity is expanded twice |
| `Spreading.RunDominates` | src/wiki_grounding/spreading.py:216-278 | along a run no recorded activation ever decreases |
| `Spreading.LinkOffersDominates` | src/wiki_grounding/spreading.py:213-229 | layer 1 never lowers an activation, and every tuple that passes the threshold leaves its entity with at least that activation |
| `Spreading.LinkOffersRecords` | src/wiki_grounding/spreading.py:216-223 | every trace layer 1 adds or replaces is the link hop of a passing tuple of that entity |
| `Spreading.AnchorsOffersRecords` | src/wiki_grounding/spreading.py:262-272 | every trace layer 2 adds or replaces is the anchor hop of a passing member, other than the expanded entity, of one of the anchors |
| `Spreading.StepRecords` | src/wiki_grounding/spreading.py:187-278 | every trace a step adds or replaces is a link hop or (with anchors on) an anchor hop of the expanded entry |
| `Spreading.RunRecords` | src/wiki_grounding/spreading.py:180-278 | every trace recorded along a run is a source's initial trace or a hop of an entry some earlier step expanded |
| `Spreading.CandidateSound` | src/wiki_grounding/spreading.py:280-294 | every collected result belongs to a non-source recorded entity that has a profile |
| `Spreading.CandidateComplete` | src/wiki_grounding/spreading.py:280-294 | every non-source recorded entity with a profile is collected |
| `Spreading.CandidatesDistinct` | src/wiki_grounding/spreading.py:280-294 | collected results name distinct entities |
| `Spreading.SelectionOk` | src/wiki_grounding/spreading.py:280-298 | the sorted, cut list has no source, is ordered by non-increasing activation, has at most max_results entries, one per entity, each the recorded state of its entity |
| `Spreading.SelectionComplete` | src/wiki_grounding/spreading.py:296-298 | an entity is left out only when the list is full of entities at least as active |
| `Spreading.CollectResults` | src/wiki_grounding/spreading.py:280-298 | building, sorting and cutting the result list meets every promise of the selection |
| `Spreading.SpreadMultiple` | src/wiki_grounding/spreading.py:155-298 | for sources with distinct ids, as the keys of a dict are, the results are the selection from the final state of a run of the search from the sources; no source, sorted by activation, at most max_results, no entity twice |
| `Spreading.InitialQueueMatches` | src/wiki_grounding/spreading.py:180-184 | with distinct ids, the initial queue holds exactly one depth-0 entry per recorded source, in insertion order, carrying the activation recorded for it |
| `Spreading.Spread` | src/wiki_grounding/spreading.py:133-153 | single-source spreading returns the selection of a run from the source; it never returns the source and is sorted and bounded |
| `Spreading.SpreadOutputPaths` | src/wiki_grounding/spreading.py:180-278 | every result reached its entity from a source by at least one and at most max_depth hops, each along a stored link or a shared anchor, with one relation per hop, at or above the threshold |
| `Spreading.SpreadOutputHop` | src/wiki_grounding/spreading.py:204-278 | every result holds the link-hop or (with anchors on) anchor-hop trace of an entry below max_depth and at or above the threshold |
| `Spreading.FirstStepReaches` | src/wiki_grounding/spreading.py:187-229 | from one source at or above the threshold, the first step expands it and every passing outgoing tuple leaves its entity with at least the activation it passes on |
| `Spreading.DirectNeighborReported` | src/wiki_grounding/spreading.py:155-298 | from one source, every entity reached by a passing one of its first 20 outgoing tuples is reported, unless the results are full of entities at least as active |
| `Spreading.LinkedRow` | src/wiki_grounding/store.py:147-196 | every outgoing tuple of `get_related` follows a stored link to an entity with a profile under the link's relation |
| `Spreading.EntitiesAbove` | src/wiki_grounding/spreading.py:320 | exactly the profiles of the results whose activation reaches the threshold |
| `Spreading.EqualSources` | src/wiki_grounding/spreading.py:318 | the dict comprehension: the source ids are exactly the given ids, each once, each with activation 1.0 |
| `Spreading.EqualSourcesOrder` | src/wiki_grounding/spreading.py:318 | the sources keep the order of first occurrence: a later source first occurs after every earlier one has occurred |
| `Spreading.ContextEntities` | src/wiki_grounding/spreading.py:300-320 | the context profiles are the above-threshold results of spreading from all ids, never one of the ids, at most max_results |
| `Spreading.AddMembers` | src/wiki_grounding/spreading.py:351-361 | the member loop computes `ScanMembers`: a member other than the query entity and not seen before is marked seen and listed with activation anchor_weight*rel_weight when it has a profile; afterwards every member other than the query entity is seen |
| `Spreading.AddMember` | src/wiki_grounding/spreading.py:353-361 | one member computes `ScanMember` |
| `Spreading.ScanMemberOk` | src/wiki_grounding/spreading.py:353-361 | one member keeps the neighbour invariant: each listed entity is seen, each seen entity with a profile is listed once, each element from a passing anchor |
| `Spreading.ScanAllAnchors` | src/wiki_grounding/spreading.py:345-361 | the anchor loop computes `NeighborList`, and every member with a profile of a passing anchor, other than the query entity, is listed |
| `Spreading.GetAnchorNeighbors` | src/wiki_grounding/spreading.py:322-365 | the result is `NeighborList` sorted by descending activation and cut to `limit`; every member with a profile of a passing anchor, other than the query entity, is listed, and is left out of the result only when the result is full of neighbours at least as active; no duplicates, never the query entity |
| `Spreading.SortAndCut` | src/wiki_grounding/spreading.py:363-365 | sorting and cutting keeps provenance and distinctness and gives a sorted list of at most `limit` |
| `Sorting.Insert` | src/wiki_grounding/spreading.py:297 | insertion adds exactly one element and keeps the multiset |
| `Sorting.InsertKeepsSorted` | src/wiki_grounding/spreading.py:297 | inserting into a descending list keeps it descending |
| `Sorting.SortedByKey` | src/wiki_grounding/spreading.py:55-56 | the sort is a permutation ordered by non-increasing key |
| `Sorting.SortDesc` | src/wiki_grounding/spreading.py:363-364 | the sort loop computes the sorted permutation |
| `Sorting.PermutationKeepsDistinct` | src/wiki_grounding/spreading.py:363-364 | sorting a list with distinct identities keeps them distinct |
| `Sorting.TakeKeeps` | src/wiki_grounding/spreading.py:365 | cutting a sorted, distinct list keeps it sorted and distinct |
| `Sorting.TakeSortedComplete` | src/wiki_grounding/spreading.py:363-365 | an element left out of a sorted, cut list is outranked by every kept element of a full list |
| `Entities.GroundingDimension.Name` | src/wiki_grounding/entity.py:17-28 | each dimension name is a non-empty upper-case word |
| `Entities.TernaryValue.Value` | src/wiki_grounding/entity.py:31-35 | the value is in {-1, 0, 1}, negative exactly for NEGATIVE and positive exactly for POSITIVE |
| `Entities.NewPosition` | src/wiki_grounding/entity.py:79-82 | nodes given as a list are stored with the same elements in the same order; the other fields are kept |
| `Entities.HeaderHasNoSlash` | src/wiki_grounding/entity.py:84-88 | the sign, depth and dimension part of the formatted path contains no `/` |
| `Entities.FormattedSplitsIntoNodes` | src/wiki_grounding/entity.py:84-88 | splitting the formatted path on `/` gives the header and then the nodes, for nodes without `/` |
| `Entities.FormattedSignLead` | src/wiki_grounding/entity.py:84-88 | for a non-negative depth the formatted path starts with `+` iff sign > 0 and with `-` iff sign < 0 |
| `Entities.FormattedParisExample` | src/wiki_grounding/entity.py:64-71 | the Paris position formats as `+3:SPATIAL/Earth/Europe/France/Paris` |
| `Entities.EPAValues.AsVector` | src/wiki_grounding/entity.py:122-124 | (E, P, A) in that order, each in {-1, 0, 1} |
| `Entities.DefaultEPA` | src/wiki_grounding/entity.py:117-120 | the default is (0, 0, 0) with confidence 1.0 |
| `Entities.FirstInDimension` | src/wiki_grounding/entity.py:143-148 | `get_position` finds the first position in the dimension, and nothing iff there is none |
| `Entities.SummaryShowsFirstThree` | src/wiki_grounding/entity.py:150-155 | the summary contains the formatted path of each of the first three positions |
| `Epa.RecognisedCount` | src/wiki_grounding/epa.py:60-66 | the count never exceeds the number of items |
| `Epa.ToTernary` | src/wiki_grounding/epa.py:69-74 | POSITIVE iff x > 0.3, NEGATIVE iff x < -0.3, NEUTRAL iff within [-0.3, 0.3] |
| `Epa.Confidence` | src/wiki_grounding/epa.py:80 | in [0, 1]; equal to 1 iff count >= 3; 0 iff count = 0; count/3 below three |
| `Epa.PrimitivesToEpa` | src/wiki_grounding/epa.py:47-81 | the accumulation loop computes the weighted sums and count; every axis in {-1, 0, 1}, confidence in [0, 1] |
| `Epa.UnrecognisedIgnored` | src/wiki_grounding/epa.py:60-66 | dropping unrecognised names changes no sum and no result, and the count is the number of recognised items |
| `Epa.AxisSumConcat` | src/wiki_grounding/epa.py:62-65 | each axis sum is additive over concatenated inputs |
| `Epa.EvaluationPrimitives` | src/wiki_grounding/epa.py:13-35 | only GOOD, BAD and FEEL have a non-zero E coefficient |
| `Epa.EvaluationNeedsEvaluativePrimitive` | src/wiki_grounding/epa.py:13-65 | without GOOD, BAD or FEEL the E sum is 0 and the evaluation NEUTRAL |
| `Epa.EmptyIsNeutral` | src/wiki_grounding/epa.py:57-81 | an empty input gives all-NEUTRAL with confidence 0 |
| `Epa.GoodBigDoExample` | src/wiki_grounding/epa.py:57-81 | GOOD, BIG and DO at +1 give (+1, +1, +1) with confidence 1 |
| `Epa.TypeDefault` | src/wiki_grounding/epa.py:38-44 | exactly the five types have a default, each with confidence 1.0 and neutral evaluation |
| `Epa.TypeDefaultVectors` | src/wiki_grounding/epa.py:38-44 | person (0,0,+1), place (0,0,-1), event (0,0,+1), organization (0,+1,0), concept (0,-1,-1) |
| `KnowledgeStore.Store.Get` | src/wiki_grounding/store.py:67-89 | a profile iff the id is stored, and it carries that id |
| `KnowledgeStore.Store.SearchExact` | src/wiki_grounding/store.py:132-141 | at most `limit` matches, empty iff there is no match or the limit is 0 |
| `KnowledgeStore.Store.Search` | src/wiki_grounding/store.py:102-130 | at most `limit` matches, empty iff there is no match or the limit is 0 |
| `KnowledgeStore.Store.GetRelated` | src/wiki_grounding/store.py:147-196 | at most `limit` tuples, each from a link row at the entity in an allowed direction, incoming ones tagged `inverse_` |
| `KnowledgeStore.ResolveSound` | src/wiki_grounding/store.py:177-194 | each resolved tuple comes from one of the rows |
| `KnowledgeStore.ResolveComplete` | src/wiki_grounding/store.py:177-194 | every row whose other end has a profile is resolved |
| `KnowledgeStore.IncomingTagged` | src/wiki_grounding/store.py:182-194 | every incoming tuple's relation is `inverse_` followed by a stored relation into the entity |
| `KnowledgeStore.OutgoingComplete` | src/wiki_grounding/store.py:168-180 | with at most `limit` outgoing rows, every one whose target has a profile is reported |
| `Text.Lower` | src/wiki_grounding/verifier.py:138 | lower-casing keeps the length and maps each character |
| `Text.TrimEnd` | src/wiki_grounding/verifier.py:226 | `rstrip` removes exactly the longest suffix of dropped characters |
| `Text.SplitJoinRoundTrip` | src/wiki_grounding/entity.py:88 | splitting a `/`-join gives the parts back when no part contains `/` |
| `Text.IntToString` | src/wiki_grounding/entity.py:88 | `str(depth)` is digits with a leading `-` exactly for negative values |
| `Text.NatToStringRoundTrip` | src/wiki_grounding/entity.py:88 | the decimal text of a number reads back as that number |
| `Text.JoinContainsParts` | src/wiki_grounding/entity.py:154 | every joined part occurs in the joined string |

## Left out

- Regular-expression matching. `re.match(..., re.IGNORECASE)` is an uninterpreted `matcher` in `Claims.Env`, keyed by the pattern; the pattern texts are kept in `Claims.Regex`. The model covers the order of patterns and the group-to-tuple logic, not which texts match.
- `str.title()` is the uninterpreted `title` in `Claims.Env`. `str.lower()` is modelled for ASCII letters only, and `str.strip()` uses Python's whitespace set.
- The hierarchy queries `is_descendant_of` and `navigate_from_zero` are uninterpreted functions in `Claims.Env`, because they are not defined in `entity.py`. `shared_ancestor`, `hierarchical_distance`, `distance_from_zero` and `position_vector` are used only by demo scripts and are not part of this model.
- SQLite I/O, connections, `get_by_title`, `iter_entities`, `count` and the row decoders (`from_db_row`, `_row_to_entity`, `_get_positions`, `_get_epa`, `_get_properties`) are left out. Profiles are given as a map.
- Label search ranking (pagerank order) and the anchor queries are functions supplied with the store. The model does not describe which entities they return.
- The `relation` filter of `get_related` is not modelled, because no core caller passes it.
- A link hop of the search is stated as following a stored link row (`Spreading.HopOk`), not as one of the first 20 rows `get_related` returns; `Spreading.SpreadOutputHop` states the latter for the last hop of each result.
- `EPAValues.distance`, `epa_similarity` and `epa_compatible` are left out: they use floating-point square roots.
- `VerificationResult.__str__` (emoji and float formatting) is left out.
- `context_grounder.py` is not part of this model.
- Floating point: activations, weights, confidences and EPA sums are exact reals, so rounding is not modelled.
- Integer limits (`max_depth`, `max_results`, `limit`, `anchor_limit`, `max_anchors`) are natural numbers. Python's behaviour for negative slice bounds is not modelled.
- Dictionaries iterated in insertion order are sequences: the primitives of `primitives_to_epa`, the sources of `spread_multiple`, whose ids `SpreadMultiple` requires to be distinct as dict keys are, and the properties of a profile. The activation map carries its key order as a separate sequence.
- Property values are strings. The `str(value)` of a list-valued property is not modelled.
- `_verify_generic` ignores its `relation` argument, and the model omits it.
- `Verifier.Verify`: the result for TEMPORAL and RELATION claims is stated as the outcome for the output of some run of the search. Runs differ only in which of several entries of equal activation is popped: the heap's tie order (Python tuple comparison) is not modelled, and the queue pops the first entry of highest activation.
- `Spreading.SpreadMultiple`: the results are tied to the final state of some run of the search, not to the one run a given tie order produces.
- `Sorting.SortDesc`: the stability of Python's sort among equal activations is built into `Sorting.Insert` but not stated as a property.
