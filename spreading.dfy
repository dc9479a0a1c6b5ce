/** Two-layer spreading activation (src/wiki_grounding/spreading.py): a best-first
    search over the entity graph that follows direct links (layer 1) and shared
    anchors (layer 2), keeping the best activation found for each entity together
    with the path that produced it and per-bank anchor totals. Activations are exact
    reals. The priority queue is a sequence from which the first entry of highest
    activation is taken. */
module Spreading {
  import opened Base
  import opened Text
  import opened Entities
  import opened KnowledgeStore
  import opened Sorting

  /** The semantic banks that accumulate anchor activation. */
  datatype SemanticBank = SpatialBank | TemporalBank | MentalBank | SubstantivesBank

  /** Activation accumulated per bank along a path. */
  datatype BankTotals = BankTotals(spatial: real, temporal: real, mental: real, substantives: real)
  {
    function Get(b: SemanticBank): real
    {
      match b
      case SpatialBank => spatial
      case TemporalBank => temporal
      case MentalBank => mental
      case SubstantivesBank => substantives
    }

    /** `banks[b] = banks.get(b, 0.0) + x` on a copy. */
    function Add(b: SemanticBank, x: real): (r: BankTotals)
      ensures forall c :: r.Get(c) == Get(c) + (if c == b then x else 0.0)
    {
      match b
      case SpatialBank => this.(spatial := spatial + x)
      case TemporalBank => this.(temporal := temporal + x)
      case MentalBank => this.(mental := mental + x)
      case SubstantivesBank => this.(substantives := substantives + x)
    }
  }

  /** `{bank: 0.0 for bank in SemanticBank}`. */
  const ZeroBanks := BankTotals(0.0, 0.0, 0.0, 0.0)

  /** `ANCHOR_TO_BANK.get(category, MENTAL)`: SCOPE, KNOWN_FOR, any other category
      and a missing category all go to MENTAL. */
  function AnchorToBank(category: Option<string>): (b: SemanticBank)
    ensures b == SpatialBank <==> category == Some("GEOGRAPHY")
    ensures b == TemporalBank <==> category == Some("HISTORY")
    ensures b == SubstantivesBank <==> category == Some("TYPE")
    ensures b == MentalBank <==> category !in {Some("GEOGRAPHY"), Some("HISTORY"), Some("TYPE")}
  {
    match category
    case Some("SCOPE") => MentalBank
    case Some("HISTORY") => TemporalBank
    case Some("KNOWN_FOR") => MentalBank
    case Some("GEOGRAPHY") => SpatialBank
    case Some("TYPE") => SubstantivesBank
    case _ => MentalBank
  }

  /** The relation weights used when the caller gives none. */
  const DefaultRelationWeights: map<string, real> := map[
    "same_as" := 1.0,
    "part_of" := 0.9,
    "located_in" := 0.8,
    "instance_of" := 0.8,
    "subclass_of" := 0.7,
    "capital_of" := 0.8,
    "created" := 0.8,
    "developed" := 0.8,
    "discovered" := 0.8,
    "invented" := 0.8,
    "wrote" := 0.8,
    "born_in" := 0.7,
    "worked_at" := 0.7,
    "awarded" := 0.7,
    "related_to" := 0.5
  ]

  /** Tuning of the search. The integer limits are taken as non-negative. */
  datatype SpreadingConfig = SpreadingConfig(
    decay: real,
    threshold: real,
    maxDepth: nat,
    maxResults: nat,
    useAnchors: bool,
    anchorDecay: real,
    anchorLimit: nat,
    maxAnchors: nat,
    relationWeights: map<string, real>)
  {
    /** `get_weight(relation)`: the configured weight, 0.5 for an unlisted relation. */
    function GetWeight(relation: string): (w: real)
      ensures relation !in relationWeights ==> w == 0.5
      ensures relation in relationWeights ==> w == relationWeights[relation]
    {
      if relation in relationWeights then relationWeights[relation] else 0.5
    }
  }

  /** The dataclass constructor with `__post_init__`: an empty weight map is
      replaced by the default weights. */
  function NewConfig(
    decay: real, threshold: real, maxDepth: nat, maxResults: nat, useAnchors: bool,
    anchorDecay: real, anchorLimit: nat, maxAnchors: nat, relationWeights: map<string, real>)
    : (c: SpreadingConfig)
    ensures c.relationWeights != map[]
    ensures relationWeights != map[] ==> c.relationWeights == relationWeights
    ensures c.decay == decay && c.threshold == threshold && c.maxDepth == maxDepth
    ensures c.maxResults == maxResults && c.useAnchors == useAnchors && c.anchorDecay == anchorDecay
    ensures c.anchorLimit == anchorLimit && c.maxAnchors == maxAnchors
  {
    assert "same_as" in DefaultRelationWeights;
    SpreadingConfig(decay, threshold, maxDepth, maxResults, useAnchors, anchorDecay, anchorLimit, maxAnchors,
      if relationWeights == map[] then DefaultRelationWeights else relationWeights)
  }

  /** `SpreadingConfig()` with every field defaulted. */
  function DefaultConfig(): SpreadingConfig
  {
    NewConfig(0.7, 0.15, 2, 50, true, 0.4, 5, 10, map[])
  }

  /** Under the default weights every relation weighs between 0.5 and 1.0, an
      unlisted relation exactly 0.5 and `same_as` the most. */
  lemma DefaultWeightsBounded(relation: string)
    ensures 0.5 <= DefaultConfig().GetWeight(relation) <= 1.0
    ensures relation !in DefaultRelationWeights ==> DefaultConfig().GetWeight(relation) == 0.5
    ensures DefaultConfig().GetWeight("same_as") == 1.0
  {
  }

  /** What is recorded for an entity: best activation, the path of entity ids from a
      source, the relations traversed and the bank totals. */
  datatype Trace = Trace(activation: real, path: seq<string>, relations: seq<string>, banks: BankTotals)

  /** A queue entry: a trace together with its hop count and entity id. */
  datatype Entry = Entry(activation: real, depth: nat, id: string, path: seq<string>, relations: seq<string>, banks: BankTotals)

  /** One element of the result list. */
  datatype ActivationResult = ActivationResult(
    entity: EntityProfile, activation: real, path: seq<string>, relations: seq<string>, banks: BankTotals)

  /** The trace a link hop records: the predecessor's banks are copied unchanged. */
  function LinkHop(e: Entry, neighbor: string, relation: string, activation: real): Trace
  {
    Trace(activation, e.path + [neighbor], e.relations + [relation], e.banks)
  }

  /** The trace an anchor hop records: the relation is `anchor:<label>` and the
      hop's activation is added to the anchor's bank. */
  function AnchorHop(e: Entry, member: string, anchorLabel: string, bank: SemanticBank, activation: real): Trace
  {
    Trace(activation, e.path + [member], e.relations + ["anchor:" + anchorLabel], e.banks.Add(bank, activation))
  }

  /** A link hop extends the path by the neighbour and the relations by the
      relation, and leaves every bank as it was. */
  lemma LinkHopKeepsBanks(e: Entry, neighbor: string, relation: string, activation: real)
    ensures var t := LinkHop(e, neighbor, relation, activation);
      t.path[..|e.path|] == e.path && t.path[|t.path| - 1] == neighbor
      && t.relations[|t.relations| - 1] == relation
      && forall b :: t.banks.Get(b) == e.banks.Get(b)
  {
  }

  /** An anchor hop records `anchor:<label>` and adds exactly its activation to
      the bank of the anchor's category, leaving the other banks unchanged. */
  lemma AnchorHopFeedsOneBank(e: Entry, member: string, anchor: AnchorRef, activation: real)
    ensures var t := AnchorHop(e, member, anchor.anchorLabel, AnchorToBank(anchor.category), activation);
      t.relations[|t.relations| - 1] == "anchor:" + anchor.anchorLabel
      && t.banks.Get(AnchorToBank(anchor.category)) == e.banks.Get(AnchorToBank(anchor.category)) + activation
      && forall b :: b != AnchorToBank(anchor.category) ==> t.banks.Get(b) == e.banks.Get(b)
  {
  }

  /** The ids of the sources. */
  function SourceIds(sources: seq<(string, real)>): set<string>
  {
    set p | p in sources :: p.0
  }

  /** The source ids are distinct, as the keys of the `sources` dict are. */
  predicate DistinctIds(sources: seq<(string, real)>)
  {
    forall i, j :: 0 <= i < j < |sources| ==> sources[i].0 != sources[j].0
  }

  /** The activation state after the sources are entered: each source with its
      initial activation, a one-element path, no relations and zero banks. */
  function InitialTraces(sources: seq<(string, real)>): map<string, Trace>
  {
    if sources == [] then map[]
    else
      var (id, act) := sources[|sources| - 1];
      InitialTraces(sources[..|sources| - 1])[id := Trace(act, [id], [], ZeroBanks)]
  }

  /** The keys of `InitialTraces(sources)` in insertion order: a repeated id keeps
      its first place. */
  function InitialOrder(sources: seq<(string, real)>): seq<string>
  {
    if sources == [] then []
    else
      var init := sources[..|sources| - 1];
      var id := sources[|sources| - 1].0;
      if id in InitialTraces(init) then InitialOrder(init) else InitialOrder(init) + [id]
  }

  /** The queue after the sources are entered: one depth-0 entry per source. */
  function InitialQueue(sources: seq<(string, real)>): seq<Entry>
  {
    if sources == [] then []
    else
      var (id, act) := sources[|sources| - 1];
      InitialQueue(sources[..|sources| - 1]) + [Entry(act, 0, id, [id], [], ZeroBanks)]
  }

  /** The state of the loop of `spread_multiple`: the activation map, its keys in
      insertion order, the priority queue and the popped (`visited`) ids. */
  datatype SearchState = SearchState(A: map<string, Trace>, order: seq<string>, Q: seq<Entry>, visited: set<string>)

  function InitialState(sources: seq<(string, real)>): SearchState
  {
    SearchState(InitialTraces(sources), InitialOrder(sources), InitialQueue(sources), {})
  }

  /** With distinct ids, the queue holds one depth-0 entry per recorded source, in
      insertion order, with the activation recorded for it. */
  lemma {:induction false} InitialQueueMatches(sources: seq<(string, real)>)
    requires DistinctIds(sources)
    ensures |InitialQueue(sources)| == |InitialOrder(sources)|
    ensures forall i :: 0 <= i < |InitialOrder(sources)| ==>
      InitialOrder(sources)[i] in InitialTraces(sources)
      && InitialQueue(sources)[i] == SourceEntry(InitialOrder(sources)[i], InitialTraces(sources)[InitialOrder(sources)[i]].activation)
  {
    if sources != [] {
      var init := sources[..|sources| - 1];
      var (id, act) := sources[|sources| - 1];
      assert DistinctIds(init) by {
        forall i, j | 0 <= i < j < |init|
          ensures init[i].0 != init[j].0
        {
          assert init[i] == sources[i] && init[j] == sources[j];
        }
      }
      InitialQueueMatches(init);
      forall p | p in init
        ensures p.0 != id
      {
        var i :| 0 <= i < |init| && init[i] == p;
        assert sources[i] == p;
      }
      forall x | x in InitialTraces(init)
        ensures x in SourceIds(init)
      {
        InitialTracesSources(init, x);
      }
      var A := InitialTraces(init);
      assert InitialTraces(sources) == A[id := Trace(act, [id], [], ZeroBanks)];
      assert InitialOrder(sources) == InitialOrder(init) + [id];
      assert InitialQueue(sources) == InitialQueue(init) + [SourceEntry(id, act)];
      forall i | 0 <= i < |InitialOrder(init)|
        ensures InitialOrder(sources)[i] in InitialTraces(sources)
        ensures InitialQueue(sources)[i] == SourceEntry(InitialOrder(sources)[i], InitialTraces(sources)[InitialOrder(sources)[i]].activation)
      {
        var k := InitialOrder(init)[i];
        assert InitialOrder(sources)[i] == k && InitialQueue(sources)[i] == InitialQueue(init)[i];
        assert k in A && k != id;
      }
    }
  }

  /** A path that starts at a source, ends at `id`, has one relation per hop and at
      most `maxDepth` hops. */
  ghost predicate PathOk(cfg: SpreadingConfig, src: set<string>, id: string, path: seq<string>, relations: seq<string>)
  {
    |path| >= 1 && path[0] in src && path[|path| - 1] == id
    && |relations| == |path| - 1 && |path| <= cfg.maxDepth + 1
  }

  /** One hop the search can take from `from` to `to` under `relation`: a stored
      link from `from` to `to`, which has a profile, with that relation, or `to`
      is, among the first `anchor_limit` members, a member other than `from` of one
      of the first `max_anchors` anchors of `from`, and the relation is
      `anchor:<label>`. */
  ghost predicate HopOk(store: Store, cfg: SpreadingConfig, from: string, to: string, relation: string)
  {
    (to in store.entities
     && exists l :: l in store.links && l.sourceId == from && l.targetId == to && l.relation == relation)
    || (to != from
        && exists a :: a in Take(store.entityAnchors(from), cfg.maxAnchors) && relation == "anchor:" + a.anchorLabel
             && exists m :: m in store.entitiesWithAnchor(a.anchorId, cfg.anchorLimit) && m.entityId == to)
  }

  /** Every consecutive pair of the path is a hop the search can take, under the
      relation recorded for it. */
  ghost predicate HopsOk(store: Store, cfg: SpreadingConfig, path: seq<string>, relations: seq<string>)
  {
    forall i :: 0 <= i < |relations| && i + 1 < |path| ==> HopOk(store, cfg, path[i], path[i + 1], relations[i])
  }

  /** A recorded trace: a well-formed path made of hops the search can take, zero
      banks on a source's own trace, and an activation of at least the threshold
      unless the entity is a source. */
  ghost predicate TraceOk(store: Store, cfg: SpreadingConfig, src: set<string>, id: string, t: Trace)
  {
    PathOk(cfg, src, id, t.path, t.relations) && HopsOk(store, cfg, t.path, t.relations)
    && (|t.path| == 1 ==> t.banks == ZeroBanks)
    && (id !in src ==> t.activation >= cfg.threshold)
  }

  /** A queued entry: a well-formed path of hops with one node more than its depth. */
  ghost predicate EntryOk(store: Store, cfg: SpreadingConfig, src: set<string>, e: Entry)
  {
    PathOk(cfg, src, e.id, e.path, e.relations) && HopsOk(store, cfg, e.path, e.relations)
    && (|e.path| == 1 ==> e.banks == ZeroBanks)
    && |e.path| == e.depth + 1
  }

  /** Every entity of `before` is still recorded in `after`, with an activation at
      least as large. */
  ghost predicate Dominates(after: map<string, Trace>, before: map<string, Trace>)
  {
    forall id :: id in before ==> id in after && after[id].activation >= before[id].activation
  }

  lemma DominatesTransitive(a: map<string, Trace>, b: map<string, Trace>, c: map<string, Trace>)
    requires Dominates(a, b) && Dominates(b, c)
    ensures Dominates(a, c)
  {
  }

  /** `current is None or new_activation > current[0]`. */
  predicate Improves(A: map<string, Trace>, id: string, activation: real)
  {
    id !in A || activation > A[id].activation
  }

  /** The activation map with its keys in insertion order. */
  ghost predicate StateOk(store: Store, cfg: SpreadingConfig, src: set<string>, A: map<string, Trace>, order: seq<string>)
  {
    (forall id :: id in A ==> TraceOk(store, cfg, src, id, A[id]))
    && Distinct(order) && (forall id :: id in A <==> id in order)
  }

  ghost predicate QueueOk(store: Store, cfg: SpreadingConfig, src: set<string>, A: map<string, Trace>, Q: seq<Entry>)
  {
    forall e :: e in Q ==> EntryOk(store, cfg, src, e) && e.id in A
  }

  /** The invariant of the search: well-formed state and queue, no recorded
      activation below what the sources started with, and every popped id
      recorded. */
  ghost predicate SearchOk(store: Store, cfg: SpreadingConfig, src: set<string>, A0: map<string, Trace>, s: SearchState)
  {
    StateOk(store, cfg, src, s.A, s.order) && QueueOk(store, cfg, src, s.A, s.Q) && Dominates(s.A, A0)
    && s.visited <= s.A.Keys
  }

  /** Appending one hop the search can take to a path of such hops. */
  lemma HopsSnoc(store: Store, cfg: SpreadingConfig, path: seq<string>, relations: seq<string>,
                 to: string, relation: string)
    requires |path| >= 1 && |relations| == |path| - 1 && HopsOk(store, cfg, path, relations)
    requires HopOk(store, cfg, path[|path| - 1], to, relation)
    ensures HopsOk(store, cfg, path + [to], relations + [relation])
  {
    var p := path + [to];
    var r := relations + [relation];
    forall i | 0 <= i < |r| && i + 1 < |p|
      ensures HopOk(store, cfg, p[i], p[i + 1], r[i])
    {
      if i < |relations| {
        assert p[i] == path[i] && p[i + 1] == path[i + 1] && r[i] == relations[i];
      }
    }
  }

  /** The activation a link tuple passes on from an expanded entry. */
  function LinkActivation(cfg: SpreadingConfig, e: Entry, x: Related): real
  {
    e.activation * cfg.decay * cfg.GetWeight(x.relation) * x.weight
  }

  /** The activation a member of an anchor receives from an expanded entry. */
  function AnchorActivation(cfg: SpreadingConfig, e: Entry, a: AnchorRef, m: Member): real
  {
    e.activation * cfg.anchorDecay * a.weight * m.weight
  }

  /** `x` follows a stored link from `from` to an entity with a profile, under the
      link's relation. */
  ghost predicate FollowsLink(store: Store, from: string, x: Related)
  {
    x.profile.entity.id in store.entities
    && exists l :: l in store.links && l.sourceId == from && l.targetId == x.profile.entity.id && l.relation == x.relation
  }

  /** An outgoing tuple of `get_related` follows a stored link to an entity with a
      profile, under the link's relation. */
  lemma LinkedRow(store: Store, from: string, x: Related)
    requires store.Valid() && x in store.GetRelated(from, Outgoing, 20)
    ensures FollowsLink(store, from, x)
  {
    var k :| 0 <= k < |store.GetRelated(from, Outgoing, 20)| && store.GetRelated(from, Outgoing, 20)[k] == x;
    assert store.RelatedRow(from, Outgoing, x);
    var l :| l in store.links && l.sourceId == from && store.RowGives(l, false, x);
  }

  /** A link hop from an entry below the depth limit records a well-formed trace. */
  lemma LinkHopOk(store: Store, cfg: SpreadingConfig, src: set<string>, e: Entry, x: Related, act: real)
    requires EntryOk(store, cfg, src, e) && e.depth < cfg.maxDepth
    requires FollowsLink(store, e.id, x) && act >= cfg.threshold
    ensures var t := LinkHop(e, x.profile.entity.id, x.relation, act);
      TraceOk(store, cfg, src, x.profile.entity.id, t) && |t.path| == e.depth + 2
  {
    HopsSnoc(store, cfg, e.path, e.relations, x.profile.entity.id, x.relation);
  }

  /** An anchor hop from an entry below the depth limit records a well-formed trace. */
  lemma AnchorHopOk(store: Store, cfg: SpreadingConfig, src: set<string>, e: Entry, a: AnchorRef, m: Member, act: real)
    requires EntryOk(store, cfg, src, e) && e.depth < cfg.maxDepth
    requires a in Take(store.entityAnchors(e.id), cfg.maxAnchors)
    requires m in store.entitiesWithAnchor(a.anchorId, cfg.anchorLimit) && m.entityId != e.id
    requires act >= cfg.threshold
    ensures var t := AnchorHop(e, m.entityId, a.anchorLabel, AnchorToBank(a.category), act);
      TraceOk(store, cfg, src, m.entityId, t) && |t.path| == e.depth + 2
  {
    HopsSnoc(store, cfg, e.path, e.relations, m.entityId, "anchor:" + a.anchorLabel);
  }

  /** The index of the first entry of highest activation: what the heap pops, up
      to the order among equal activations. */
  method IndexOfMax(Q: seq<Entry>) returns (m: nat)
    requires Q != []
    ensures IsMaxAt(Q, m)
    ensures forall k :: 0 <= k < m ==> Q[k].activation < Q[m].activation
  {
    m := 0;
    for k := 1 to |Q|
      invariant m < k
      invariant forall j :: 0 <= j < k ==> Q[j].activation <= Q[m].activation
      invariant forall j :: 0 <= j < m ==> Q[j].activation < Q[m].activation
    {
      if Q[k].activation > Q[m].activation {
        m := k;
      }
    }
  }

  /** Entry `m` of the queue has the highest activation. */
  predicate IsMaxAt(Q: seq<Entry>, m: nat)
  {
    m < |Q| && forall k :: 0 <= k < |Q| ==> Q[k].activation <= Q[m].activation
  }

  /** `heappop`: removes and returns an entry of highest activation; `m` is its
      index. */
  method PopMax(Q: seq<Entry>) returns (e: Entry, rest: seq<Entry>, ghost m: nat)
    requires Q != []
    ensures IsMaxAt(Q, m) && forall k :: 0 <= k < m ==> Q[k].activation < Q[m].activation
    ensures e == Q[m] && rest == Q[..m] + Q[m + 1..]
    ensures |rest| == |Q| - 1 && forall x :: x in rest ==> x in Q
  {
    var i := IndexOfMax(Q);
    e, rest, m := Q[i], Q[..i] + Q[i + 1..], i;
    assert forall x :: x in rest ==> x in Q[..i] || x in Q[i + 1..];
  }

  /** The state after a candidate trace for `id` is offered: recorded when `id` is
      new or the trace strictly better, appended to the key order when new, and
      queued unless `id` has already been popped. */
  function OfferNext(s: SearchState, id: string, t: Trace, depth: nat): SearchState
  {
    if Improves(s.A, id, t.activation) then
      SearchState(s.A[id := t], if id in s.A then s.order else s.order + [id],
                  if id in s.visited then s.Q else s.Q + [Entry(t.activation, depth, id, t.path, t.relations, t.banks)],
                  s.visited)
    else s
  }

  /** The update of `activations` and `queue` for one candidate. */
  method Offer(store: Store, cfg: SpreadingConfig, ghost src: set<string>, ghost A0: map<string, Trace>,
               s: SearchState, id: string, t: Trace, depth: nat)
    returns (s': SearchState)
    requires SearchOk(store, cfg, src, A0, s)
    requires TraceOk(store, cfg, src, id, t) && |t.path| == depth + 1 && t.activation >= cfg.threshold
    ensures s' == OfferNext(s, id, t, depth) && s'.visited == s.visited
    ensures SearchOk(store, cfg, src, A0, s') && Dominates(s'.A, s.A)
  {
    s' := s;
    if id !in s.A || t.activation > s.A[id].activation {
      if id !in s.A {
        s' := s'.(order := s.order + [id]);
      }
      s' := s'.(A := s.A[id := t]);
      if id !in s.visited {
        s' := s'.(Q := s.Q + [Entry(t.activation, depth, id, t.path, t.relations, t.banks)]);
      }
    }
    OfferNextOk(store, cfg, src, A0, s, id, t, depth);
  }

  /** An offer keeps the search state well-formed and never lowers an activation. */
  lemma OfferNextOk(store: Store, cfg: SpreadingConfig, src: set<string>, A0: map<string, Trace>,
                    s: SearchState, id: string, t: Trace, depth: nat)
    requires SearchOk(store, cfg, src, A0, s)
    requires TraceOk(store, cfg, src, id, t) && |t.path| == depth + 1
    ensures SearchOk(store, cfg, src, A0, OfferNext(s, id, t, depth))
    ensures Dominates(OfferNext(s, id, t, depth).A, s.A)
  {
    var s' := OfferNext(s, id, t, depth);
    OfferNextDominates(s, id, t, depth);
    DominatesTransitive(s'.A, s.A, A0);
    if Improves(s.A, id, t.activation) {
      OfferStateOk(store, cfg, src, s.A, s.order, id, t);
      OfferQueueOk(store, cfg, src, s.A, s.Q, id, t, depth, id in s.visited);
    }
  }

  /** Recording a well-formed trace keeps the activation map and its key order
      well-formed. */
  lemma OfferStateOk(store: Store, cfg: SpreadingConfig, src: set<string>, A: map<string, Trace>, order: seq<string>,
                     id: string, t: Trace)
    requires StateOk(store, cfg, src, A, order) && TraceOk(store, cfg, src, id, t)
    ensures StateOk(store, cfg, src, A[id := t], if id in A then order else order + [id])
  {
    var order' := if id in A then order else order + [id];
    assert forall x :: x in order' <==> x in order || x == id;
  }

  /** Queueing the entry of a well-formed trace, or not, keeps the queue well-formed
      once the trace is recorded. */
  lemma OfferQueueOk(store: Store, cfg: SpreadingConfig, src: set<string>, A: map<string, Trace>, Q: seq<Entry>,
                     id: string, t: Trace, depth: nat, popped: bool)
    requires QueueOk(store, cfg, src, A, Q) && TraceOk(store, cfg, src, id, t) && |t.path| == depth + 1
    ensures QueueOk(store, cfg, src, A[id := t], if popped then Q else Q + [Entry(t.activation, depth, id, t.path, t.relations, t.banks)])
  {
  }

  /** Entering one source keeps the state and the queue well-formed. */
  lemma EnterOneOk(store: Store, cfg: SpreadingConfig, src: set<string>, A: map<string, Trace>, order: seq<string>,
                   Q: seq<Entry>, id: string, act: real)
    requires StateOk(store, cfg, src, A, order) && QueueOk(store, cfg, src, A, Q) && id in src
    ensures var A' := A[id := Trace(act, [id], [], ZeroBanks)];
      StateOk(store, cfg, src, A', if id in A then order else order + [id])
      && QueueOk(store, cfg, src, A', Q + [Entry(act, 0, id, [id], [], ZeroBanks)])
  {
    var A' := A[id := Trace(act, [id], [], ZeroBanks)];
    var order' := if id in A then order else order + [id];
    assert forall x :: x in order' <==> x in order || x == id;
    assert TraceOk(store, cfg, src, id, A'[id]);
  }

  /** The loop over `sources.items()`: every source is recorded and queued. */
  method EnterSources(store: Store, cfg: SpreadingConfig, sources: seq<(string, real)>) returns (s: SearchState)
    ensures s == InitialState(sources)
    ensures SearchOk(store, cfg, SourceIds(sources), InitialTraces(sources), s)
  {
    ghost var src := SourceIds(sources);
    var A, order, Q := map[], [], [];
    for i := 0 to |sources|
      invariant A == InitialTraces(sources[..i]) && order == InitialOrder(sources[..i]) && Q == InitialQueue(sources[..i])
      invariant StateOk(store, cfg, src, A, order) && QueueOk(store, cfg, src, A, Q)
    {
      assert sources[..i + 1][..i] == sources[..i];
      var (id, act) := sources[i];
      assert sources[i] in sources;
      EnterOneOk(store, cfg, src, A, order, Q, id, act);
      Q := Q + [Entry(act, 0, id, [id], [], ZeroBanks)];
      if id !in A {
        order := order + [id];
      }
      A := A[id := Trace(act, [id], [], ZeroBanks)];
    }
    assert sources[..|sources|] == sources;
    s := SearchState(A, order, Q, {});
  }

  /** The state after layer 1 has gone through the given link tuples of an
      expanded entry: each passes on `LinkActivation` when that reaches the
      threshold. */
  function LinkOffers(cfg: SpreadingConfig, s: SearchState, e: Entry, related: seq<Related>): SearchState
  {
    if related == [] then s
    else
      var before := LinkOffers(cfg, s, e, related[..|related| - 1]);
      var x := related[|related| - 1];
      var act := LinkActivation(cfg, e, x);
      if act >= cfg.threshold
      then OfferNext(before, x.profile.entity.id, LinkHop(e, x.profile.entity.id, x.relation, act), e.depth + 1)
      else before
  }

  /** The state after layer 2 has gone through the given members of one anchor of
      an expanded entry: each member other than the entry passes on
      `AnchorActivation` when that reaches the threshold. */
  function AnchorOffers(cfg: SpreadingConfig, s: SearchState, e: Entry, a: AnchorRef, members: seq<Member>): SearchState
  {
    if members == [] then s
    else
      var before := AnchorOffers(cfg, s, e, a, members[..|members| - 1]);
      var m := members[|members| - 1];
      var act := AnchorActivation(cfg, e, a, m);
      if m.entityId != e.id && act >= cfg.threshold
      then OfferNext(before, m.entityId, AnchorHop(e, m.entityId, a.anchorLabel, AnchorToBank(a.category), act), e.depth + 1)
      else before
  }

  /** The state after layer 2 has gone through the given anchors in turn, each with
      its first `anchor_limit` members. */
  function AnchorsOffers(store: Store, cfg: SpreadingConfig, s: SearchState, e: Entry, anchors: seq<AnchorRef>): SearchState
  {
    if anchors == [] then s
    else
      var a := anchors[|anchors| - 1];
      AnchorOffers(cfg, AnchorsOffers(store, cfg, s, e, anchors[..|anchors| - 1]), e, a,
                   store.entitiesWithAnchor(a.anchorId, cfg.anchorLimit))
  }

  /** Expanding an entry: its first 20 outgoing links, then, with anchors on, its
      first `max_anchors` anchors. */
  function Expand(store: Store, cfg: SpreadingConfig, useAnchors: bool, s: SearchState, e: Entry): SearchState
  {
    var linked := LinkOffers(cfg, s, e, store.GetRelated(e.id, Outgoing, 20));
    if useAnchors then AnchorsOffers(store, cfg, linked, e, Take(store.entityAnchors(e.id), cfg.maxAnchors))
    else linked
  }

  /** The popped entry is expanded: its entity was not popped before and it is
      below the depth limit and at or above the threshold. */
  predicate Expands(cfg: SpreadingConfig, s: SearchState, m: nat)
    requires m < |s.Q|
  {
    s.Q[m].id !in s.visited && s.Q[m].depth < cfg.maxDepth && s.Q[m].activation >= cfg.threshold
  }

  /** One iteration of the loop, popping entry `m`: an entity popped before is
      skipped; otherwise it is marked visited and, unless cut off by depth or
      threshold, expanded. */
  function StepNext(store: Store, cfg: SpreadingConfig, useAnchors: bool, s: SearchState, m: nat): SearchState
    requires m < |s.Q|
  {
    var e := s.Q[m];
    var popped := s.(Q := s.Q[..m] + s.Q[m + 1..]);
    if e.id in s.visited then popped
    else if e.depth >= cfg.maxDepth || e.activation < cfg.threshold then popped.(visited := s.visited + {e.id})
    else Expand(store, cfg, useAnchors, popped.(visited := s.visited + {e.id}), e)
  }

  /** `while queue and len(visited) < max_results * 2`. */
  predicate Running(cfg: SpreadingConfig, s: SearchState)
  {
    s.Q != [] && |s.visited| < 2 * cfg.maxResults
  }

  /** `run` is a run of the loop from the sources: each state is the step of the
      previous one popping an entry of highest activation, `picks` holds the popped
      indices, and the loop condition held before every step. */
  ghost predicate IsRun(store: Store, cfg: SpreadingConfig, useAnchors: bool, sources: seq<(string, real)>,
                        run: seq<SearchState>, picks: seq<nat>)
  {
    |run| == |picks| + 1 && run[0] == InitialState(sources)
    && forall i :: 0 <= i < |picks| ==>
         Running(cfg, run[i]) && IsMaxAt(run[i].Q, picks[i])
         && run[i + 1] == StepNext(store, cfg, useAnchors, run[i], picks[i])
  }

  /** A run followed by one more step is a run. */
  lemma RunSnoc(store: Store, cfg: SpreadingConfig, useAnchors: bool, sources: seq<(string, real)>,
                run: seq<SearchState>, picks: seq<nat>, m: nat, next: SearchState)
    requires IsRun(store, cfg, useAnchors, sources, run, picks)
    requires Running(cfg, run[|run| - 1]) && IsMaxAt(run[|run| - 1].Q, m)
    requires next == StepNext(store, cfg, useAnchors, run[|run| - 1], m)
    ensures IsRun(store, cfg, useAnchors, sources, run + [next], picks + [m])
  {
    var r := run + [next];
    var p := picks + [m];
    forall i | 0 <= i < |p|
      ensures Running(cfg, r[i]) && IsMaxAt(r[i].Q, p[i]) && r[i + 1] == StepNext(store, cfg, useAnchors, r[i], p[i])
    {
      if i < |picks| {
        assert r[i] == run[i] && r[i + 1] == run[i + 1] && p[i] == picks[i];
      } else {
        assert r[i] == run[|run| - 1] && r[i + 1] == next && p[i] == m;
      }
    }
  }

  lemma LinkOffersSnoc(cfg: SpreadingConfig, s: SearchState, e: Entry, related: seq<Related>, k: nat)
    requires k < |related|
    ensures var before := LinkOffers(cfg, s, e, related[..k]);
      var x := related[k];
      var act := LinkActivation(cfg, e, x);
      LinkOffers(cfg, s, e, related[..k + 1])
      == if act >= cfg.threshold
         then OfferNext(before, x.profile.entity.id, LinkHop(e, x.profile.entity.id, x.relation, act), e.depth + 1)
         else before
  {
    assert related[..k + 1][..k] == related[..k];
  }

  lemma AnchorOffersSnoc(cfg: SpreadingConfig, s: SearchState, e: Entry, a: AnchorRef, members: seq<Member>, j: nat)
    requires j < |members|
    ensures var before := AnchorOffers(cfg, s, e, a, members[..j]);
      var m := members[j];
      var act := AnchorActivation(cfg, e, a, m);
      AnchorOffers(cfg, s, e, a, members[..j + 1])
      == if m.entityId != e.id && act >= cfg.threshold
         then OfferNext(before, m.entityId, AnchorHop(e, m.entityId, a.anchorLabel, AnchorToBank(a.category), act), e.depth + 1)
         else before
  {
    assert members[..j + 1][..j] == members[..j];
  }

  /** One more tuple of layer 1 extends the fold by one step. */
  lemma LinkOffersStep(cfg: SpreadingConfig, s: SearchState, e: Entry, related: seq<Related>, k: nat,
                       before: SearchState, after: SearchState)
    requires k < |related| && before == LinkOffers(cfg, s, e, related[..k])
    requires after == if LinkActivation(cfg, e, related[k]) >= cfg.threshold
                      then OfferNext(before, related[k].profile.entity.id,
                                     LinkHop(e, related[k].profile.entity.id, related[k].relation, LinkActivation(cfg, e, related[k])),
                                     e.depth + 1)
                      else before
    ensures after == LinkOffers(cfg, s, e, related[..k + 1])
  {
    LinkOffersSnoc(cfg, s, e, related, k);
  }

  /** The body of the loop of layer 1 for one link tuple: the tuple passes on
      `activation * decay * get_weight(relation) * weight` when that reaches the
      threshold, recorded under its relation with the banks copied. */
  method OfferLink(store: Store, cfg: SpreadingConfig, ghost src: set<string>, ghost A0: map<string, Trace>,
                   s: SearchState, e: Entry, x: Related)
    returns (s': SearchState)
    requires SearchOk(store, cfg, src, A0, s)
    requires EntryOk(store, cfg, src, e) && e.depth < cfg.maxDepth
    requires FollowsLink(store, e.id, x)
    ensures s' == if LinkActivation(cfg, e, x) >= cfg.threshold
                  then OfferNext(s, x.profile.entity.id, LinkHop(e, x.profile.entity.id, x.relation, LinkActivation(cfg, e, x)),
                                 e.depth + 1)
                  else s
    ensures s'.visited == s.visited
    ensures SearchOk(store, cfg, src, A0, s') && Dominates(s'.A, s.A)
  {
    s' := s;
    var neighbor := x.profile.entity.id;
    var act := LinkActivation(cfg, e, x);
    if act >= cfg.threshold {
      LinkHopOk(store, cfg, src, e, x, act);
      s' := Offer(store, cfg, src, A0, s, neighbor, LinkHop(e, neighbor, x.relation, act), e.depth + 1);
    }
  }

  /** Layer 1 for one expanded entry: its first 20 outgoing link tuples in turn. */
  method SpreadLinks(store: Store, cfg: SpreadingConfig, ghost src: set<string>, ghost A0: map<string, Trace>,
                     s: SearchState, e: Entry)
    returns (s': SearchState)
    requires store.Valid() && SearchOk(store, cfg, src, A0, s)
    requires EntryOk(store, cfg, src, e) && e.depth < cfg.maxDepth
    ensures s' == LinkOffers(cfg, s, e, store.GetRelated(e.id, Outgoing, 20)) && s'.visited == s.visited
    ensures SearchOk(store, cfg, src, A0, s') && Dominates(s'.A, s.A)
  {
    var related := store.GetRelated(e.id, Outgoing, 20);
    forall x | x in related
      ensures FollowsLink(store, e.id, x)
    {
      LinkedRow(store, e.id, x);
    }
    s' := OfferLinks(store, cfg, src, A0, s, e, related);
  }

  /** The loop of layer 1 over the given tuples, each following a stored link. */
  method OfferLinks(store: Store, cfg: SpreadingConfig, ghost src: set<string>, ghost A0: map<string, Trace>,
                    s: SearchState, e: Entry, related: seq<Related>)
    returns (s': SearchState)
    requires SearchOk(store, cfg, src, A0, s)
    requires EntryOk(store, cfg, src, e) && e.depth < cfg.maxDepth
    requires forall x :: x in related ==> FollowsLink(store, e.id, x)
    ensures s' == LinkOffers(cfg, s, e, related) && s'.visited == s.visited
    ensures SearchOk(store, cfg, src, A0, s') && Dominates(s'.A, s.A)
  {
    s' := s;
    for k := 0 to |related|
      invariant s' == LinkOffers(cfg, s, e, related[..k]) && s'.visited == s.visited
      invariant SearchOk(store, cfg, src, A0, s')
    {
      ghost var before := s';
      s' := OfferLink(store, cfg, src, A0, s', e, related[k]);
      LinkOffersStep(cfg, s, e, related, k, before, s');
    }
    assert related[..|related|] == related;
    LinkOffersDominates(cfg, s, e, related);
  }

  /** The body of the inner loop of layer 2 for one member of an anchor: a member
      other than the expanded entity receives `activation * anchor_decay *
      anchor_weight * member_weight` when that reaches the threshold, recorded
      under `anchor:<label>` with the amount added to the anchor's bank. */
  method OfferMember(store: Store, cfg: SpreadingConfig, ghost src: set<string>, ghost A0: map<string, Trace>,
                     s: SearchState, e: Entry, anchor: AnchorRef, m: Member)
    returns (s': SearchState)
    requires SearchOk(store, cfg, src, A0, s)
    requires EntryOk(store, cfg, src, e) && e.depth < cfg.maxDepth
    requires anchor in Take(store.entityAnchors(e.id), cfg.maxAnchors)
    requires m in store.entitiesWithAnchor(anchor.anchorId, cfg.anchorLimit)
    ensures s' == if m.entityId != e.id && AnchorActivation(cfg, e, anchor, m) >= cfg.threshold
                  then OfferNext(s, m.entityId, AnchorHop(e, m.entityId, anchor.anchorLabel, AnchorToBank(anchor.category),
                                                          AnchorActivation(cfg, e, anchor, m)), e.depth + 1)
                  else s
    ensures s'.visited == s.visited
    ensures SearchOk(store, cfg, src, A0, s') && Dominates(s'.A, s.A)
  {
    s' := s;
    if m.entityId == e.id {
      return;
    }
    var act := AnchorActivation(cfg, e, anchor, m);
    if act >= cfg.threshold {
      AnchorHopOk(store, cfg, src, e, anchor, m, act);
      s' := Offer(store, cfg, src, A0, s, m.entityId, AnchorHop(e, m.entityId, anchor.anchorLabel, AnchorToBank(anchor.category), act), e.depth + 1);
    }
  }

  /** Layer 2 for one anchor of an expanded entry: its first `anchor_limit`
      members in turn. */
  method SpreadAnchor(store: Store, cfg: SpreadingConfig, ghost src: set<string>, ghost A0: map<string, Trace>,
                      s: SearchState, e: Entry, anchor: AnchorRef)
    returns (s': SearchState)
    requires SearchOk(store, cfg, src, A0, s)
    requires EntryOk(store, cfg, src, e) && e.depth < cfg.maxDepth
    requires anchor in Take(store.entityAnchors(e.id), cfg.maxAnchors)
    ensures s' == AnchorOffers(cfg, s, e, anchor, store.entitiesWithAnchor(anchor.anchorId, cfg.anchorLimit)) && s'.visited == s.visited
    ensures SearchOk(store, cfg, src, A0, s') && Dominates(s'.A, s.A)
  {
    s' := s;
    var members := store.entitiesWithAnchor(anchor.anchorId, cfg.anchorLimit);
    for j := 0 to |members|
      invariant s' == AnchorOffers(cfg, s, e, anchor, members[..j]) && s'.visited == s.visited
      invariant SearchOk(store, cfg, src, A0, s')
    {
      AnchorOffersSnoc(cfg, s, e, anchor, members, j);
      s' := OfferMember(store, cfg, src, A0, s', e, anchor, members[j]);
    }
    assert members[..|members|] == members;
    AnchorOffersDominates(cfg, s, e, anchor, members);
  }

  /** Layer 2 for one expanded entry: its first `max_anchors` anchors in turn. */
  method SpreadAnchors(store: Store, cfg: SpreadingConfig, ghost src: set<string>, ghost A0: map<string, Trace>,
                       s: SearchState, e: Entry)
    returns (s': SearchState)
    requires SearchOk(store, cfg, src, A0, s)
    requires EntryOk(store, cfg, src, e) && e.depth < cfg.maxDepth
    ensures s' == AnchorsOffers(store, cfg, s, e, Take(store.entityAnchors(e.id), cfg.maxAnchors)) && s'.visited == s.visited
    ensures SearchOk(store, cfg, src, A0, s') && Dominates(s'.A, s.A)
  {
    s' := s;
    var anchors := Take(store.entityAnchors(e.id), cfg.maxAnchors);
    for a := 0 to |anchors|
      invariant s' == AnchorsOffers(store, cfg, s, e, anchors[..a]) && s'.visited == s.visited
      invariant SearchOk(store, cfg, src, A0, s')
    {
      assert anchors[..a + 1][..a] == anchors[..a];
      s' := SpreadAnchor(store, cfg, src, A0, s', e, anchors[a]);
    }
    assert anchors[..|anchors|] == anchors;
    AnchorsOffersDominates(store, cfg, s, e, anchors);
  }

  /** One iteration of the loop of `spread_multiple`: pop the first entry of
      highest activation (index `m`); unless its entity was already popped, mark it
      visited and, when it is above the depth and threshold cut-offs, expand it
      through both layers. `expandedEntry` is the entry that was expanded, if any;
      when there is none, only the queue and `visited` change. */
  method Step(store: Store, cfg: SpreadingConfig, ghost src: set<string>, ghost A0: map<string, Trace>,
              useAnchors: bool, s: SearchState)
    returns (s': SearchState, ghost m: nat, ghost expandedEntry: Option<Entry>)
    requires store.Valid() && SearchOk(store, cfg, src, A0, s) && s.Q != []
    ensures IsMaxAt(s.Q, m) && forall k :: 0 <= k < m ==> s.Q[k].activation < s.Q[m].activation
    ensures s' == StepNext(store, cfg, useAnchors, s, m)
    ensures SearchOk(store, cfg, src, A0, s') && Dominates(s'.A, s.A)
    ensures s'.visited == s.visited + {s.Q[m].id}
    ensures expandedEntry == if Expands(cfg, s, m) then Some(s.Q[m]) else None
    ensures expandedEntry.None? ==> s'.A == s.A && s'.order == s.order && s'.Q == s.Q[..m] + s.Q[m + 1..]
    ensures (s'.visited == s.visited && |s'.Q| < |s.Q|) || |s'.visited| == |s.visited| + 1
  {
    var e, rest;
    e, rest, m := PopMax(s.Q);
    s' := s.(Q := rest);
    expandedEntry := None;
    if e.id in s.visited {
      return;
    }
    s' := s'.(visited := s.visited + {e.id});
    if e.depth >= cfg.maxDepth || e.activation < cfg.threshold {
      return;
    }
    expandedEntry := Some(e);
    s' := SpreadLinks(store, cfg, src, A0, s', e);
    if useAnchors {
      ghost var mid := s'.A;
      s' := SpreadAnchors(store, cfg, src, A0, s', e);
      DominatesTransitive(s'.A, mid, s.A);
    }
  }

  /** The expanded entries: each was popped, below the depth limit and at or above
      the threshold, and no entity was expanded twice. */
  ghost predicate ExpandedOk(cfg: SpreadingConfig, seen: set<string>, expanded: seq<Entry>)
  {
    (forall k :: 0 <= k < |expanded| ==>
       expanded[k].id in seen && expanded[k].depth < cfg.maxDepth && expanded[k].activation >= cfg.threshold)
    && forall i, j :: 0 <= i < j < |expanded| ==> expanded[i].id != expanded[j].id
  }

  /** A step that pops a new entity may append its entry to the expanded ones. */
  lemma ExpandedGrows(cfg: SpreadingConfig, seen: set<string>, seen': set<string>, expanded: seq<Entry>,
                      ex: Option<Entry>)
    requires ExpandedOk(cfg, seen, expanded) && seen <= seen'
    requires ex.Some? ==>
               ex.value.id in seen' && ex.value.id !in seen
               && ex.value.depth < cfg.maxDepth && ex.value.activation >= cfg.threshold
    ensures ExpandedOk(cfg, seen', if ex.Some? then expanded + [ex.value] else expanded)
  {
    if ex.Some? {
      var x := expanded + [ex.value];
      assert forall k :: 0 <= k < |expanded| ==> x[k] == expanded[k];
    }
  }

  /** The best-first loop of `spread_multiple`: returns the final state, and as
      ghost outputs the run of the loop that reached it, the popped indices and
      the entries that were expanded. */
  method Propagate(store: Store, cfg: SpreadingConfig, sources: seq<(string, real)>, useAnchors: bool)
    returns (s: SearchState, ghost run: seq<SearchState>, ghost picks: seq<nat>, ghost expanded: seq<Entry>)
    requires store.Valid()
    ensures IsRun(store, cfg, useAnchors, sources, run, picks) && run[|run| - 1] == s && !Running(cfg, s)
    ensures SearchOk(store, cfg, SourceIds(sources), InitialTraces(sources), s)
    ensures |s.visited| <= 2 * cfg.maxResults
    ensures ExpandedOk(cfg, s.visited, expanded)
  {
    ghost var src := SourceIds(sources);
    ghost var A0 := InitialTraces(sources);
    s := EnterSources(store, cfg, sources);
    run, picks, expanded := [s], [], [];
    while s.Q != [] && |s.visited| < 2 * cfg.maxResults
      invariant SearchOk(store, cfg, src, A0, s)
      invariant |s.visited| <= 2 * cfg.maxResults
      invariant IsRun(store, cfg, useAnchors, sources, run, picks) && run[|run| - 1] == s
      invariant ExpandedOk(cfg, s.visited, expanded)
      decreases 2 * cfg.maxResults - |s.visited|, |s.Q|
    {
      ghost var before := s;
      ghost var m, ex;
      s, m, ex := Step(store, cfg, src, A0, useAnchors, s);
      RunSnoc(store, cfg, useAnchors, sources, run, picks, m, s);
      run, picks := run + [s], picks + [m];
      ExpandedGrows(cfg, before.visited, s.visited, expanded, ex);
      if ex.Some? {
        expanded := expanded + [ex.value];
      }
    }
  }

  /** Offering a trace never lowers a recorded activation, and afterwards `id`
      holds at least the offered activation. */
  lemma OfferNextDominates(s: SearchState, id: string, t: Trace, depth: nat)
    ensures Dominates(OfferNext(s, id, t, depth).A, s.A)
    ensures id in OfferNext(s, id, t, depth).A && OfferNext(s, id, t, depth).A[id].activation >= t.activation
    ensures OfferNext(s, id, t, depth).visited == s.visited
  {
  }

  /** Layer 1 never lowers a recorded activation, and every tuple that passes the
      threshold leaves its entity with at least the activation it passed on. */
  lemma {:induction false} LinkOffersDominates(cfg: SpreadingConfig, s: SearchState, e: Entry, related: seq<Related>)
    ensures Dominates(LinkOffers(cfg, s, e, related).A, s.A)
    ensures forall x :: x in related && LinkActivation(cfg, e, x) >= cfg.threshold ==>
              x.profile.entity.id in LinkOffers(cfg, s, e, related).A
              && LinkOffers(cfg, s, e, related).A[x.profile.entity.id].activation >= LinkActivation(cfg, e, x)
  {
    if related != [] {
      var init := related[..|related| - 1];
      var before := LinkOffers(cfg, s, e, init);
      var after := LinkOffers(cfg, s, e, related);
      var last := related[|related| - 1];
      var act := LinkActivation(cfg, e, last);
      LinkOffersDominates(cfg, s, e, init);
      if act >= cfg.threshold {
        OfferNextDominates(before, last.profile.entity.id, LinkHop(e, last.profile.entity.id, last.relation, act), e.depth + 1);
      }
      assert Dominates(after.A, before.A);
      forall x | x in related && LinkActivation(cfg, e, x) >= cfg.threshold
        ensures x.profile.entity.id in after.A && after.A[x.profile.entity.id].activation >= LinkActivation(cfg, e, x)
      {
        if x != last {
          assert x in init;
        }
      }
    }
  }

  /** Layer 2 for one anchor never lowers a recorded activation. */
  lemma {:induction false} AnchorOffersDominates(cfg: SpreadingConfig, s: SearchState, e: Entry, a: AnchorRef, members: seq<Member>)
    ensures Dominates(AnchorOffers(cfg, s, e, a, members).A, s.A)
  {
    if members != [] {
      var init := members[..|members| - 1];
      var before := AnchorOffers(cfg, s, e, a, init);
      var m := members[|members| - 1];
      var act := AnchorActivation(cfg, e, a, m);
      AnchorOffersDominates(cfg, s, e, a, init);
      if m.entityId != e.id && act >= cfg.threshold {
        OfferNextDominates(before, m.entityId, AnchorHop(e, m.entityId, a.anchorLabel, AnchorToBank(a.category), act), e.depth + 1);
      }
      DominatesTransitive(AnchorOffers(cfg, s, e, a, members).A, before.A, s.A);
    }
  }

  /** Layer 2 never lowers a recorded activation. */
  lemma {:induction false} AnchorsOffersDominates(store: Store, cfg: SpreadingConfig, s: SearchState, e: Entry, anchors: seq<AnchorRef>)
    ensures Dominates(AnchorsOffers(store, cfg, s, e, anchors).A, s.A)
  {
    if anchors != [] {
      var a := anchors[|anchors| - 1];
      var mid := AnchorsOffers(store, cfg, s, e, anchors[..|anchors| - 1]);
      AnchorsOffersDominates(store, cfg, s, e, anchors[..|anchors| - 1]);
      AnchorOffersDominates(cfg, mid, e, a, store.entitiesWithAnchor(a.anchorId, cfg.anchorLimit));
      DominatesTransitive(AnchorsOffers(store, cfg, s, e, anchors).A, mid.A, s.A);
    }
  }

  /** A step never lowers a recorded activation. */
  lemma StepNextDominates(store: Store, cfg: SpreadingConfig, useAnchors: bool, s: SearchState, m: nat)
    requires m < |s.Q|
    ensures Dominates(StepNext(store, cfg, useAnchors, s, m).A, s.A)
  {
    var e := s.Q[m];
    if Expands(cfg, s, m) {
      var marked := s.(Q := s.Q[..m] + s.Q[m + 1..]).(visited := s.visited + {e.id});
      var linked := LinkOffers(cfg, marked, e, store.GetRelated(e.id, Outgoing, 20));
      LinkOffersDominates(cfg, marked, e, store.GetRelated(e.id, Outgoing, 20));
      if useAnchors {
        AnchorsOffersDominates(store, cfg, linked, e, Take(store.entityAnchors(e.id), cfg.maxAnchors));
        DominatesTransitive(StepNext(store, cfg, useAnchors, s, m).A, linked.A, s.A);
      }
    }
  }

  /** Along a run, recorded activations never go down. */
  lemma {:induction false} RunDominates(store: Store, cfg: SpreadingConfig, useAnchors: bool, sources: seq<(string, real)>,
                                        run: seq<SearchState>, picks: seq<nat>, i: nat, j: nat)
    requires IsRun(store, cfg, useAnchors, sources, run, picks) && i <= j < |run|
    ensures Dominates(run[j].A, run[i].A)
    decreases j - i
  {
    if i < j {
      RunDominates(store, cfg, useAnchors, sources, run, picks, i + 1, j);
      StepNextDominates(store, cfg, useAnchors, run[i], picks[i]);
      DominatesTransitive(run[j].A, run[i + 1].A, run[i].A);
    }
  }

  /** `id` was added, or its trace replaced, between the two maps. */
  ghost predicate Changed(before: map<string, Trace>, after: map<string, Trace>, id: string)
  {
    id in after && (id !in before || after[id] != before[id])
  }

  /** Every trace layer 1 records is the link hop of one of the given tuples that
      passes the threshold. */
  lemma {:induction false} LinkOffersRecords(cfg: SpreadingConfig, s: SearchState, e: Entry, related: seq<Related>, id: string)
    requires Changed(s.A, LinkOffers(cfg, s, e, related).A, id)
    ensures exists x :: x in related && x.profile.entity.id == id && LinkActivation(cfg, e, x) >= cfg.threshold
              && LinkOffers(cfg, s, e, related).A[id] == LinkHop(e, id, x.relation, LinkActivation(cfg, e, x))
  {
    assert related != [];
    var init := related[..|related| - 1];
    var before := LinkOffers(cfg, s, e, init);
    var after := LinkOffers(cfg, s, e, related);
    var last := related[|related| - 1];
    var act := LinkActivation(cfg, e, last);
    if act >= cfg.threshold && last.profile.entity.id == id && Improves(before.A, id, act) {
      assert last in related && after.A[id] == LinkHop(e, id, last.relation, act);
    } else {
      assert id in before.A && after.A[id] == before.A[id];
      LinkOffersRecords(cfg, s, e, init, id);
      var x :| x in init && x.profile.entity.id == id && LinkActivation(cfg, e, x) >= cfg.threshold
               && before.A[id] == LinkHop(e, id, x.relation, LinkActivation(cfg, e, x));
      assert x in related;
    }
  }

  /** Every trace layer 2 records for one anchor is the anchor hop of one of the
      given members, other than the expanded entity, that passes the threshold. */
  lemma {:induction false} AnchorOffersRecords(cfg: SpreadingConfig, s: SearchState, e: Entry, a: AnchorRef,
                                               members: seq<Member>, id: string)
    requires Changed(s.A, AnchorOffers(cfg, s, e, a, members).A, id)
    ensures id != e.id
    ensures exists m :: m in members && m.entityId == id && AnchorActivation(cfg, e, a, m) >= cfg.threshold
              && AnchorOffers(cfg, s, e, a, members).A[id]
                 == AnchorHop(e, id, a.anchorLabel, AnchorToBank(a.category), AnchorActivation(cfg, e, a, m))
  {
    assert members != [];
    var init := members[..|members| - 1];
    var before := AnchorOffers(cfg, s, e, a, init);
    var after := AnchorOffers(cfg, s, e, a, members);
    var last := members[|members| - 1];
    var act := AnchorActivation(cfg, e, a, last);
    if last.entityId != e.id && act >= cfg.threshold && last.entityId == id && Improves(before.A, id, act) {
      assert last in members && after.A[id] == AnchorHop(e, id, a.anchorLabel, AnchorToBank(a.category), act);
    } else {
      assert id in before.A && after.A[id] == before.A[id];
      AnchorOffersRecords(cfg, s, e, a, init, id);
      var m :| m in init && m.entityId == id && AnchorActivation(cfg, e, a, m) >= cfg.threshold
               && before.A[id] == AnchorHop(e, id, a.anchorLabel, AnchorToBank(a.category), AnchorActivation(cfg, e, a, m));
      assert m in members;
    }
  }

  /** `t` is the trace a link hop of expanded entry `e` records for `id`: one of
      the first 20 outgoing tuples of `e` leads to `id` and passes on at least the
      threshold. */
  ghost predicate LinkHopFrom(store: Store, cfg: SpreadingConfig, e: Entry, id: string, t: Trace)
  {
    exists x :: x in store.GetRelated(e.id, Outgoing, 20) && x.profile.entity.id == id
      && LinkActivation(cfg, e, x) >= cfg.threshold && t == LinkHop(e, id, x.relation, LinkActivation(cfg, e, x))
  }

  /** `t` is the trace an anchor hop of expanded entry `e` records for `id`: `id`
      is a member, other than `e`'s entity, of one of `e`'s first `max_anchors`
      anchors and receives at least the threshold. */
  ghost predicate AnchorHopFrom(store: Store, cfg: SpreadingConfig, anchors: seq<AnchorRef>, e: Entry, id: string, t: Trace)
  {
    id != e.id
    && exists a, m :: a in anchors && m in store.entitiesWithAnchor(a.anchorId, cfg.anchorLimit) && m.entityId == id
         && AnchorActivation(cfg, e, a, m) >= cfg.threshold
         && t == AnchorHop(e, id, a.anchorLabel, AnchorToBank(a.category), AnchorActivation(cfg, e, a, m))
  }

  /** Every trace layer 2 records is an anchor hop through one of the given anchors. */
  lemma {:induction false} AnchorsOffersRecords(store: Store, cfg: SpreadingConfig, s: SearchState, e: Entry,
                                                anchors: seq<AnchorRef>, id: string)
    requires Changed(s.A, AnchorsOffers(store, cfg, s, e, anchors).A, id)
    ensures AnchorHopFrom(store, cfg, anchors, e, id, AnchorsOffers(store, cfg, s, e, anchors).A[id])
  {
    assert anchors != [];
    var init := anchors[..|anchors| - 1];
    var a := anchors[|anchors| - 1];
    var mid := AnchorsOffers(store, cfg, s, e, init);
    var after := AnchorsOffers(store, cfg, s, e, anchors);
    var members := store.entitiesWithAnchor(a.anchorId, cfg.anchorLimit);
    if Changed(mid.A, after.A, id) {
      AnchorOffersRecords(cfg, mid, e, a, members, id);
      assert a in anchors;
    } else {
      AnchorsOffersRecords(store, cfg, s, e, init, id);
      var b, m :| b in init && m in store.entitiesWithAnchor(b.anchorId, cfg.anchorLimit) && m.entityId == id
                  && AnchorActivation(cfg, e, b, m) >= cfg.threshold
                  && mid.A[id] == AnchorHop(e, id, b.anchorLabel, AnchorToBank(b.category), AnchorActivation(cfg, e, b, m));
      assert b in anchors;
    }
  }

  /** A step changes the trace of an entity only by expanding the popped entry:
      the entry is above the cut-offs and not popped before, and the new trace is a
      link hop or, with anchors on, an anchor hop from it. */
  lemma StepRecords(store: Store, cfg: SpreadingConfig, useAnchors: bool, s: SearchState, m: nat, id: string)
    requires m < |s.Q| && Changed(s.A, StepNext(store, cfg, useAnchors, s, m).A, id)
    ensures Expands(cfg, s, m)
    ensures var t := StepNext(store, cfg, useAnchors, s, m).A[id];
      LinkHopFrom(store, cfg, s.Q[m], id, t)
      || (useAnchors && AnchorHopFrom(store, cfg, Take(store.entityAnchors(s.Q[m].id), cfg.maxAnchors), s.Q[m], id, t))
  {
    var e := s.Q[m];
    assert Expands(cfg, s, m);
    var marked := s.(Q := s.Q[..m] + s.Q[m + 1..]).(visited := s.visited + {e.id});
    var related := store.GetRelated(e.id, Outgoing, 20);
    var linked := LinkOffers(cfg, marked, e, related);
    var after := StepNext(store, cfg, useAnchors, s, m);
    if useAnchors && Changed(linked.A, after.A, id) {
      AnchorsOffersRecords(store, cfg, linked, e, Take(store.entityAnchors(e.id), cfg.maxAnchors), id);
    } else {
      assert after.A[id] == linked.A[id];
      LinkOffersRecords(cfg, marked, e, related, id);
    }
  }

  /** Entry `m` of `s` was expanded and `t` is a link or anchor hop from it to `id`. */
  ghost predicate StepHop(store: Store, cfg: SpreadingConfig, useAnchors: bool, s: SearchState, m: nat, id: string, t: Trace)
  {
    m < |s.Q| && Expands(cfg, s, m)
    && (LinkHopFrom(store, cfg, s.Q[m], id, t)
        || (useAnchors && AnchorHopFrom(store, cfg, Take(store.entityAnchors(s.Q[m].id), cfg.maxAnchors), s.Q[m], id, t)))
  }

  /** Every trace recorded along a run is a source's initial trace or the hop of an
      entry some earlier step expanded. */
  lemma {:induction false} RunRecords(store: Store, cfg: SpreadingConfig, useAnchors: bool, sources: seq<(string, real)>,
                                      run: seq<SearchState>, picks: seq<nat>, j: nat, id: string)
    requires IsRun(store, cfg, useAnchors, sources, run, picks) && j < |run| && id in run[j].A
    ensures (id in InitialTraces(sources) && run[j].A[id] == InitialTraces(sources)[id])
            || exists i :: 0 <= i < j && StepHop(store, cfg, useAnchors, run[i], picks[i], id, run[j].A[id])
  {
    if j > 0 {
      if Changed(run[j - 1].A, run[j].A, id) {
        StepRecords(store, cfg, useAnchors, run[j - 1], picks[j - 1], id);
        assert StepHop(store, cfg, useAnchors, run[j - 1], picks[j - 1], id, run[j].A[id]);
      } else {
        RunRecords(store, cfg, useAnchors, sources, run, picks, j - 1, id);
      }
    }
  }

  /** The result built for a recorded entity that has a profile. */
  function ResultOf(store: Store, A: map<string, Trace>, id: string): ActivationResult
    requires id in A && id in store.entities
  {
    ActivationResult(store.entities[id], A[id].activation, A[id].path, A[id].relations, A[id].banks)
  }

  /** The sort key of the results. */
  function ActivationOf(r: ActivationResult): real
  {
    r.activation
  }

  /** The unsorted result list: the recorded entities in insertion order, without
      the sources and without ids that have no profile. */
  function Candidates(store: Store, src: set<string>, A: map<string, Trace>, ids: seq<string>): seq<ActivationResult>
    requires forall id :: id in ids ==> id in A
  {
    if ids == [] then []
    else
      var id := ids[|ids| - 1];
      var rest := Candidates(store, src, A, ids[..|ids| - 1]);
      if id !in src && id in store.entities then rest + [ResultOf(store, A, id)] else rest
  }

  /** Every candidate is the result of a non-source id of the list. */
  lemma {:induction false} CandidateSound(store: Store, src: set<string>, A: map<string, Trace>, ids: seq<string>, k: nat)
    requires forall id :: id in ids ==> id in A
    requires k < |Candidates(store, src, A, ids)|
    ensures exists j :: 0 <= j < |ids| && ids[j] !in src && ids[j] in store.entities
                        && Candidates(store, src, A, ids)[k] == ResultOf(store, A, ids[j])
  {
    var init := ids[..|ids| - 1];
    var rest := Candidates(store, src, A, init);
    if k < |rest| {
      CandidateSound(store, src, A, init, k);
      var j :| 0 <= j < |init| && init[j] !in src && init[j] in store.entities
               && rest[k] == ResultOf(store, A, init[j]);
      assert ids[j] == init[j];
    } else {
      assert ids[|ids| - 1] !in src;
    }
  }

  /** Every non-source id of the list that has a profile yields a candidate. */
  lemma {:induction false} CandidateComplete(store: Store, src: set<string>, A: map<string, Trace>, ids: seq<string>, id: string)
    requires forall x :: x in ids ==> x in A
    requires id in ids && id !in src && id in store.entities
    ensures ResultOf(store, A, id) in Candidates(store, src, A, ids)
  {
    var init := ids[..|ids| - 1];
    if id != ids[|ids| - 1] {
      assert id in init;
      CandidateComplete(store, src, A, init, id);
    }
  }

  /** Distinct ids give candidates for distinct entities. */
  lemma {:induction false} CandidatesDistinct(store: Store, src: set<string>, A: map<string, Trace>, ids: seq<string>)
    requires store.Valid()
    requires forall id :: id in ids ==> id in A
    requires Distinct(ids)
    ensures forall i, j :: 0 <= i < j < |Candidates(store, src, A, ids)| ==>
              Candidates(store, src, A, ids)[i].entity.entity.id != Candidates(store, src, A, ids)[j].entity.entity.id
  {
    if ids != [] {
      var init := ids[..|ids| - 1];
      var last := ids[|ids| - 1];
      CandidatesDistinct(store, src, A, init);
      var rest := Candidates(store, src, A, init);
      var c := Candidates(store, src, A, ids);
      if last !in src && last in store.entities {
        forall i | 0 <= i < |rest|
          ensures rest[i].entity.entity.id != last
        {
          CandidateSound(store, src, A, init, i);
          var j :| 0 <= j < |init| && init[j] !in src && init[j] in store.entities
                   && rest[i] == ResultOf(store, A, init[j]);
          assert init[j] == ids[j];
        }
        forall i, j | 0 <= i < j < |c|
          ensures c[i].entity.entity.id != c[j].entity.entity.id
        {
          if j == |c| - 1 {
            assert c[i] == rest[i];
          } else {
            assert c[i] == rest[i] && c[j] == rest[j];
          }
        }
      }
    }
  }

  /** What the result list of a search promises about the final activation map:
      no source, ordered by non-increasing activation, at most `maxResults` long,
      one element per entity, each element the recorded state of its entity, and
      an entity left out only when the list is full of entities at least as active. */
  ghost predicate ResultsOk(store: Store, src: set<string>, A: map<string, Trace>, maxResults: nat,
                            results: seq<ActivationResult>)
  {
    (forall k :: 0 <= k < |results| ==> results[k].entity.entity.id !in src)
    && SortedDesc(results, ActivationOf)
    && |results| <= maxResults
    && (forall i, j :: 0 <= i < j < |results| ==> results[i].entity.entity.id != results[j].entity.entity.id)
    && (forall k :: 0 <= k < |results| ==>
          results[k].entity.entity.id in A && results[k].entity.entity.id in store.entities
          && results[k] == ResultOf(store, A, results[k].entity.entity.id))
    && (forall id :: id in A && id !in src && id in store.entities && ResultOf(store, A, id) !in results ==>
          |results| == maxResults && forall k :: 0 <= k < |results| ==> results[k].activation >= A[id].activation)
  }

  /** The selection: the candidates sorted by activation, cut to `maxResults`. */
  function Selection(store: Store, src: set<string>, A: map<string, Trace>, order: seq<string>, maxResults: nat)
    : seq<ActivationResult>
    requires forall id :: id in order ==> id in A
  {
    Take(SortedByKey(Candidates(store, src, A, order), ActivationOf), maxResults)
  }

  /** Sorting the candidates and keeping the first `maxResults` meets every
      promise of the result list. */
  lemma SelectionOk(store: Store, src: set<string>, A: map<string, Trace>, order: seq<string>, maxResults: nat)
    requires store.Valid() && Distinct(order) && (forall id :: id in A <==> id in order)
    ensures ResultsOk(store, src, A, maxResults, Selection(store, src, A, order, maxResults))
  {
    var cands := Candidates(store, src, A, order);
    var sorted := SortedByKey(cands, ActivationOf);
    var results := Take(sorted, maxResults);
    SelectionMembers(store, src, A, order, maxResults);
    SelectionDistinct(store, src, A, order, maxResults);
    SelectionComplete(store, src, A, order, maxResults);
    assert SortedDesc(results, ActivationOf) by {
      forall i, j | 0 <= i < j < |results|
        ensures results[i].activation >= results[j].activation
      {
        assert results[i] == sorted[i] && results[j] == sorted[j];
      }
    }
  }

  lemma SelectionMembers(store: Store, src: set<string>, A: map<string, Trace>, order: seq<string>, maxResults: nat)
    requires store.Valid() && (forall id :: id in A <==> id in order)
    ensures var results := Selection(store, src, A, order, maxResults);
      forall k :: 0 <= k < |results| ==>
        results[k].entity.entity.id !in src && results[k].entity.entity.id in A
        && results[k].entity.entity.id in store.entities
        && results[k] == ResultOf(store, A, results[k].entity.entity.id)
  {
    var cands := Candidates(store, src, A, order);
    var sorted := SortedByKey(cands, ActivationOf);
    var results := Take(sorted, maxResults);
    forall k | 0 <= k < |results|
      ensures results[k].entity.entity.id !in src && results[k].entity.entity.id in A
              && results[k].entity.entity.id in store.entities
              && results[k] == ResultOf(store, A, results[k].entity.entity.id)
    {
      assert results[k] == sorted[k];
      assert sorted[k] in multiset(cands);
      var i :| 0 <= i < |cands| && cands[i] == sorted[k];
      CandidateSound(store, src, A, order, i);
    }
  }

  lemma SelectionDistinct(store: Store, src: set<string>, A: map<string, Trace>, order: seq<string>, maxResults: nat)
    requires store.Valid() && Distinct(order) && (forall id :: id in A <==> id in order)
    ensures var results := Selection(store, src, A, order, maxResults);
      forall i, j :: 0 <= i < j < |results| ==> results[i].entity.entity.id != results[j].entity.entity.id
  {
    var cands := Candidates(store, src, A, order);
    var sorted := SortedByKey(cands, ActivationOf);
    var results := Take(sorted, maxResults);
    CandidatesDistinct(store, src, A, order);
    PermutationKeepsDistinct(cands, sorted, (r: ActivationResult) => r.entity.entity.id);
    forall i, j | 0 <= i < j < |results|
      ensures results[i].entity.entity.id != results[j].entity.entity.id
    {
      assert results[i] == sorted[i] && results[j] == sorted[j];
    }
  }

  lemma SelectionComplete(store: Store, src: set<string>, A: map<string, Trace>, order: seq<string>, maxResults: nat)
    requires forall id :: id in A <==> id in order
    ensures var results := Selection(store, src, A, order, maxResults);
      forall id :: id in A && id !in src && id in store.entities && ResultOf(store, A, id) !in results ==>
        |results| == maxResults && forall k :: 0 <= k < |results| ==> results[k].activation >= A[id].activation
  {
    var cands := Candidates(store, src, A, order);
    var sorted := SortedByKey(cands, ActivationOf);
    var results := Take(sorted, maxResults);
    forall id | id in A && id !in src && id in store.entities && ResultOf(store, A, id) !in results
      ensures |results| == maxResults && forall k :: 0 <= k < |results| ==> results[k].activation >= A[id].activation
    {
      CandidateComplete(store, src, A, order, id);
      assert ResultOf(store, A, id) in multiset(sorted);
      var j :| 0 <= j < |sorted| && sorted[j] == ResultOf(store, A, id);
      forall k | 0 <= k < |results|
        ensures results[k].activation >= A[id].activation
      {
        assert results[k] == sorted[k];
      }
    }
  }

  /** Builds, sorts and truncates the result list, as the end of `spread_multiple`
      does. */
  method CollectResults(store: Store, cfg: SpreadingConfig, sources: seq<(string, real)>,
                        A: map<string, Trace>, order: seq<string>)
    returns (results: seq<ActivationResult>)
    requires store.Valid() && Distinct(order) && (forall id :: id in A <==> id in order)
    ensures results == Selection(store, SourceIds(sources), A, order, cfg.maxResults)
    ensures ResultsOk(store, SourceIds(sources), A, cfg.maxResults, results)
  {
    var src := SourceIds(sources);
    var cands := [];
    for i := 0 to |order|
      invariant cands == Candidates(store, src, A, order[..i])
    {
      assert order[..i + 1][..i] == order[..i];
      var id := order[i];
      if id !in src {
        var profile := store.Get(id);
        if profile.Some? {
          var t := A[id];
          cands := cands + [ActivationResult(profile.value, t.activation, t.path, t.relations, t.banks)];
        }
      }
    }
    assert order[..|order|] == order;
    var sorted := SortDesc(cands, ActivationOf);
    results := Take(sorted, cfg.maxResults);
    SelectionOk(store, src, A, order, cfg.maxResults);
  }

  /** `results` is what `spread_multiple` returns: the selection from the final
      state of a run of the loop from the sources, a run that went on while the
      queue was non-empty and fewer than `2 * max_results` ids were popped. Which
      run it is depends only on the order among entries of equal activation. The
      invariant of the search holds of that final state. */
  ghost predicate SpreadOutput(store: Store, cfg: SpreadingConfig, useAnchors: bool, sources: seq<(string, real)>,
                               results: seq<ActivationResult>)
  {
    exists run: seq<SearchState>, picks: seq<nat> ::
      IsRun(store, cfg, useAnchors, sources, run, picks) && !Running(cfg, run[|run| - 1])
      && SearchOk(store, cfg, SourceIds(sources), InitialTraces(sources), run[|run| - 1])
      && results == Selection(store, SourceIds(sources), run[|run| - 1].A, run[|run| - 1].order, cfg.maxResults)
  }

  /** `spread_multiple(sources, use_anchors)`; `None` defers to the configuration. */
  method SpreadMultiple(store: Store, cfg: SpreadingConfig, sources: seq<(string, real)>, useAnchors: Option<bool>)
    returns (results: seq<ActivationResult>)
    requires store.Valid() && DistinctIds(sources)
    ensures SpreadOutput(store, cfg, if useAnchors.Some? then useAnchors.value else cfg.useAnchors, sources, results)
    ensures forall k :: 0 <= k < |results| ==> results[k].entity.entity.id !in SourceIds(sources)
    ensures SortedDesc(results, ActivationOf) && |results| <= cfg.maxResults
    ensures forall i, j :: 0 <= i < j < |results| ==> results[i].entity.entity.id != results[j].entity.entity.id
  {
    var anchors := if useAnchors.Some? then useAnchors.value else cfg.useAnchors;
    var s, run, picks, _ := Propagate(store, cfg, sources, anchors);
    results := CollectResults(store, cfg, sources, s.A, s.order);
  }

  /** `spread(source_id, initial_activation, use_anchors)`. */
  method Spread(store: Store, cfg: SpreadingConfig, sourceId: string, initialActivation: real, useAnchors: Option<bool>)
    returns (results: seq<ActivationResult>)
    requires store.Valid()
    ensures SpreadOutput(store, cfg, if useAnchors.Some? then useAnchors.value else cfg.useAnchors,
                         [(sourceId, initialActivation)], results)
    ensures forall k :: 0 <= k < |results| ==> results[k].entity.entity.id != sourceId
    ensures SortedDesc(results, ActivationOf) && |results| <= cfg.maxResults
  {
    results := SpreadMultiple(store, cfg, [(sourceId, initialActivation)], useAnchors);
    SingleSource(sourceId, initialActivation);
  }

  lemma SingleSource(id: string, activation: real)
    ensures SourceIds([(id, activation)]) == {id}
  {
    assert (id, activation) in [(id, activation)];
  }

  /** The run a spread output comes from, and its final state. */
  lemma FinalState(store: Store, cfg: SpreadingConfig, useAnchors: bool, sources: seq<(string, real)>,
                   results: seq<ActivationResult>)
    returns (run: seq<SearchState>, picks: seq<nat>, s: SearchState)
    requires SpreadOutput(store, cfg, useAnchors, sources, results)
    ensures IsRun(store, cfg, useAnchors, sources, run, picks) && s == run[|run| - 1]
    ensures SearchOk(store, cfg, SourceIds(sources), InitialTraces(sources), s) && !Running(cfg, s)
    ensures results == Selection(store, SourceIds(sources), s.A, s.order, cfg.maxResults)
  {
    run, picks :|
      IsRun(store, cfg, useAnchors, sources, run, picks) && !Running(cfg, run[|run| - 1])
      && SearchOk(store, cfg, SourceIds(sources), InitialTraces(sources), run[|run| - 1])
      && results == Selection(store, SourceIds(sources), run[|run| - 1].A, run[|run| - 1].order, cfg.maxResults);
    s := run[|run| - 1];
  }

  /** Every element of a spread result reached its entity from a source by at most
      `maxDepth` hops, each along a link tuple or a shared anchor the search
      follows, with an activation of at least the threshold. */
  lemma SpreadOutputPaths(store: Store, cfg: SpreadingConfig, useAnchors: bool, sources: seq<(string, real)>,
                          results: seq<ActivationResult>, k: nat)
    requires store.Valid() && SpreadOutput(store, cfg, useAnchors, sources, results)
    requires k < |results|
    ensures results[k].activation >= cfg.threshold
    ensures PathOk(cfg, SourceIds(sources), results[k].entity.entity.id, results[k].path, results[k].relations)
    ensures HopsOk(store, cfg, results[k].path, results[k].relations)
    ensures |results[k].relations| >= 1
  {
    var s := FinalSelection(store, cfg, useAnchors, sources, results);
    SelectedTraceOk(store, cfg, SourceIds(sources), s.A, s.order, cfg.maxResults, k);
  }

  /** Every selected result carries the well-formed trace of a non-source. */
  lemma SelectedTraceOk(store: Store, cfg: SpreadingConfig, src: set<string>, A: map<string, Trace>, order: seq<string>,
                        maxResults: nat, k: nat)
    requires store.Valid() && StateOk(store, cfg, src, A, order)
    requires k < |Selection(store, src, A, order, maxResults)|
    ensures var r := Selection(store, src, A, order, maxResults)[k];
      TraceOk(store, cfg, src, r.entity.entity.id, Trace(r.activation, r.path, r.relations, r.banks))
      && r.entity.entity.id !in src
  {
    SelectionOk(store, src, A, order, maxResults);
    var r := Selection(store, src, A, order, maxResults)[k];
    assert r == ResultOf(store, A, r.entity.entity.id);
    assert Trace(r.activation, r.path, r.relations, r.banks) == A[r.entity.entity.id];
  }

  /** The final state a spread output is selected from is well-formed. */
  lemma FinalSelection(store: Store, cfg: SpreadingConfig, useAnchors: bool, sources: seq<(string, real)>,
                       results: seq<ActivationResult>)
    returns (s: SearchState)
    requires SpreadOutput(store, cfg, useAnchors, sources, results)
    ensures StateOk(store, cfg, SourceIds(sources), s.A, s.order)
    ensures results == Selection(store, SourceIds(sources), s.A, s.order, cfg.maxResults)
  {
    var run, picks;
    run, picks, s := FinalState(store, cfg, useAnchors, sources, results);
  }

  /** Only sources are recorded before the first step. */
  lemma {:induction false} InitialTracesSources(sources: seq<(string, real)>, id: string)
    requires id in InitialTraces(sources)
    ensures id in SourceIds(sources)
  {
    var init := sources[..|sources| - 1];
    if id != sources[|sources| - 1].0 {
      InitialTracesSources(init, id);
      var p :| p in init && p.0 == id;
      assert p in sources;
    } else {
      assert sources[|sources| - 1] in sources;
    }
  }

  /** Every element of a spread result holds the trace of a hop: a link hop or,
      with anchors on, an anchor hop from an entry the search expanded (one below
      the depth limit and at or above the threshold). */
  lemma SpreadOutputHop(store: Store, cfg: SpreadingConfig, useAnchors: bool, sources: seq<(string, real)>,
                        results: seq<ActivationResult>, k: nat)
    requires store.Valid() && SpreadOutput(store, cfg, useAnchors, sources, results)
    requires k < |results|
    ensures var r := results[k];
      var t := Trace(r.activation, r.path, r.relations, r.banks);
      exists e: Entry :: e.depth < cfg.maxDepth && e.activation >= cfg.threshold
        && (LinkHopFrom(store, cfg, e, r.entity.entity.id, t)
            || (useAnchors && AnchorHopFrom(store, cfg, Take(store.entityAnchors(e.id), cfg.maxAnchors), e, r.entity.entity.id, t)))
  {
    var run, picks, s := FinalState(store, cfg, useAnchors, sources, results);
    SelectionOk(store, SourceIds(sources), s.A, s.order, cfg.maxResults);
    var r := results[k];
    var id := r.entity.entity.id;
    assert r == ResultOf(store, s.A, id) && id !in SourceIds(sources);
    RunRecords(store, cfg, useAnchors, sources, run, picks, |run| - 1, id);
    if id in InitialTraces(sources) {
      InitialTracesSources(sources, id);
    }
    var i :| 0 <= i < |run| - 1 && StepHop(store, cfg, useAnchors, run[i], picks[i], id, s.A[id]);
    var t := Trace(r.activation, r.path, r.relations, r.banks);
    assert t == s.A[id];
    HopOfStep(store, cfg, useAnchors, run[i], picks[i], id, t);
  }

  /** The hop a step records comes from an entry below the depth limit and at or
      above the threshold. */
  lemma HopOfStep(store: Store, cfg: SpreadingConfig, useAnchors: bool, s: SearchState, m: nat, id: string, t: Trace)
    requires StepHop(store, cfg, useAnchors, s, m, id, t)
    ensures exists e: Entry ::
              e.depth < cfg.maxDepth && e.activation >= cfg.threshold
              && (LinkHopFrom(store, cfg, e, id, t)
                  || (useAnchors && AnchorHopFrom(store, cfg, Take(store.entityAnchors(e.id), cfg.maxAnchors), e, id, t)))
  {
    var e := s.Q[m];
    assert e.depth < cfg.maxDepth && e.activation >= cfg.threshold;
  }

  /** The entry a single source is queued with. */
  function SourceEntry(source: string, activation: real): Entry
  {
    Entry(activation, 0, source, [source], [], ZeroBanks)
  }

  /** The first step from a single source at or above the threshold expands it,
      and every outgoing tuple that passes on at least the threshold leaves its
      entity with at least that activation. */
  lemma FirstStepReaches(store: Store, cfg: SpreadingConfig, useAnchors: bool, source: string, activation: real, x: Related)
    requires activation >= cfg.threshold && cfg.maxDepth >= 1
    requires x in store.GetRelated(source, Outgoing, 20)
    requires LinkActivation(cfg, SourceEntry(source, activation), x) >= cfg.threshold
    ensures InitialState([(source, activation)]).Q == [SourceEntry(source, activation)]
    ensures InitialState([(source, activation)]).visited == {}
    ensures var first := StepNext(store, cfg, useAnchors, InitialState([(source, activation)]), 0);
      x.profile.entity.id in first.A
      && first.A[x.profile.entity.id].activation >= LinkActivation(cfg, SourceEntry(source, activation), x)
  {
    var sources := [(source, activation)];
    var e := SourceEntry(source, activation);
    assert sources[..0] == [] && sources[|sources| - 1] == (source, activation);
    assert InitialQueue(sources) == InitialQueue(sources[..0]) + [e];
    var s0 := InitialState(sources);
    assert s0.Q == [e] && s0.visited == {};
    var related := store.GetRelated(source, Outgoing, 20);
    assert s0.Q[0] == e;
    var marked := s0.(Q := s0.Q[..0] + s0.Q[1..]).(visited := s0.visited + {s0.Q[0].id});
    var linked := LinkOffers(cfg, marked, e, related);
    assert Expands(cfg, s0, 0);
    assert StepNext(store, cfg, useAnchors, s0, 0) == Expand(store, cfg, useAnchors, marked, e);
    LinkOffersDominates(cfg, marked, e, related);
    if useAnchors {
      AnchorsOffersDominates(store, cfg, linked, e, Take(store.entityAnchors(source), cfg.maxAnchors));
    }
  }

  /** From a single source at or above the threshold, with at least one hop and
      one result allowed, the entity of every one of the first 20 outgoing link
      tuples that passes on at least the threshold is reported, unless the list is
      full of entities at least as active. */
  lemma DirectNeighborReported(store: Store, cfg: SpreadingConfig, useAnchors: bool, source: string, activation: real,
                               results: seq<ActivationResult>, x: Related)
    requires store.Valid() && SpreadOutput(store, cfg, useAnchors, [(source, activation)], results)
    requires activation >= cfg.threshold && cfg.maxDepth >= 1 && cfg.maxResults >= 1
    requires x in store.GetRelated(source, Outgoing, 20) && x.profile.entity.id != source
    requires LinkActivation(cfg, SourceEntry(source, activation), x) >= cfg.threshold
    ensures (exists k :: 0 <= k < |results| && results[k].entity.entity.id == x.profile.entity.id)
            || (|results| == cfg.maxResults
                && forall k :: 0 <= k < |results| ==> results[k].activation >= LinkActivation(cfg, SourceEntry(source, activation), x))
  {
    var run, picks, s := FinalState(store, cfg, useAnchors, [(source, activation)], results);
    NeighborReportedAtEnd(store, cfg, useAnchors, source, activation, results, x, run, picks, s);
  }

  /** `DirectNeighborReported` for the run the output comes from. */
  lemma NeighborReportedAtEnd(store: Store, cfg: SpreadingConfig, useAnchors: bool, source: string, activation: real,
                              results: seq<ActivationResult>, x: Related, run: seq<SearchState>, picks: seq<nat>,
                              s: SearchState)
    requires store.Valid() && IsRun(store, cfg, useAnchors, [(source, activation)], run, picks)
    requires s == run[|run| - 1] && !Running(cfg, s) && (forall id :: id in s.A <==> id in s.order)
    requires results == Selection(store, SourceIds([(source, activation)]), s.A, s.order, cfg.maxResults)
    requires activation >= cfg.threshold && cfg.maxDepth >= 1 && cfg.maxResults >= 1
    requires x in store.GetRelated(source, Outgoing, 20) && x.profile.entity.id != source
    requires LinkActivation(cfg, SourceEntry(source, activation), x) >= cfg.threshold
    ensures (exists k :: 0 <= k < |results| && results[k].entity.entity.id == x.profile.entity.id)
            || (|results| == cfg.maxResults
                && forall k :: 0 <= k < |results| ==> results[k].activation >= LinkActivation(cfg, SourceEntry(source, activation), x))
  {
    NeighborRecorded(store, cfg, useAnchors, source, activation, x, run, picks);
    SingleSource(source, activation);
    LinkedRow(store, source, x);
    ReportedOrFull(store, {source}, s.A, s.order, cfg.maxResults, x.profile.entity.id,
                   LinkActivation(cfg, SourceEntry(source, activation), x));
  }

  /** At the end of any run from a single source, the entity of a passing direct
      link tuple is recorded with at least the activation the tuple passes on. */
  lemma NeighborRecorded(store: Store, cfg: SpreadingConfig, useAnchors: bool, source: string, activation: real,
                         x: Related, run: seq<SearchState>, picks: seq<nat>)
    requires IsRun(store, cfg, useAnchors, [(source, activation)], run, picks) && !Running(cfg, run[|run| - 1])
    requires activation >= cfg.threshold && cfg.maxDepth >= 1 && cfg.maxResults >= 1
    requires x in store.GetRelated(source, Outgoing, 20)
    requires LinkActivation(cfg, SourceEntry(source, activation), x) >= cfg.threshold
    ensures x.profile.entity.id in run[|run| - 1].A
    ensures run[|run| - 1].A[x.profile.entity.id].activation >= LinkActivation(cfg, SourceEntry(source, activation), x)
  {
    FirstStepReaches(store, cfg, useAnchors, source, activation, x);
    RunStarted(store, cfg, useAnchors, [(source, activation)], run, picks);
    assert IsMaxAt(run[0].Q, picks[0]);
    RunDominates(store, cfg, useAnchors, [(source, activation)], run, picks, 1, |run| - 1);
  }

  /** A run whose first state satisfies the loop condition and whose last does not
      took at least one step. */
  lemma RunStarted(store: Store, cfg: SpreadingConfig, useAnchors: bool, sources: seq<(string, real)>,
                   run: seq<SearchState>, picks: seq<nat>)
    requires IsRun(store, cfg, useAnchors, sources, run, picks)
    requires Running(cfg, run[0]) && !Running(cfg, run[|run| - 1])
    ensures |picks| >= 1
  {
  }

  /** An entity recorded with at least `act` that is not a source and has a
      profile is in the selection, or the selection is full of entities at least
      `act` active. */
  lemma ReportedOrFull(store: Store, src: set<string>, A: map<string, Trace>, order: seq<string>, maxResults: nat,
                       id: string, act: real)
    requires store.Valid() && (forall x :: x in A <==> x in order)
    requires id in A && A[id].activation >= act && id !in src && id in store.entities
    ensures var results := Selection(store, src, A, order, maxResults);
      (exists k :: 0 <= k < |results| && results[k].entity.entity.id == id)
      || (|results| == maxResults && forall k :: 0 <= k < |results| ==> results[k].activation >= act)
  {
    var results := Selection(store, src, A, order, maxResults);
    SelectionComplete(store, src, A, order, maxResults);
    if ResultOf(store, A, id) in results {
      var k :| 0 <= k < |results| && results[k] == ResultOf(store, A, id);
      assert results[k].entity.entity.id == id;
    }
  }

  /** `[r.entity for r in results if r.activation >= threshold]`. */
  function EntitiesAbove(results: seq<ActivationResult>, threshold: real): (r: seq<EntityProfile>)
    ensures |r| <= |results|
    ensures forall k :: 0 <= k < |r| ==>
              exists j :: 0 <= j < |results| && results[j].entity == r[k] && results[j].activation >= threshold
    ensures forall j :: 0 <= j < |results| && results[j].activation >= threshold ==> results[j].entity in r
  {
    FilterMap(results, (x: ActivationResult) => x.activation >= threshold, (x: ActivationResult) => x.entity)
  }

  /** The sources of `context_entities`, the dict `{eid: 1.0 for eid in entity_ids}`:
      each id once, at its first place, with activation 1.0. */
  function EqualSources(entityIds: seq<string>): (s: seq<(string, real)>)
    ensures SourceIds(s) == set id | id in entityIds
    ensures DistinctIds(s)
    ensures forall k :: 0 <= k < |s| ==> s[k].1 == 1.0
  {
    if entityIds == [] then []
    else
      var init := entityIds[..|entityIds| - 1];
      var id := entityIds[|entityIds| - 1];
      var s := EqualSources(init);
      assert entityIds == init + [id];
      assert (set x | x in entityIds) == (set x | x in init) + {id};
      if id in init then s
      else
        var s' := s + [(id, 1.0)];
        assert forall k :: 0 <= k < |s| ==> s[k] in s && s'[k] == s[k];
        assert SourceIds(s') == SourceIds(s) + {id} by {
          assert s'[|s|] in s';
          forall x | x in SourceIds(s')
            ensures x in SourceIds(s) + {id}
          {
            var p :| p in s' && p.0 == x;
            var k :| 0 <= k < |s'| && s'[k] == p;
          }
        }
        s'
  }

  /** `EqualSources` keeps the order of first occurrences: a later source first
      occurs in the ids after an earlier one has occurred. */
  lemma {:induction false} EqualSourcesOrder(entityIds: seq<string>, k1: nat, k2: nat)
    requires k1 < k2 < |EqualSources(entityIds)|
    ensures exists j ::
              0 <= j < |entityIds| && entityIds[j] == EqualSources(entityIds)[k2].0
              && EqualSources(entityIds)[k1].0 in entityIds[..j] && EqualSources(entityIds)[k2].0 !in entityIds[..j]
  {
    var init := entityIds[..|entityIds| - 1];
    var id := entityIds[|entityIds| - 1];
    var s := EqualSources(init);
    assert entityIds == init + [id];
    if id in init || k2 < |s| {
      EqualSourcesOrder(init, k1, k2);
      var j :| 0 <= j < |init| && init[j] == s[k2].0 && s[k1].0 in init[..j] && s[k2].0 !in init[..j];
      assert entityIds[j] == init[j] && entityIds[..j] == init[..j];
    } else {
      var j := |entityIds| - 1;
      assert EqualSources(entityIds)[k2].0 == id && EqualSources(entityIds)[k1] == s[k1];
      assert s[k1] in s;
      assert s[k1].0 in SourceIds(s);
      assert entityIds[..j] == init;
    }
  }

  /** `context_entities(entity_ids, threshold, use_anchors)`: the profiles of the
      spread results, from all ids at activation 1.0, whose activation reaches
      `threshold`. */
  method ContextEntities(store: Store, cfg: SpreadingConfig, entityIds: seq<string>, threshold: real, useAnchors: bool)
    returns (profiles: seq<EntityProfile>, ghost results: seq<ActivationResult>)
    requires store.Valid()
    ensures SpreadOutput(store, cfg, useAnchors, EqualSources(entityIds), results)
    ensures profiles == EntitiesAbove(results, threshold)
    ensures |profiles| <= cfg.maxResults
    ensures forall k :: 0 <= k < |profiles| ==> profiles[k].entity.id !in entityIds
  {
    var rs := SpreadMultiple(store, cfg, EqualSources(entityIds), Some(useAnchors));
    results := rs;
    profiles := EntitiesAbove(rs, threshold);
  }

  /** One `(profile, anchor_label, activation)` tuple of `get_anchor_neighbors`. */
  datatype Neighbor = Neighbor(profile: EntityProfile, anchorLabel: string, activation: real)

  function NeighborActivation(n: Neighbor): real
  {
    n.activation
  }

  /** `if category and anchor_category != category: continue` lets the anchor through. */
  predicate CategoryPasses(category: Option<string>, anchorCategory: Option<string>)
  {
    category == None || category == Some("") || anchorCategory == category
  }

  /** `n` is a member, other than `entityId`, of an anchor of `entityId` that passes
      the category filter, with activation `anchor_weight * rel_weight`. */
  ghost predicate NeighborFrom(store: Store, entityId: string, category: Option<string>, n: Neighbor)
  {
    exists a :: a in store.entityAnchors(entityId) && CategoryPasses(category, a.category)
      && n.anchorLabel == a.anchorLabel
      && exists m :: m in store.entitiesWithAnchor(a.anchorId, 10)
           && m.entityId != entityId && m.entityId in store.entities
           && n.profile == store.entities[m.entityId] && n.activation == a.weight * m.weight
  }

  /** Some element of the list is about entity `id`. */
  ghost predicate Listed(results: seq<Neighbor>, id: string)
  {
    exists k :: 0 <= k < |results| && results[k].profile.entity.id == id
  }

  /** Appending keeps every listed entity listed, and lists the appended one. */
  lemma ListedSnoc(results: seq<Neighbor>, n: Neighbor)
    ensures forall id :: Listed(results, id) ==> Listed(results + [n], id)
    ensures Listed(results + [n], n.profile.entity.id)
  {
    var r := results + [n];
    assert r[|results|] == n;
    forall id | Listed(results, id)
      ensures Listed(r, id)
    {
      var k :| 0 <= k < |results| && results[k].profile.entity.id == id;
      assert r[k] == results[k];
    }
  }

  /** Every member of the anchor other than the query entity is in `seen`. */
  ghost predicate AnchorCovered(store: Store, entityId: string, anchor: AnchorRef, seen: set<string>)
  {
    forall m :: m in store.entitiesWithAnchor(anchor.anchorId, 10) && m.entityId != entityId ==> m.entityId in seen
  }

  /** The unsorted neighbour list and the `seen` set of `get_anchor_neighbors`:
      every listed entity is seen, the query entity never is, every seen entity
      with a profile is listed, each entity is listed once and each element comes
      from a passing anchor of the query entity. */
  ghost predicate NeighborsOk(store: Store, entityId: string, category: Option<string>,
                              results: seq<Neighbor>, seen: set<string>)
  {
    entityId !in seen
    && (forall k :: 0 <= k < |results| ==> results[k].profile.entity.id in seen)
    && (forall id :: id in seen && id in store.entities ==> Listed(results, id))
    && (forall k :: 0 <= k < |results| ==> NeighborFrom(store, entityId, category, results[k]))
    && (forall a, b :: 0 <= a < b < |results| ==> results[a].profile.entity.id != results[b].profile.entity.id)
  }

  /** The list and the `seen` set after the members of one anchor, in order: a
      member other than the query entity and not seen before is marked seen, and
      listed with activation `anchor_weight * rel_weight` when it has a profile. */
  function ScanMembers(store: Store, entityId: string, anchor: AnchorRef, members: seq<Member>,
                       results: seq<Neighbor>, seen: set<string>): (seq<Neighbor>, set<string>)
  {
    if members == [] then (results, seen)
    else
      var (rs, sn) := ScanMembers(store, entityId, anchor, members[..|members| - 1], results, seen);
      ScanMember(store, entityId, anchor, members[|members| - 1], rs, sn)
  }

  /** One member of the inner loop. */
  function ScanMember(store: Store, entityId: string, anchor: AnchorRef, m: Member,
                      results: seq<Neighbor>, seen: set<string>): (seq<Neighbor>, set<string>)
  {
    if m.entityId == entityId || m.entityId in seen then (results, seen)
    else
      var profile := store.Get(m.entityId);
      if profile.Some? then (results + [Neighbor(profile.value, anchor.anchorLabel, anchor.weight * m.weight)], seen + {m.entityId})
      else (results, seen + {m.entityId})
  }

  /** A new member with a profile is appended to the list. */
  lemma ScanMemberAdds(store: Store, entityId: string, anchor: AnchorRef, m: Member,
                       results: seq<Neighbor>, seen: set<string>)
    requires m.entityId != entityId && m.entityId !in seen && m.entityId in store.entities
    ensures ScanMember(store, entityId, anchor, m, results, seen)
            == (results + [Neighbor(store.entities[m.entityId], anchor.anchorLabel, anchor.weight * m.weight)],
                seen + {m.entityId})
  {
    var n := Neighbor(store.entities[m.entityId], anchor.anchorLabel, anchor.weight * m.weight);
    var x := ScanMember(store, entityId, anchor, m, results, seen);
    assert |x.0| == |results| + 1 && x.0[|results|] == n;
    assert forall k :: 0 <= k < |results| ==> x.0[k] == results[k];
    assert x.0 == results + [n];
  }

  /** One member keeps the invariant of the neighbour list. */
  lemma ScanMemberOk(store: Store, entityId: string, category: Option<string>, anchor: AnchorRef,
                     m: Member, results: seq<Neighbor>, seen: set<string>)
    requires store.Valid() && anchor in store.entityAnchors(entityId) && CategoryPasses(category, anchor.category)
    requires m in store.entitiesWithAnchor(anchor.anchorId, 10)
    requires NeighborsOk(store, entityId, category, results, seen)
    ensures var (rs, sn) := ScanMember(store, entityId, anchor, m, results, seen);
      NeighborsOk(store, entityId, category, rs, sn) && seen <= sn && (m.entityId != entityId ==> m.entityId in sn)
  {
    if m.entityId != entityId && m.entityId !in seen {
      if m.entityId in store.entities {
        var n := Neighbor(store.entities[m.entityId], anchor.anchorLabel, anchor.weight * m.weight);
        assert NeighborFrom(store, entityId, category, n);
        ScanMemberAdds(store, entityId, anchor, m, results, seen);
        AppendNeighborOk(store, entityId, category, results, seen, n);
      } else {
        SeeWithoutProfileOk(store, entityId, category, results, seen, m.entityId);
      }
    }
  }

  /** Listing a new neighbour and marking it seen keeps the invariant. */
  lemma AppendNeighborOk(store: Store, entityId: string, category: Option<string>,
                         results: seq<Neighbor>, seen: set<string>, n: Neighbor)
    requires NeighborsOk(store, entityId, category, results, seen)
    requires n.profile.entity.id != entityId && n.profile.entity.id !in seen
    requires NeighborFrom(store, entityId, category, n)
    ensures NeighborsOk(store, entityId, category, results + [n], seen + {n.profile.entity.id})
  {
    AppendFrom(store, entityId, category, results, n);
    AppendDistinct(results, seen, n);
    ListedSnoc(results, n);
  }

  /** Appending a neighbour that comes from a passing anchor keeps every element
      coming from one. */
  lemma AppendFrom(store: Store, entityId: string, category: Option<string>, results: seq<Neighbor>, n: Neighbor)
    requires forall k :: 0 <= k < |results| ==> NeighborFrom(store, entityId, category, results[k])
    requires NeighborFrom(store, entityId, category, n)
    ensures forall k :: 0 <= k < |results + [n]| ==> NeighborFrom(store, entityId, category, (results + [n])[k])
  {
    var rs := results + [n];
    forall k | 0 <= k < |rs|
      ensures NeighborFrom(store, entityId, category, rs[k])
    {
      if k < |results| {
        assert rs[k] == results[k];
      } else {
        assert rs[k] == n;
      }
    }
  }

  /** Appending a neighbour not seen before, and marking it seen, keeps the listed
      entities seen and distinct. */
  lemma AppendDistinct(results: seq<Neighbor>, seen: set<string>, n: Neighbor)
    requires forall k :: 0 <= k < |results| ==> results[k].profile.entity.id in seen
    requires forall a, b :: 0 <= a < b < |results| ==> results[a].profile.entity.id != results[b].profile.entity.id
    requires n.profile.entity.id !in seen
    ensures var rs := results + [n];
      (forall k :: 0 <= k < |rs| ==> rs[k].profile.entity.id in seen + {n.profile.entity.id})
      && (forall a, b :: 0 <= a < b < |rs| ==> rs[a].profile.entity.id != rs[b].profile.entity.id)
  {
    var rs := results + [n];
    forall a, b | 0 <= a < b < |rs|
      ensures rs[a].profile.entity.id != rs[b].profile.entity.id
    {
      assert rs[a] == results[a];
      if b < |results| {
        assert rs[b] == results[b];
      }
    }
  }

  /** Marking an entity without a profile seen keeps the invariant. */
  lemma SeeWithoutProfileOk(store: Store, entityId: string, category: Option<string>,
                            results: seq<Neighbor>, seen: set<string>, id: string)
    requires NeighborsOk(store, entityId, category, results, seen)
    requires id != entityId && id !in store.entities
    ensures NeighborsOk(store, entityId, category, results, seen + {id})
  {
  }

  /** The list and the `seen` set after the given anchors, in order: an anchor
      that passes the category filter contributes its first 10 members. */
  function ScanAnchors(store: Store, entityId: string, category: Option<string>, anchors: seq<AnchorRef>)
    : (seq<Neighbor>, set<string>)
  {
    if anchors == [] then ([], {})
    else
      var (rs, sn) := ScanAnchors(store, entityId, category, anchors[..|anchors| - 1]);
      var a := anchors[|anchors| - 1];
      if CategoryPasses(category, a.category)
      then ScanMembers(store, entityId, a, store.entitiesWithAnchor(a.anchorId, 10), rs, sn)
      else (rs, sn)
  }

  /** The list `get_anchor_neighbors` builds before sorting. */
  function NeighborList(store: Store, entityId: string, category: Option<string>): seq<Neighbor>
  {
    ScanAnchors(store, entityId, category, store.entityAnchors(entityId)).0
  }

  /** The inner loop over the members of one passing anchor: it computes
      `ScanMembers`, and afterwards every member other than the query entity is
      seen. */
  method AddMembers(store: Store, entityId: string, category: Option<string>, anchor: AnchorRef,
                    results: seq<Neighbor>, seen: set<string>)
    returns (results': seq<Neighbor>, seen': set<string>)
    requires store.Valid() && anchor in store.entityAnchors(entityId) && CategoryPasses(category, anchor.category)
    requires NeighborsOk(store, entityId, category, results, seen)
    ensures (results', seen') == ScanMembers(store, entityId, anchor, store.entitiesWithAnchor(anchor.anchorId, 10),
                                             results, seen)
    ensures NeighborsOk(store, entityId, category, results', seen')
    ensures seen <= seen'
    ensures AnchorCovered(store, entityId, anchor, seen')
  {
    results', seen' := results, seen;
    var related := store.entitiesWithAnchor(anchor.anchorId, 10);
    for j := 0 to |related|
      invariant (results', seen') == ScanMembers(store, entityId, anchor, related[..j], results, seen)
      invariant NeighborsOk(store, entityId, category, results', seen') && seen <= seen'
      invariant forall m :: m in related[..j] && m.entityId != entityId ==> m.entityId in seen'
    {
      assert related[..j + 1][..j] == related[..j];
      ScanMemberOk(store, entityId, category, anchor, related[j], results', seen');
      results', seen' := AddMember(store, entityId, anchor, related[j], results', seen');
    }
    assert related[..|related|] == related;
  }

  /** The body of the inner loop for one member: a member other than the query
      entity and not seen before is marked seen, and listed when it has a profile. */
  method AddMember(store: Store, entityId: string, anchor: AnchorRef, member: Member,
                   results: seq<Neighbor>, seen: set<string>)
    returns (results': seq<Neighbor>, seen': set<string>)
    ensures (results', seen') == ScanMember(store, entityId, anchor, member, results, seen)
  {
    results', seen' := results, seen;
    if member.entityId == entityId || member.entityId in seen {
      return;
    }
    if member.entityId in store.entities {
      ScanMemberAdds(store, entityId, anchor, member, results, seen);
    }
    seen' := seen' + {member.entityId};
    var profile := store.Get(member.entityId);
    if profile.Some? {
      results' := results' + [Neighbor(profile.value, anchor.anchorLabel, anchor.weight * member.weight)];
    }
  }

  /** `get_anchor_neighbors(entity_id, category, limit)`: the neighbour list sorted
      by descending activation and cut to `limit`. Every member with a profile,
      other than the query entity, of every anchor that passes the filter is
      listed, and a listed neighbour is left out only when the cut list is full of
      neighbours at least as active. */
  method GetAnchorNeighbors(store: Store, entityId: string, category: Option<string>, limit: nat)
    returns (r: seq<Neighbor>)
    requires store.Valid()
    ensures r == Take(SortedByKey(NeighborList(store, entityId, category), NeighborActivation), limit)
    ensures |r| <= limit
    ensures SortedDesc(r, NeighborActivation)
    ensures forall k :: 0 <= k < |r| ==> NeighborFrom(store, entityId, category, r[k])
    ensures forall k :: 0 <= k < |r| ==> r[k].profile.entity.id != entityId
    ensures forall i, j :: 0 <= i < j < |r| ==> r[i].profile.entity.id != r[j].profile.entity.id
    ensures forall a, m :: a in store.entityAnchors(entityId) && CategoryPasses(category, a.category)
              && m in store.entitiesWithAnchor(a.anchorId, 10) && m.entityId != entityId && m.entityId in store.entities
              ==> Listed(NeighborList(store, entityId, category), m.entityId)
    ensures forall n :: n in NeighborList(store, entityId, category) && n !in r ==>
              |r| == limit && forall k :: 0 <= k < |r| ==> r[k].activation >= n.activation
  {
    var results, _ := ScanAllAnchors(store, entityId, category);
    r := SortAndCut(store, entityId, category, results, limit);
    forall n | n in results && n !in r
      ensures |r| == limit && forall k :: 0 <= k < |r| ==> r[k].activation >= n.activation
    {
      TakeSortedComplete(results, limit, NeighborActivation, n);
    }
  }

  /** The outer loop of `get_anchor_neighbors`: it computes `NeighborList`, and
      every member with a profile of a passing anchor, other than the query entity,
      is listed. */
  method ScanAllAnchors(store: Store, entityId: string, category: Option<string>)
    returns (results: seq<Neighbor>, seen: set<string>)
    requires store.Valid()
    ensures results == NeighborList(store, entityId, category)
    ensures NeighborsOk(store, entityId, category, results, seen)
    ensures forall a, m :: a in store.entityAnchors(entityId) && CategoryPasses(category, a.category)
              && m in store.entitiesWithAnchor(a.anchorId, 10) && m.entityId != entityId && m.entityId in store.entities
              ==> Listed(results, m.entityId)
  {
    results, seen := [], {};
    var anchors := store.entityAnchors(entityId);
    for i := 0 to |anchors|
      invariant (results, seen) == ScanAnchors(store, entityId, category, anchors[..i])
      invariant NeighborsOk(store, entityId, category, results, seen)
      invariant forall a :: a in anchors[..i] && CategoryPasses(category, a.category) ==>
                  AnchorCovered(store, entityId, a, seen)
    {
      assert anchors[..i + 1][..i] == anchors[..i];
      if CategoryPasses(category, anchors[i].category) {
        ghost var before := seen;
        results, seen := AddMembers(store, entityId, category, anchors[i], results, seen);
        forall a | a in anchors[..i + 1] && CategoryPasses(category, a.category)
          ensures AnchorCovered(store, entityId, a, seen)
        {
          if a != anchors[i] {
            assert a in anchors[..i];
            assert AnchorCovered(store, entityId, a, before);
          }
        }
      }
    }
    assert anchors[..|anchors|] == anchors;
    forall a, m | a in anchors && CategoryPasses(category, a.category)
                  && m in store.entitiesWithAnchor(a.anchorId, 10) && m.entityId != entityId && m.entityId in store.entities
      ensures Listed(results, m.entityId)
    {
      assert AnchorCovered(store, entityId, a, seen);
    }
  }

  /** `results.sort(key=lambda x: -x[2])` followed by `results[:limit]`. */
  method SortAndCut(store: Store, entityId: string, category: Option<string>, results: seq<Neighbor>, limit: nat)
    returns (r: seq<Neighbor>)
    requires forall k :: 0 <= k < |results| ==> NeighborFrom(store, entityId, category, results[k])
    requires forall a, b :: 0 <= a < b < |results| ==> results[a].profile.entity.id != results[b].profile.entity.id
    ensures r == Take(SortedByKey(results, NeighborActivation), limit)
    ensures |r| <= limit
    ensures SortedDesc(r, NeighborActivation)
    ensures forall k :: 0 <= k < |r| ==> NeighborFrom(store, entityId, category, r[k])
    ensures forall i, j :: 0 <= i < j < |r| ==> r[i].profile.entity.id != r[j].profile.entity.id
  {
    var sorted := SortDesc(results, NeighborActivation);
    PermutationKeepsDistinct(results, sorted, (n: Neighbor) => n.profile.entity.id);
    PermutationKeepsAll(results, sorted, (n: Neighbor) => NeighborFrom(store, entityId, category, n));
    TakeKeeps(sorted, limit, NeighborActivation, (n: Neighbor) => n.profile.entity.id,
              (n: Neighbor) => NeighborFrom(store, entityId, category, n));
    r := Take(sorted, limit);
  }
}
