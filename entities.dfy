/** Value types of the grounding model (src/wiki_grounding/entity.py): the five
    dimensions, balanced-ternary EPA values, entities, positions in a dimension tree
    and the per-lookup entity profile. */
module Entities {
  import opened Base
  import opened Text

  /** The five hierarchical dimension trees. */
  datatype GroundingDimension = Spatial | Temporal | Taxonomic | Scale | Domain
  {
    /** The enum's string value. */
    function Name(): (r: string)
      ensures |r| >= 1 && forall k :: 0 <= k < |r| ==> 'A' <= r[k] <= 'Z'
    {
      match this
      case Spatial => "SPATIAL"
      case Temporal => "TEMPORAL"
      case Taxonomic => "TAXONOMIC"
      case Scale => "SCALE"
      case Domain => "DOMAIN"
    }
  }

  /** Balanced ternary value of an EPA axis. */
  datatype TernaryValue = Negative | Neutral | Positive
  {
    function Value(): (v: int)
      ensures -1 <= v <= 1
      ensures (v < 0 <==> this == Negative) && (v > 0 <==> this == Positive)
    {
      match this
      case Negative => -1
      case Neutral => 0
      case Positive => 1
    }
  }

  /** A stored entity; `name` holds the source's `label` field (`label` is a Dafny
      keyword). */
  datatype Entity = Entity(
    id: string,
    wikipediaTitle: string,
    name: string,
    description: Option<string>,
    vitalLevel: Option<int>,
    pagerank: Option<real>)

  /** The two shapes in which a caller may hand over the path nodes. */
  datatype PathNodes = ListOfNodes(items: seq<string>) | TupleOfNodes(items: seq<string>)

  /** Position of an entity in one dimension tree; `pathNodes` runs from the zero
      state to the entity. */
  datatype DimensionPosition = DimensionPosition(
    dimension: GroundingDimension,
    pathSign: int,
    pathDepth: int,
    pathNodes: seq<string>,
    zeroState: string)
  {
    /** The text before the first '/' of the formatted path: sign, depth, ':' and
        the dimension name. */
    function Header(): string
    {
      SignPrefix(pathSign) + IntToString(pathDepth) + ":" + dimension.Name()
    }

    /** Human-readable path notation, e.g. "+3:SPATIAL/Earth/Europe/France/Paris". */
    function Formatted(): string
    {
      Header() + "/" + Join(pathNodes, "/")
    }
  }

  function SignPrefix(sign: int): string
  {
    if sign > 0 then "+" else if sign < 0 then "-" else ""
  }

  /** Construction of a position, including the list-to-tuple normalisation of the
      path nodes. */
  function NewPosition(
    dimension: GroundingDimension, pathSign: int, pathDepth: int,
    nodes: PathNodes, zeroState: string): (p: DimensionPosition)
    ensures |p.pathNodes| == |nodes.items|
    ensures forall k :: 0 <= k < |nodes.items| ==> p.pathNodes[k] == nodes.items[k]
    ensures p.dimension == dimension && p.pathSign == pathSign && p.pathDepth == pathDepth
    ensures p.zeroState == zeroState
  {
    var stored := match nodes
      case ListOfNodes(xs) => xs
      case TupleOfNodes(xs) => xs;
    DimensionPosition(dimension, pathSign, pathDepth, stored, zeroState)
  }

  /** The header of a formatted path holds no '/'. */
  lemma HeaderHasNoSlash(p: DimensionPosition)
    ensures '/' !in p.Header()
  {
    var h := p.Header();
    var sign, digits, name := SignPrefix(p.pathSign), IntToString(p.pathDepth), p.dimension.Name();
    assert h == sign + digits + ":" + name;
    forall k | 0 <= k < |h|
      ensures h[k] != '/'
    {
      if k < |sign| {
      } else if k < |sign| + |digits| {
        assert h[k] == digits[k - |sign|];
      } else if k == |sign| + |digits| {
      } else {
        assert h[k] == name[k - |sign| - |digits| - 1];
      }
    }
  }

  /** Splitting a formatted path on '/' gives the header and then the path nodes,
      so the formatted string records the nodes in order. */
  lemma FormattedSplitsIntoNodes(p: DimensionPosition)
    requires |p.pathNodes| >= 1
    requires forall k :: 0 <= k < |p.pathNodes| ==> '/' !in p.pathNodes[k]
    ensures Split(p.Formatted(), '/') == [p.Header()] + p.pathNodes
  {
    HeaderHasNoSlash(p);
    SplitJoinRoundTrip(p.pathNodes, '/');
    SplitAfterHead(p.Header(), '/', Join(p.pathNodes, "/"));
    assert p.Formatted() == p.Header() + ['/'] + Join(p.pathNodes, "/");
  }

  /** For a non-negative depth the formatted path starts with '+' exactly for a
      positive sign and with '-' exactly for a negative one (the zero state starts
      with its depth digit). */
  lemma FormattedSignLead(p: DimensionPosition)
    requires p.pathDepth >= 0
    ensures p.Formatted()[0] == '+' <==> p.pathSign > 0
    ensures p.Formatted()[0] == '-' <==> p.pathSign < 0
  {
    var digits := IntToString(p.pathDepth);
    if p.pathSign == 0 {
      assert p.Formatted()[0] == digits[0];
    } else {
      assert p.Formatted()[0] == SignPrefix(p.pathSign)[0];
    }
  }

  /** The docstring example: Paris in the SPATIAL tree. */
  lemma FormattedParisExample()
    ensures DimensionPosition(Spatial, 1, 3, ["Earth", "Europe", "France", "Paris"], "Earth").Formatted()
         == "+3:SPATIAL" + "/" + "Earth/Europe/France/Paris"
  {
    var p := DimensionPosition(Spatial, 1, 3, ["Earth", "Europe", "France", "Paris"], "Earth");
    ParisHeader(p);
    ParisNodes(p.pathNodes);
  }

  lemma ParisHeader(p: DimensionPosition)
    requires p.dimension == Spatial && p.pathSign == 1 && p.pathDepth == 3
    ensures p.Header() == "+3:SPATIAL"
  {
    assert IntToString(3) == "3";
  }

  lemma ParisNodes(nodes: seq<string>)
    requires nodes == ["Earth", "Europe", "France", "Paris"]
    ensures Join(nodes, "/") == "Earth/Europe/France/Paris"
  {
    var rest := nodes[1..];
    var last := rest[1..];
    assert last == ["France", "Paris"] && last[1..] == ["Paris"];
    assert Join(last, "/") == "France" + "/" + "Paris";
    assert Join(rest, "/") == "Europe" + "/" + ("France" + "/" + "Paris");
    assert Join(nodes, "/") == "Earth" + "/" + ("Europe" + "/" + ("France" + "/" + "Paris"));
  }

  /** Evaluation-Potency-Activity coordinates with a confidence. */
  datatype EPAValues = EPAValues(
    evaluation: TernaryValue,
    potency: TernaryValue,
    activity: TernaryValue,
    confidence: real)
  {
    /** (E, P, A) as integers, in that order. */
    function AsVector(): (v: (int, int, int))
      ensures -1 <= v.0 <= 1 && -1 <= v.1 <= 1 && -1 <= v.2 <= 1
      ensures v.0 == evaluation.Value() && v.1 == potency.Value() && v.2 == activity.Value()
    {
      (evaluation.Value(), potency.Value(), activity.Value())
    }
  }

  /** `EPAValues()` with every field defaulted. */
  function DefaultEPA(): (e: EPAValues)
    ensures e.AsVector() == (0, 0, 0) && e.confidence == 1.0
  {
    EPAValues(Neutral, Neutral, Neutral, 1.0)
  }

  /** The first position of `positions` in dimension `dim`, if any. */
  function FirstInDimension(positions: seq<DimensionPosition>, dim: GroundingDimension)
    : (r: Option<DimensionPosition>)
    ensures r.None? <==> forall k :: 0 <= k < |positions| ==> positions[k].dimension != dim
    ensures r.Some? ==> exists k :: 0 <= k < |positions| && positions[k] == r.value
                          && r.value.dimension == dim
                          && forall j :: 0 <= j < k ==> positions[j].dimension != dim
  {
    if positions == [] then None
    else if positions[0].dimension == dim then Some(positions[0])
    else
      FirstInDimension(positions[1..], dim)
  }

  /** An entity with everything known about it. Properties are the key/value rows
      in the order the store returned them. */
  datatype EntityProfile = EntityProfile(
    entity: Entity,
    positions: seq<DimensionPosition>,
    epa: EPAValues,
    properties: seq<(string, string)>)
  {
    /** The position for `dim`, or None when the entity has none. */
    function GetPosition(dim: GroundingDimension): Option<DimensionPosition>
    {
      FirstInDimension(positions, dim)
    }

    /** "label (id): E=+e P=+p A=+a | <first three formatted positions>". */
    function Summary(): string
    {
      var dims := seq(Min(3, |positions|), k requires 0 <= k < Min(3, |positions|) => positions[k].Formatted());
      entity.name + " (" + entity.id + "): "
        + "E=" + SignedDigit(epa.evaluation) + " P=" + SignedDigit(epa.potency)
        + " A=" + SignedDigit(epa.activity) + " | " + Join(dims, ", ")
    }
  }

  /** Python's `format(v, "+d")` for a ternary value. */
  function SignedDigit(v: TernaryValue): string
  {
    match v
    case Negative => "-1"
    case Neutral => "+0"
    case Positive => "+1"
  }

  /** The summary shows the formatted path of each of the first three positions. */
  lemma SummaryShowsFirstThree(p: EntityProfile, k: nat)
    requires k < Min(3, |p.positions|)
    ensures IsSubstring(p.positions[k].Formatted(), p.Summary())
  {
    var dims := seq(Min(3, |p.positions|), i requires 0 <= i < Min(3, |p.positions|) => p.positions[i].Formatted());
    JoinContainsParts(dims, ", ", k);
    var s := p.Summary();
    var head := s[..|s| - |Join(dims, ", ")|];
    assert s == head + Join(dims, ", ") + "";
    SubstringOfConcat(head, Join(dims, ", "), "");
    SubstringTransitive(p.positions[k].Formatted(), Join(dims, ", "), s);
  }
}
