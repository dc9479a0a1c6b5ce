/** EPA (Evaluation-Potency-Activity) encoding of semantic primitives
    (src/wiki_grounding/epa.py): a table-driven weighted sum per axis followed by a
    symmetric ternary threshold. The primitive dictionary is handed over as the
    sequence of its items, in iteration order; sums are exact reals. */
module Epa {
  import opened Base
  import opened Entities

  /** The three axes of the semantic differential. */
  datatype Axis = E | P | A

  /** Contribution of each primitive to each axis; an axis missing from a row
      contributes 0. */
  const PrimitiveTable: map<string, map<Axis, real>> := map[
    "GOOD" := map[E := 1.0],
    "BAD" := map[E := -1.0],
    "BIG" := map[P := 1.0],
    "SMALL" := map[P := -1.0],
    "CAN" := map[P := 0.5],
    "MUST" := map[P := -0.3],
    "DO" := map[A := 1.0],
    "MOVE" := map[A := 0.8],
    "HAPPEN" := map[A := 0.5],
    "ALIVE" := map[A := 0.3],
    "DEAD" := map[A := -1.0],
    "WANT" := map[A := 0.3, P := 0.2],
    "THINK" := map[A := 0.2],
    "FEEL" := map[E := 0.2, A := 0.2]
  ]

  predicate Recognised(prim: string)
  {
    prim in PrimitiveTable
  }

  /** `mapping.get(axis, 0)` for the row of a recognised primitive. */
  function Coefficient(prim: string, axis: Axis): real
    requires Recognised(prim)
  {
    if axis in PrimitiveTable[prim] then PrimitiveTable[prim][axis] else 0.0
  }

  /** What one dictionary item adds to the sum of `axis`. */
  function Contribution(item: (string, real), axis: Axis): real
  {
    if Recognised(item.0) then Coefficient(item.0, axis) * item.1 else 0.0
  }

  /** The accumulated sum of `axis` after the given items. */
  function AxisSum(prims: seq<(string, real)>, axis: Axis): real
  {
    if prims == [] then 0.0
    else AxisSum(prims[..|prims| - 1], axis) + Contribution(prims[|prims| - 1], axis)
  }

  /** The number of recognised items. */
  function RecognisedCount(prims: seq<(string, real)>): (n: nat)
    ensures n <= |prims|
  {
    if prims == [] then 0
    else RecognisedCount(prims[..|prims| - 1]) + (if Recognised(prims[|prims| - 1].0) then 1 else 0)
  }

  /** The inner `to_ternary`: a dead band of width 0.3 on each side of zero. */
  function ToTernary(x: real): (t: TernaryValue)
    ensures t == Positive <==> x > 0.3
    ensures t == Negative <==> x < -0.3
    ensures t == Neutral <==> -0.3 <= x <= 0.3
  {
    if x > 0.3 then Positive
    else if x < -0.3 then Negative
    else Neutral
  }

  /** `min(1.0, count / 3.0)`. */
  function Confidence(count: nat): (c: real)
    ensures 0.0 <= c <= 1.0
    ensures c == 1.0 <==> count >= 3
    ensures c == 0.0 <==> count == 0
    ensures count < 3 ==> c * 3.0 == count as real
  {
    var ratio := count as real / 3.0;
    if 1.0 <= ratio then 1.0 else ratio
  }

  /** The EPA value `primitives_to_epa` computes. */
  function EpaOf(prims: seq<(string, real)>): EPAValues
  {
    EPAValues(
      ToTernary(AxisSum(prims, E)),
      ToTernary(AxisSum(prims, P)),
      ToTernary(AxisSum(prims, A)),
      Confidence(RecognisedCount(prims)))
  }

  /** One more item adds its contribution to the sum of an axis and its
      recognition to the count. */
  lemma AccumulateStep(prims: seq<(string, real)>, i: nat, axis: Axis)
    requires i < |prims|
    ensures AxisSum(prims[..i + 1], axis) == AxisSum(prims[..i], axis) + Contribution(prims[i], axis)
    ensures RecognisedCount(prims[..i + 1]) == RecognisedCount(prims[..i]) + if Recognised(prims[i].0) then 1 else 0
  {
    var q := prims[..i + 1];
    assert q[..i] == prims[..i] && q[i] == prims[i];
  }

  /** The accumulation loop of `primitives_to_epa`. */
  method PrimitivesToEpa(prims: seq<(string, real)>) returns (r: EPAValues)
    ensures r == EpaOf(prims)
    ensures r.AsVector().0 in {-1, 0, 1} && r.AsVector().1 in {-1, 0, 1} && r.AsVector().2 in {-1, 0, 1}
    ensures 0.0 <= r.confidence <= 1.0
  {
    var eSum, pSum, aSum := 0.0, 0.0, 0.0;
    var count := 0;
    for i := 0 to |prims|
      invariant eSum == AxisSum(prims[..i], E)
      invariant pSum == AxisSum(prims[..i], P)
      invariant aSum == AxisSum(prims[..i], A)
      invariant count == RecognisedCount(prims[..i])
    {
      AccumulateStep(prims, i, E);
      AccumulateStep(prims, i, P);
      AccumulateStep(prims, i, A);
      if Recognised(prims[i].0) {
        eSum := eSum + Contribution(prims[i], E);
        pSum := pSum + Contribution(prims[i], P);
        aSum := aSum + Contribution(prims[i], A);
        count := count + 1;
      }
    }
    assert prims[..|prims|] == prims;
    r := EPAValues(ToTernary(eSum), ToTernary(pSum), ToTernary(aSum), Confidence(count));
  }

  /** The items whose name is in the table, in order. */
  function RecognisedOnly(prims: seq<(string, real)>): (r: seq<(string, real)>)
    ensures forall k :: 0 <= k < |r| ==> Recognised(r[k].0)
  {
    if prims == [] then []
    else if Recognised(prims[|prims| - 1].0) then RecognisedOnly(prims[..|prims| - 1]) + [prims[|prims| - 1]]
    else RecognisedOnly(prims[..|prims| - 1])
  }

  /** Unrecognised primitive names add nothing to any sum and are not counted:
      dropping them leaves every sum unchanged, and the count is the number of
      recognised items. */
  lemma {:induction false} UnrecognisedIgnored(prims: seq<(string, real)>, axis: Axis)
    ensures AxisSum(RecognisedOnly(prims), axis) == AxisSum(prims, axis)
    ensures RecognisedCount(prims) == |RecognisedOnly(prims)|
    ensures EpaOf(RecognisedOnly(prims)) == EpaOf(prims)
  {
    if prims != [] {
      var init := prims[..|prims| - 1];
      UnrecognisedIgnored(init, E);
      UnrecognisedIgnored(init, P);
      UnrecognisedIgnored(init, A);
      UnrecognisedIgnored(init, axis);
      var f := RecognisedOnly(prims);
      if Recognised(prims[|prims| - 1].0) {
        assert f[..|f| - 1] == RecognisedOnly(init);
      }
      forall x: Axis
        ensures AxisSum(RecognisedOnly(prims), x) == AxisSum(prims, x)
      {
        UnrecognisedIgnored(init, x);
        if Recognised(prims[|prims| - 1].0) {
          assert f[..|f| - 1] == RecognisedOnly(init);
        }
      }
      RecognisedCountOfRecognised(f);
    } else {
      RecognisedCountOfRecognised([]);
    }
  }

  lemma {:induction false} RecognisedCountOfRecognised(prims: seq<(string, real)>)
    requires forall k :: 0 <= k < |prims| ==> Recognised(prims[k].0)
    ensures RecognisedCount(prims) == |prims|
  {
    if prims != [] {
      RecognisedCountOfRecognised(prims[..|prims| - 1]);
    }
  }

  /** Each axis sum is additive over the concatenation of item lists, so the sum
      is the sum of the per-item contributions. */
  lemma {:induction false} AxisSumConcat(a: seq<(string, real)>, b: seq<(string, real)>, axis: Axis)
    ensures AxisSum(a + b, axis) == AxisSum(a, axis) + AxisSum(b, axis)
  {
    if b == [] {
      assert a + b == a;
    } else {
      AxisSumConcat(a, b[..|b| - 1], axis);
      assert (a + b)[..|a + b| - 1] == a + b[..|b| - 1];
    }
  }

  /** Only GOOD, BAD and FEEL carry an E coefficient. */
  lemma EvaluationPrimitives(prim: string)
    requires Recognised(prim)
    ensures Coefficient(prim, E) != 0.0 <==> prim in {"GOOD", "BAD", "FEEL"}
  {
  }

  /** Items naming none of GOOD, BAD and FEEL leave E at 0, so the evaluation is
      NEUTRAL. */
  lemma {:induction false} EvaluationNeedsEvaluativePrimitive(prims: seq<(string, real)>)
    requires forall k :: 0 <= k < |prims| ==> prims[k].0 !in {"GOOD", "BAD", "FEEL"}
    ensures AxisSum(prims, E) == 0.0
    ensures EpaOf(prims).evaluation == Neutral
  {
    if prims != [] {
      EvaluationNeedsEvaluativePrimitive(prims[..|prims| - 1]);
      var last := prims[|prims| - 1].0;
      if Recognised(last) {
        EvaluationPrimitives(last);
      }
    }
  }

  /** An empty dictionary gives all-NEUTRAL with confidence 0. */
  lemma EmptyIsNeutral()
    ensures EpaOf([]) == EPAValues(Neutral, Neutral, Neutral, 0.0)
  {
  }

  /** Three recognised primitives give full confidence; for example GOOD, BIG
      and DO at +1 give (+1, +1, +1). */
  lemma GoodBigDoExample()
    ensures EpaOf([("GOOD", 1.0), ("BIG", 1.0), ("DO", 1.0)]) == EPAValues(Positive, Positive, Positive, 1.0)
  {
    var s := [("GOOD", 1.0), ("BIG", 1.0), ("DO", 1.0)];
    var s2: seq<(string, real)> := [("GOOD", 1.0), ("BIG", 1.0)];
    var s1: seq<(string, real)> := [("GOOD", 1.0)];
    assert s[..2] == s2 && s2[..1] == s1 && s1[..0] == [];
    assert Recognised("GOOD") && Recognised("BIG") && Recognised("DO");
    assert RecognisedCount(s1) == 1 && RecognisedCount(s2) == 2 && RecognisedCount(s) == 3;
    assert AxisSum(s1, E) == 1.0 && AxisSum(s1, P) == 0.0 && AxisSum(s1, A) == 0.0;
    assert AxisSum(s2, E) == 1.0 && AxisSum(s2, P) == 1.0 && AxisSum(s2, A) == 0.0;
    assert AxisSum(s, E) == 1.0 && AxisSum(s, P) == 1.0 && AxisSum(s, A) == 1.0;
  }

  /** Defaults per entity type; each leaves the confidence at its default 1.0. */
  const EntityTypeEpa: map<string, EPAValues> := map[
    "person" := EPAValues(Neutral, Neutral, Positive, 1.0),
    "place" := EPAValues(Neutral, Neutral, Negative, 1.0),
    "event" := EPAValues(Neutral, Neutral, Positive, 1.0),
    "organization" := EPAValues(Neutral, Positive, Neutral, 1.0),
    "concept" := EPAValues(Neutral, Negative, Negative, 1.0)
  ]

  /** The default EPA for an entity type, if the type has one. */
  function TypeDefault(entityType: string): (r: Option<EPAValues>)
    ensures r.Some? <==> entityType in {"person", "place", "event", "organization", "concept"}
    ensures r.Some? ==> r.value.confidence == 1.0 && r.value.evaluation == Neutral
  {
    if entityType in EntityTypeEpa then Some(EntityTypeEpa[entityType]) else None
  }

  /** The type defaults as (E, P, A) vectors. */
  lemma TypeDefaultVectors()
    ensures TypeDefault("person").value.AsVector() == (0, 0, 1)
    ensures TypeDefault("place").value.AsVector() == (0, 0, -1)
    ensures TypeDefault("event").value.AsVector() == (0, 0, 1)
    ensures TypeDefault("organization").value.AsVector() == (0, 1, 0)
    ensures TypeDefault("concept").value.AsVector() == (0, -1, -1)
  {
  }
}
