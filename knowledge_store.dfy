/** The entity store as the verifier and the spreader see it
    (src/wiki_grounding/store.py). The SQLite tables become values: the entity
    profiles keyed by id and the link table in row order. Label search (ordered by
    pagerank in SQL) and the two anchor queries are given as oracle functions, since
    their ranking and their definitions are not part of this model. */
module KnowledgeStore {
  import opened Base
  import opened Entities

  /** One row of the link table. */
  datatype Link = Link(sourceId: string, targetId: string, relation: string, weight: real)

  /** One `(profile, relation, weight)` tuple of `get_related`. */
  datatype Related = Related(profile: EntityProfile, relation: string, weight: real)

  /** One `(anchor_id, label, category, weight)` tuple of `get_entity_anchors`. */
  datatype AnchorRef = AnchorRef(anchorId: string, anchorLabel: string, category: Option<string>, weight: real)

  /** One `(entity_id, weight)` tuple of `get_entities_with_anchor`. */
  datatype Member = Member(entityId: string, weight: real)

  /** The `direction` argument of `get_related`. */
  datatype Direction = Outgoing | Incoming | Both

  datatype Store = Store(
    entities: map<string, EntityProfile>,
    links: seq<Link>,
    /** Every entity whose label equals the argument case-insensitively, best pagerank first. */
    exactMatches: string -> seq<EntityProfile>,
    /** Every entity whose label contains the argument case-insensitively, best pagerank first. */
    substringMatches: string -> seq<EntityProfile>,
    entityAnchors: string -> seq<AnchorRef>,
    entitiesWithAnchor: (string, nat) -> seq<Member>)
  {
    /** A profile is stored under its own entity id. */
    ghost predicate Valid()
    {
      forall id :: id in entities ==> entities[id].entity.id == id
    }

    /** `get(entity_id)`. */
    function Get(id: string): (r: Option<EntityProfile>)
      ensures r.Some? <==> id in entities
      ensures r.Some? && Valid() ==> r.value.entity.id == id
    {
      if id in entities then Some(entities[id]) else None
    }

    /** `search_exact(label, limit)`: the best `limit` exact matches. */
    function SearchExact(text: string, limit: nat): (r: seq<EntityProfile>)
      ensures |r| <= limit
      ensures r == [] <==> exactMatches(text) == [] || limit == 0
    {
      Take(exactMatches(text), limit)
    }

    /** `search(label, limit)`: the best `limit` substring matches. */
    function Search(text: string, limit: nat): (r: seq<EntityProfile>)
      ensures |r| <= limit
      ensures r == [] <==> substringMatches(text) == [] || limit == 0
    {
      Take(substringMatches(text), limit)
    }

    /** The related tuples for some rows of the link table: rows whose other end has
        no profile are skipped; incoming rows are tagged `inverse_`. */
    function Resolve(rows: seq<Link>, incoming: bool): (r: seq<Related>)
      ensures |r| <= |rows|
    {
      if rows == [] then []
      else
        var l := rows[0];
        var here := if Far(l, incoming) in entities
                    then [Related(entities[Far(l, incoming)], Tag(l, incoming), l.weight)] else [];
        here + Resolve(rows[1..], incoming)
    }

    /** The tuple `r` is what the row `l` turns into. */
    ghost predicate RowGives(l: Link, incoming: bool, r: Related)
    {
      Far(l, incoming) in entities
      && r == Related(entities[Far(l, incoming)], Tag(l, incoming), l.weight)
    }

    /** `get_related(entity_id, direction=dir, limit=limit)` with no relation
        filter: the first `limit` outgoing rows, then the first `limit` incoming rows,
        and the combination cut to `limit`. */
    function GetRelated(id: string, dir: Direction, limit: nat): (r: seq<Related>)
      ensures |r| <= limit
      ensures forall k :: 0 <= k < |r| ==> RelatedRow(id, dir, r[k])
    {
      var outRows := Take(Filter(links, (l: Link) => l.sourceId == id), limit);
      var inRows := Take(Filter(links, (l: Link) => l.targetId == id), limit);
      var outgoing := if dir != Incoming then Resolve(outRows, false) else [];
      var incoming := if dir != Outgoing then Resolve(inRows, true) else [];
      var all := outgoing + incoming;
      assert forall k :: 0 <= k < |all| ==> RelatedRow(id, dir, all[k]) by {
        if dir != Incoming {
          ResolvedRows(this, id, dir, outRows, false);
        }
        if dir != Outgoing {
          ResolvedRows(this, id, dir, inRows, true);
        }
        forall k | 0 <= k < |all|
          ensures RelatedRow(id, dir, all[k])
        {
          if k < |outgoing| {
            assert all[k] == outgoing[k];
          } else {
            assert all[k] == incoming[k - |outgoing|];
          }
        }
      }
      Take(all, limit)
    }

    /** `r` comes from a link row at `id` in a direction `dir` allows: an outgoing
        row keeps its relation, an incoming one carries `inverse_` before it. */
    ghost predicate RelatedRow(id: string, dir: Direction, r: Related)
    {
      (dir != Incoming && exists l :: l in links && l.sourceId == id && RowGives(l, false, r))
      || (dir != Outgoing && exists l :: l in links && l.targetId == id && RowGives(l, true, r))
    }
  }

  /** The end of a link that is not the queried entity. */
  function Far(l: Link, incoming: bool): string
  {
    if incoming then l.sourceId else l.targetId
  }

  /** The end of a link that is the queried entity. */
  function Near(l: Link, incoming: bool): string
  {
    if incoming then l.targetId else l.sourceId
  }

  /** The relation reported for a link row. */
  function Tag(l: Link, incoming: bool): string
  {
    if incoming then "inverse_" + l.relation else l.relation
  }

  /** Each resolved tuple comes from one of the rows. */
  lemma {:induction false} ResolveSound(store: Store, rows: seq<Link>, incoming: bool, k: nat)
    requires k < |store.Resolve(rows, incoming)|
    ensures exists l :: l in rows && store.RowGives(l, incoming, store.Resolve(rows, incoming)[k])
  {
    var l := rows[0];
    var r := store.Resolve(rows, incoming);
    if Far(l, incoming) in store.entities && k == 0 {
      assert store.RowGives(l, incoming, r[0]);
    } else {
      var skip := if Far(l, incoming) in store.entities then 1 else 0;
      ResolveSound(store, rows[1..], incoming, k - skip);
      var m :| m in rows[1..] && store.RowGives(m, incoming, store.Resolve(rows[1..], incoming)[k - skip]);
      assert r[k] == store.Resolve(rows[1..], incoming)[k - skip];
    }
  }

  /** Resolving link rows at the entity, in a direction the query allows, gives
      tuples that come from those rows. */
  lemma ResolvedRows(store: Store, id: string, dir: Direction, rows: seq<Link>, incoming: bool)
    requires if incoming then dir != Outgoing else dir != Incoming
    requires forall j :: 0 <= j < |rows| ==> rows[j] in store.links && Near(rows[j], incoming) == id
    ensures forall k :: 0 <= k < |store.Resolve(rows, incoming)| ==>
              store.RelatedRow(id, dir, store.Resolve(rows, incoming)[k])
  {
    forall k | 0 <= k < |store.Resolve(rows, incoming)|
      ensures store.RelatedRow(id, dir, store.Resolve(rows, incoming)[k])
    {
      ResolveSound(store, rows, incoming, k);
      var l :| l in rows && store.RowGives(l, incoming, store.Resolve(rows, incoming)[k]);
    }
  }

  /** Every row whose other end has a profile is resolved. */
  lemma {:induction false} ResolveComplete(store: Store, rows: seq<Link>, incoming: bool, l: Link)
    requires l in rows && Far(l, incoming) in store.entities
    ensures Related(store.entities[Far(l, incoming)], Tag(l, incoming), l.weight) in store.Resolve(rows, incoming)
  {
    if rows[0] != l {
      ResolveComplete(store, rows[1..], incoming, l);
    }
  }

  /** Every incoming tuple of `get_related` names its relation as `inverse_`
      followed by the stored relation of a link into the entity. */
  lemma IncomingTagged(store: Store, id: string, limit: nat, k: nat)
    requires k < |store.GetRelated(id, Incoming, limit)|
    ensures exists l :: l in store.links && l.targetId == id
              && store.GetRelated(id, Incoming, limit)[k].relation == "inverse_" + l.relation
  {
    var r := store.GetRelated(id, Incoming, limit);
    assert store.RelatedRow(id, Incoming, r[k]);
  }

  /** When the entity has at most `limit` outgoing rows, every one whose target has
      a profile is reported by an outgoing query. */
  lemma OutgoingComplete(store: Store, id: string, limit: nat, l: Link)
    requires |Filter(store.links, (x: Link) => x.sourceId == id)| <= limit
    requires l in store.links && l.sourceId == id && l.targetId in store.entities
    ensures Related(store.entities[l.targetId], l.relation, l.weight) in store.GetRelated(id, Outgoing, limit)
  {
    var rows := Filter(store.links, (x: Link) => x.sourceId == id);
    assert Take(rows, limit) == rows;
    var i :| 0 <= i < |store.links| && store.links[i] == l;
    assert l in rows;
    ResolveComplete(store, rows, false, l);
    var outgoing := store.Resolve(rows, false);
    assert |outgoing| <= limit;
    assert outgoing + [] == outgoing;
  }
}
