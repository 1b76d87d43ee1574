/** Helpers of er_translator/utils/utils.py: the entity copy, the primary-key
    names, and the three lookups the hierarchy translator imports from this
    file (`retrieve_children_names`, `retrieve_connected_relationships`,
    `get_all_father_entities`), which the file itself does not define; the
    model gives them the meaning their call sites need. */
module Utils {
  import opened Wrappers
  import opened Conceptual

  /** Every attribute as a plain attribute, in order. */
  function PlainAll(attributes: seq<Attribute>): (r: seq<Attribute>)
    ensures |r| == |attributes|
    ensures forall k :: 0 <= k < |attributes| ==> r[k] == Plain(attributes[k])
  {
    if attributes == [] then []
    else PlainAll(attributes[..|attributes| - 1]) + [Plain(attributes[|attributes| - 1])]
  }

  /** A new entity called `entityName` when one is given (an empty name counts
      as not given) and after the original otherwise. Identifiers and
      attributes are copied in order as plain attributes, so composite ones
      lose their sub-attributes; the copy has no strong entity and no
      hierarchy. */
  method CreateCopyFromEntity(entity: Entity, entityName: Option<string>) returns (copy: Entity)
    ensures fresh(copy)
    ensures copy.name == if entityName.Some? && entityName.value != "" then entityName.value else entity.name
    ensures copy.identifiers == PlainAll(entity.identifiers)
    ensures copy.attributes == PlainAll(entity.attributes)
    ensures copy.strongEntity == None && copy.hierarchy == null
  {
    var newName := if entityName.Some? && entityName.value != "" then entityName.value else entity.name;
    var identifiers := entity.identifiers;
    var attributes := entity.attributes;
    copy := new Entity(newName);
    var i := 0;
    while i < |identifiers|
      invariant 0 <= i <= |identifiers|
      invariant copy.identifiers == PlainAll(identifiers[..i])
      invariant copy.attributes == [] && copy.strongEntity == None && copy.hierarchy == null
    {
      var identifier := identifiers[i];
      copy.AddIdentifier(Attribute(identifier.name, identifier.cardinality, identifier.isUnique));
      PlainAllSnoc(identifiers, i);
      i := i + 1;
    }
    assert identifiers[..i] == identifiers;
    var j := 0;
    while j < |attributes|
      invariant 0 <= j <= |attributes|
      invariant copy.identifiers == PlainAll(identifiers)
      invariant copy.attributes == PlainAll(attributes[..j])
      invariant copy.strongEntity == None && copy.hierarchy == null
    {
      var attribute := attributes[j];
      copy.AddAttribute(Attribute(attribute.name, attribute.cardinality, attribute.isUnique));
      PlainAllSnoc(attributes, j);
      j := j + 1;
    }
    assert attributes[..j] == attributes;
  }

  lemma PlainAllSnoc(attributes: seq<Attribute>, i: nat)
    requires i < |attributes|
    ensures PlainAll(attributes[..i + 1]) == PlainAll(attributes[..i]) + [Plain(attributes[i])]
  {
    assert attributes[..i + 1][..i] == attributes[..i];
  }

  /** The names of the entity's identifiers, one per identifier, in order. */
  method GetPrimaryKeys(entity: Entity) returns (ids: seq<string>)
    ensures |ids| == |entity.identifiers|
    ensures forall k :: 0 <= k < |ids| ==> ids[k] == entity.identifiers[k].name
  {
    ids := [];
    var i := 0;
    while i < |entity.identifiers|
      invariant 0 <= i <= |entity.identifiers|
      invariant |ids| == i
      invariant forall k :: 0 <= k < i ==> ids[k] == entity.identifiers[k].name
    {
      ids := ids + [entity.identifiers[i].name];
      i := i + 1;
    }
  }

  /** The children named by the entity's hierarchy. */
  function RetrieveChildrenNames(father: Entity): seq<string>
    requires father.hierarchy != null
    reads father, father.hierarchy
  {
    father.hierarchy.children
  }

  /** The keys, in dictionary order, of the relationships that have at
      least one endpoint among `names`. */
  function RetrieveConnectedRelationships(names: seq<string>, relationships: map<string, Relationship>,
                                          order: seq<string>): (r: seq<string>)
    ensures |r| <= |order|
    ensures forall n :: n in r <==>
      n in order && n in relationships &&
      (relationships[n].entityFrom in names || relationships[n].entityTo in names)
  {
    if order == [] then []
    else
      var init := RetrieveConnectedRelationships(names, relationships, order[..|order| - 1]);
      var last := order[|order| - 1];
      assert forall n :: n in order <==> n in order[..|order| - 1] || n == last;
      if last in relationships && (relationships[last].entityFrom in names || relationships[last].entityTo in names)
      then init + [last] else init
  }

  /** The keys, in dictionary order, of the entities that have a hierarchy. */
  function GetAllFatherEntities(entities: map<string, Entity>, order: seq<string>): (r: seq<string>)
    reads entities.Values
    ensures |r| <= |order|
    ensures forall n :: n in r <==> n in order && n in entities && entities[n].hierarchy != null
  {
    if order == [] then []
    else
      var init := GetAllFatherEntities(entities, order[..|order| - 1]);
      var last := order[|order| - 1];
      assert forall n :: n in order <==> n in order[..|order| - 1] || n == last;
      if last in entities && entities[last].hierarchy != null then init + [last] else init
  }

  /** No name occurs twice. */
  ghost predicate Distinct(names: seq<string>)
  {
    forall i, j :: 0 <= i < j < |names| ==> names[i] != names[j]
  }

  /** `order` lists every key of `m` exactly once: the insertion order of a
      dictionary. */
  ghost predicate ListsKeys<V>(order: seq<string>, m: map<string, V>)
  {
    Distinct(order) && forall n :: n in order <==> n in m
  }

  /** `r` is the elements of `s` at the strictly increasing positions `ps`,
      in that order: an order-preserving selection out of `s`. */
  ghost predicate PicksAt(r: seq<string>, s: seq<string>, ps: seq<nat>)
  {
    |r| == |ps| &&
    (forall i, j :: 0 <= i < j < |ps| ==> ps[i] < ps[j]) &&
    forall i :: 0 <= i < |ps| ==> ps[i] < |s| && r[i] == s[ps[i]]
  }

  /** An order-preserving selection out of a sequence without repetitions
      has no repetitions either. */
  lemma PicksAtDistinct(r: seq<string>, s: seq<string>, ps: seq<nat>)
    requires PicksAt(r, s, ps) && Distinct(s)
    ensures Distinct(r)
  {
    forall i, j | 0 <= i < j < |r|
      ensures r[i] != r[j]
    {
      assert ps[i] < ps[j];
    }
  }

  /** Extending a selection out of all but the last element of `s` by
      that element, or not: the selection stays order-preserving. */
  lemma PicksAtSnoc(r: seq<string>, s: seq<string>, ps: seq<nat>, keep: bool)
    requires |s| > 0 && PicksAt(r, s[..|s| - 1], ps)
    ensures PicksAt(r + (if keep then [s[|s| - 1]] else []), s, ps + (if keep then [|s| - 1] else []))
  {
    var n := |s| - 1;
    assert forall i :: 0 <= i < |ps| ==> ps[i] < n && r[i] == s[ps[i]];
  }

  /** The positions in `order` of the relationships that have at least one
      endpoint among `names`. */
  ghost function ConnectedPositions(names: seq<string>, relationships: map<string, Relationship>,
                                    order: seq<string>): seq<nat>
  {
    if order == [] then []
    else
      var n := |order| - 1;
      ConnectedPositions(names, relationships, order[..n]) +
      (if order[n] in relationships && (relationships[order[n]].entityFrom in names || relationships[order[n]].entityTo in names)
       then [n] else [])
  }

  /** The connected positions are below `|order|`, and a position is among
      them exactly when its relationship is connected to `names`. */
  lemma {:induction false} ConnectedPositionsExact(names: seq<string>, relationships: map<string, Relationship>,
                                                  order: seq<string>)
    ensures forall i :: 0 <= i < |ConnectedPositions(names, relationships, order)| ==>
      ConnectedPositions(names, relationships, order)[i] < |order|
    ensures forall k :: 0 <= k < |order| ==>
      (k in ConnectedPositions(names, relationships, order) <==>
       order[k] in relationships && (relationships[order[k]].entityFrom in names || relationships[order[k]].entityTo in names))
    decreases |order|
  {
    if order != [] {
      var n := |order| - 1;
      var init := order[..n];
      ConnectedPositionsExact(names, relationships, init);
      var pi := ConnectedPositions(names, relationships, init);
      var keep := order[n] in relationships && (relationships[order[n]].entityFrom in names || relationships[order[n]].entityTo in names);
      assert ConnectedPositions(names, relationships, order) == pi + (if keep then [n] else []);
      assert forall i :: 0 <= i < |pi| ==> pi[i] < n;
      assert n !in pi;
      forall k | 0 <= k < n
        ensures k in pi <==>
          order[k] in relationships && (relationships[order[k]].entityFrom in names || relationships[order[k]].entityTo in names)
      {
        assert init[k] == order[k];
      }
    }
  }

  /** `RetrieveConnectedRelationships` is the selection of `order` at the
      connected positions. */
  lemma {:induction false} ConnectedPicks(names: seq<string>, relationships: map<string, Relationship>, order: seq<string>)
    ensures PicksAt(RetrieveConnectedRelationships(names, relationships, order), order,
                    ConnectedPositions(names, relationships, order))
    decreases |order|
  {
    if order != [] {
      var n := |order| - 1;
      var init := order[..n];
      var keep := order[n] in relationships && (relationships[order[n]].entityFrom in names || relationships[order[n]].entityTo in names);
      ConnectedPicks(names, relationships, init);
      PicksAtSnoc(RetrieveConnectedRelationships(names, relationships, init), order,
                  ConnectedPositions(names, relationships, init), keep);
    }
  }

  /** `RetrieveConnectedRelationships` keeps exactly the connected keys of
      `order`, in their order. */
  lemma RetrieveConnectedRelationshipsInOrder(names: seq<string>, relationships: map<string, Relationship>, order: seq<string>)
    ensures PicksAt(RetrieveConnectedRelationships(names, relationships, order), order,
                    ConnectedPositions(names, relationships, order))
    ensures forall k :: 0 <= k < |order| ==>
      (k in ConnectedPositions(names, relationships, order) <==>
       order[k] in relationships && (relationships[order[k]].entityFrom in names || relationships[order[k]].entityTo in names))
  {
    ConnectedPicks(names, relationships, order);
    ConnectedPositionsExact(names, relationships, order);
  }

  /** `RetrieveConnectedRelationships` repeats no key when `order` repeats none. */
  lemma RetrieveConnectedRelationshipsDistinct(names: seq<string>, relationships: map<string, Relationship>, order: seq<string>)
    requires Distinct(order)
    ensures Distinct(RetrieveConnectedRelationships(names, relationships, order))
  {
    RetrieveConnectedRelationshipsInOrder(names, relationships, order);
    PicksAtDistinct(RetrieveConnectedRelationships(names, relationships, order), order, ConnectedPositions(names, relationships, order));
  }

  /** The positions in `order` of the entities that have a hierarchy. */
  ghost function FatherPositions(entities: map<string, Entity>, order: seq<string>): seq<nat>
    reads entities.Values
  {
    if order == [] then []
    else
      var n := |order| - 1;
      FatherPositions(entities, order[..n]) +
      (if order[n] in entities && entities[order[n]].hierarchy != null then [n] else [])
  }

  /** The father positions are below `|order|`, and a position is among
      them exactly when its entity has a hierarchy. */
  lemma {:induction false} FatherPositionsExact(entities: map<string, Entity>, order: seq<string>)
    ensures forall i :: 0 <= i < |FatherPositions(entities, order)| ==> FatherPositions(entities, order)[i] < |order|
    ensures forall k :: 0 <= k < |order| ==>
      (k in FatherPositions(entities, order) <==> order[k] in entities && entities[order[k]].hierarchy != null)
    decreases |order|
  {
    if order != [] {
      var n := |order| - 1;
      var init := order[..n];
      FatherPositionsExact(entities, init);
      var pi := FatherPositions(entities, init);
      var keep := order[n] in entities && entities[order[n]].hierarchy != null;
      assert FatherPositions(entities, order) == pi + (if keep then [n] else []);
      assert forall i :: 0 <= i < |pi| ==> pi[i] < n;
      assert n !in pi;
      forall k | 0 <= k < n
        ensures k in pi <==> order[k] in entities && entities[order[k]].hierarchy != null
      {
        assert init[k] == order[k];
      }
    }
  }

  /** `GetAllFatherEntities` is the selection of `order` at the father
      positions. */
  lemma {:induction false} FatherPicks(entities: map<string, Entity>, order: seq<string>)
    ensures PicksAt(GetAllFatherEntities(entities, order), order, FatherPositions(entities, order))
    decreases |order|
  {
    if order != [] {
      var n := |order| - 1;
      var init := order[..n];
      FatherPicks(entities, init);
      PicksAtSnoc(GetAllFatherEntities(entities, init), order, FatherPositions(entities, init),
                  order[n] in entities && entities[order[n]].hierarchy != null);
    }
  }

  /** `GetAllFatherEntities` keeps exactly the keys of `order` whose entity
      has a hierarchy, in their order. */
  lemma GetAllFatherEntitiesInOrder(entities: map<string, Entity>, order: seq<string>)
    ensures PicksAt(GetAllFatherEntities(entities, order), order, FatherPositions(entities, order))
    ensures forall k :: 0 <= k < |order| ==>
      (k in FatherPositions(entities, order) <==> order[k] in entities && entities[order[k]].hierarchy != null)
  {
    FatherPicks(entities, order);
    FatherPositionsExact(entities, order);
  }

  /** `GetAllFatherEntities` repeats no key when `order` repeats none. */
  lemma GetAllFatherEntitiesDistinct(entities: map<string, Entity>, order: seq<string>)
    requires Distinct(order)
    ensures Distinct(GetAllFatherEntities(entities, order))
  {
    GetAllFatherEntitiesInOrder(entities, order);
    PicksAtDistinct(GetAllFatherEntities(entities, order), order, FatherPositions(entities, order));
  }

  /** When `order` lists every entity key once, `GetAllFatherEntities` lists
      every father once: each entity with a hierarchy is translated exactly
      once. */
  lemma FathersListedOnce(entities: map<string, Entity>, order: seq<string>)
    requires ListsKeys(order, entities)
    ensures Distinct(GetAllFatherEntities(entities, order))
    ensures forall n :: n in GetAllFatherEntities(entities, order) <==> n in entities && entities[n].hierarchy != null
  {
    GetAllFatherEntitiesInOrder(entities, order);
    GetAllFatherEntitiesDistinct(entities, order);
  }
}
